/** What the invariant says to a user of the journal: agreement of the two stores, exactly-once
    effects, provenance of forked entries, agreement of a fork family, and the first decision. */
module ProtocolTheorems {
  import opened EffectSink
  import opened Idempotency
  import opened Journal
  import opened Json
  import opened Lineage
  import opened Ordering
  import opened Protocol
  import opened ProtocolInvariant
  import opened ProtocolSafety
  import opened ProtocolWrites
  import opened StepModel
  import opened Workflow
  import opened Wrappers

  // ---- Two stores, one answer ----

  /** A value the substrate stored, or a worker carried or returned, at any moment of a schedule is
      the journaled output at that moment and at every later one, however the rest of the schedule goes. */
  lemma TwoStoreAgreement(flow: RunId -> Flow, schedule: seq<Action>, more: seq<Action>)
    ensures var s, later := Exec(Init(flow), schedule), Exec(Init(flow), schedule + more).core.db;
      && (forall p | p in s.log :: OutAt(later, p.0, p.1) == s.log[p] && p in later.steps)
      && (forall x | x in s.returned :: x.vals == Outs(later, x.run, Len(flow(x.run))))
      && (forall w | w in s.workers :: var me := s.workers[w];
            me.vals == Outs(later, me.run, |me.vals|) && (me.pc.Got? ==> me.pc.value == OutAt(later, me.run, Next(me))))
  {
    hide StateOk, Grows;
    var s := Exec(Init(flow), schedule);
    Invariant(flow, schedule);
    ExecAppend(Init(flow), schedule, more);
    ScheduleSafe(s, more);
    FlowFixed(flow, schedule);
    AgreementLater(s, Exec(s, more).core);
  }

  lemma {:induction false} FlowFixed(flow: RunId -> Flow, schedule: seq<Action>)
    ensures Exec(Init(flow), schedule).core.flow == flow
  {
    hide StateOk;
    InitOk(flow);
    ScheduleSafe(Init(flow), schedule);
  }

  lemma AgreementLater(s: State, c: Core)
    requires StateOk(s) && Grows(s.core, c)
    ensures forall p | p in s.log :: p in c.db.steps && OutAt(c.db, p.0, p.1) == s.log[p]
    ensures forall x | x in s.returned :: x.vals == Outs(c.db, x.run, Len(s.core.flow(x.run)))
    ensures forall w | w in s.workers :: var me := s.workers[w];
      me.vals == Outs(c.db, me.run, |me.vals|) && (me.pc.Got? ==> me.pc.value == OutAt(c.db, me.run, Next(me)))
  {
    hide Grows, CoreOk, ForkerOk, AcceptedOk, InStep, MayInsert, HasPrefix;
    LogKept(s.core, c, s.log);
    forall x | x in s.returned ensures x.vals == Outs(c.db, x.run, Len(s.core.flow(x.run))) {
      ReturnedKept(s.core, c, x);
      FlowKept(s.core, c);
    }
    forall w | w in s.workers
      ensures var me := s.workers[w];
        me.vals == Outs(c.db, me.run, |me.vals|) && (me.pc.Got? ==> me.pc.value == OutAt(c.db, me.run, Next(me)))
    {
      WorkerKept(s.core, c, s.workers[w]);
    }
  }

  lemma FlowKept(c: Core, c': Core)
    requires Grows(c, c')
    ensures c'.flow == c.flow
  {
  }

  // ---- Exactly-once effects ----

  /** Every row of the effect log belongs to its run's tool step, and no run has two. */
  lemma RowsPerRun(c: Core, i: nat, j: nat)
    requires CoreOk(c) && i < |c.sink| && j < |c.sink| && c.sink[i].runId == c.sink[j].runId
    ensures i == j && c.sink[i].stepName == ToolName(c.flow(c.sink[i].runId))
  {
    hide EntriesOk, MetasOk, Forest;
    assert RowOk(c, i) && RowOk(c, j);
  }

  lemma ToolKeyOwner(c: Core, i: nat, r: RunId)
    requires CoreOk(c) && i < |c.sink| && IsSafe(r) && c.sink[i].idemKey == ToolKey(c, r)
    ensures c.sink[i].runId == r
  {
    hide EntriesOk, MetasOk, Forest;
    assert RowOk(c, i);
    var f, f' := c.flow(c.sink[i].runId), c.flow(r);
    StepNameSafe(f, ToolSeq(f));
    StepNameSafe(f', ToolSeq(f'));
    hide IsSafe, ColonFree, Spec;
    KeyInjective(c.sink[i].runId, ToolName(f), r, ToolName(f'));
  }

  lemma {:induction false} AtMostOne(rows: seq<EffectRow>, keep: EffectRow -> bool)
    requires forall i, j | 0 <= i < j < |rows| :: !(keep(rows[i]) && keep(rows[j]))
    ensures |Filter(rows, keep)| <= 1
    ensures |Filter(rows, keep)| == 1 <==> exists i | 0 <= i < |rows| :: keep(rows[i])
  {
    if |rows| > 0 {
      var rest := rows[1..];
      AtMostOne(rest, keep);
      if keep(rows[0]) {
        forall x | x in rest ensures !keep(x) {
          var j :| 0 <= j < |rest| && rest[j] == x;
          assert rows[j + 1] == x;
        }
        FilterNone(rest, keep);
      } else if i :| 0 <= i < |rows| && keep(rows[i]) {
        assert rest[i - 1] == rows[i];
      }
      if i :| 0 <= i < |rest| && keep(rest[i]) { assert rows[i + 1] == rest[i]; }
    }
  }

  lemma CountIsPresence(c: Core, r: RunId, name: string)
    requires CoreOk(c)
    ensures CountEffects(c.sink, r, name) <= 1
    ensures CountEffects(c.sink, r, name) == 1 <==>
      exists i | 0 <= i < |c.sink| :: c.sink[i].runId == r && c.sink[i].stepName == name
  {
    hide CoreOk, Filter;
    var keep := (row: EffectRow) => row.runId == r && row.stepName == name;
    forall i, j | 0 <= i < j < |c.sink| ensures !(keep(c.sink[i]) && keep(c.sink[j])) {
      if keep(c.sink[i]) && keep(c.sink[j]) { RowsPerRun(c, i, j); }
    }
    AtMostOne(c.sink, keep);
  }

  /** What (r, k) being journaled as a side effect says about the effect log. */
  lemma EffectOfStep(c: Core, r: RunId, k: nat)
    requires CoreOk(c) && (r, k) in c.db.steps
    ensures var e := c.db.steps[(r, k)];
      CountEffects(c.sink, r, e.stepName) == if e.sideEffect && e.seededFrom.None? then 1 else 0
  {
    var e, f := c.db.steps[(r, k)], c.flow(r);
    assert EntryOk(c, r, k);
    StepKinds(f, k);
    CountIsPresence(c, r, e.stepName);
    hide CountEffects, StepKey, KeysUnique, Forest, Output;
    if k == ToolSeq(f) && e.seededFrom.None? {
      var i :| 0 <= i < |c.sink| && c.sink[i].idemKey == ToolKey(c, r);
      ToolKeyOwner(c, i, r);
      assert RowOk(c, i);
    } else {
      forall i | 0 <= i < |c.sink| && c.sink[i].runId == r ensures c.sink[i].stepName != e.stepName {
        assert RowOk(c, i);
        if k != ToolSeq(f) { StepNamesDistinct(f, k, ToolSeq(f)); }
      }
    }
  }

  /** Exactly once, whatever crashes, retries and races: never two effect rows for a step; one row
      for a side-effecting step once it is journaled natively; none for a step a fork seeded. */
  lemma ExactlyOnce(flow: RunId -> Flow, schedule: seq<Action>)
    ensures var c := Exec(Init(flow), schedule).core;
      && (forall r, name :: CountEffects(c.sink, r, name) <= 1)
      && (forall p | p in c.db.steps :: var e := c.db.steps[p];
            CountEffects(c.sink, p.0, e.stepName) == if e.sideEffect && e.seededFrom.None? then 1 else 0)
  {
    hide CoreOk, Exec, CountEffects;
    Invariant(flow, schedule);
    var c := Exec(Init(flow), schedule).core;
    forall r, name ensures CountEffects(c.sink, r, name) <= 1 { CountIsPresence(c, r, name); }
    forall p | p in c.db.steps
      ensures var e := c.db.steps[p];
        CountEffects(c.sink, p.0, e.stepName) == if e.sideEffect && e.seededFrom.None? then 1 else 0
    {
      EffectOfStep(c, p.0, p.1);
    }
  }

  // ---- Effects are conserved over any set of runs, so over any fork forest ----

  function FiredRuns(sink: seq<EffectRow>, family: set<RunId>): set<RunId>
  {
    set row | row in sink && row.runId in family :: row.runId
  }

  /** Runs whose tool step is journaled natively. */
  function NativeToolRuns(c: Core, family: set<RunId>): set<RunId>
  {
    set r | r in family && (r, ToolSeq(c.flow(r))) in c.db.steps && c.db.steps[(r, ToolSeq(c.flow(r)))].seededFrom.None?
  }

  /** Runs whose effect fired while the tool step is not journaled yet. */
  function PendingRuns(c: Core, family: set<RunId>): set<RunId>
  {
    set r | r in FiredRuns(c.sink, family) && (r, ToolSeq(c.flow(r))) !in c.db.steps
  }

  lemma FiredCons(row: EffectRow, rest: seq<EffectRow>, family: set<RunId>)
    ensures FiredRuns([row] + rest, family) == FiredRuns(rest, family) + if row.runId in family then {row.runId} else {}
  {
    var all := [row] + rest;
    assert forall x | x in all :: x == row || x in rest;
    assert row in all && forall x | x in rest :: x in all;
  }

  lemma {:induction false} RowsAreRuns(sink: seq<EffectRow>, family: set<RunId>)
    requires forall i, j | 0 <= i < j < |sink| :: sink[i].runId != sink[j].runId
    ensures |Filter(sink, (row: EffectRow) => row.runId in family)| == |FiredRuns(sink, family)|
  {
    if |sink| > 0 {
      var rest := sink[1..];
      RowsAreRuns(rest, family);
      assert sink == [sink[0]] + rest;
      FiredCons(sink[0], rest, family);
      hide FiredRuns;
      FirstNotFiredAgain(sink, family);
    }
  }

  lemma FirstNotFiredAgain(sink: seq<EffectRow>, family: set<RunId>)
    requires |sink| > 0 && forall i, j | 0 <= i < j < |sink| :: sink[i].runId != sink[j].runId
    ensures sink[0].runId !in FiredRuns(sink[1..], family)
  {
    forall row | row in sink[1..] ensures row.runId != sink[0].runId {
      var j :| 0 <= j < |sink[1..]| && sink[1..][j] == row;
      assert sink[j + 1] == row;
    }
  }

  lemma NativeToolFired(c: Core, r: RunId)
    requires CoreOk(c) && (r, ToolSeq(c.flow(r))) in c.db.steps
    ensures c.db.steps[(r, ToolSeq(c.flow(r)))].seededFrom.None? <==> exists row | row in c.sink :: row.runId == r
  {
    hide KeysUnique, Forest, Output, FitsTable, Outs, MetasOk, Payload, KeyStep, Spec;
    var t := ToolSeq(c.flow(r));
    assert EntryOk(c, r, t);
    if c.db.steps[(r, t)].seededFrom.None? {
      var row :| row in c.sink && row.idemKey == ToolKey(c, r);
      var i :| 0 <= i < |c.sink| && c.sink[i] == row;
      ToolKeyOwner(c, i, r);
    }
    if row :| row in c.sink && row.runId == r {
      var i :| 0 <= i < |c.sink| && c.sink[i] == row;
      assert RowOk(c, i);
    }
  }

  /** The rows of any family of runs number its native side-effect entries plus the effects that
      have fired and are not journaled yet: a fork never adds a row by copying an entry. */
  lemma EffectsConserved(flow: RunId -> Flow, schedule: seq<Action>, family: set<RunId>)
    ensures var c := Exec(Init(flow), schedule).core;
      |Filter(c.sink, (row: EffectRow) => row.runId in family)|
        == |NativeToolRuns(c, family)| + |PendingRuns(c, family)|
  {
    hide CoreOk, Exec, Filter;
    Invariant(flow, schedule);
    var c := Exec(Init(flow), schedule).core;
    forall i, j | 0 <= i < j < |c.sink| ensures c.sink[i].runId != c.sink[j].runId {
      if c.sink[i].runId == c.sink[j].runId { RowsPerRun(c, i, j); }
    }
    RowsAreRuns(c.sink, family);
    var native, pending, fired := NativeToolRuns(c, family), PendingRuns(c, family), FiredRuns(c.sink, family);
    forall r ensures r in fired <==> r in native || r in pending {
      if (r, ToolSeq(c.flow(r))) in c.db.steps { NativeToolFired(c, r); }
    }
    assert fired == native + pending && native * pending == {};
  }

  // ---- Provenance ----

  predicate SameStep(e: Entry, e0: Entry)
  {
    e.seqNo == e0.seqNo && e.stepName == e0.stepName && e.kind == e0.kind && e.sideEffect == e0.sideEffect
    && e.output == e0.output && e.idemKey == e0.idemKey
  }

  lemma SeededStep(c: Core, r: RunId, k: nat)
    requires CoreOk(c) && (r, k) in c.db.steps && c.db.steps[(r, k)].seededFrom.Some?
    ensures r in c.db.metas && c.db.metas[r].parentRun == c.db.steps[(r, k)].seededFrom
    ensures var p := c.db.steps[(r, k)].seededFrom.value;
      (p, k) in c.db.steps && SameStep(c.db.steps[(r, k)], c.db.steps[(p, k)])
      && k <= c.db.metas[r].forkedAtSeq.value
  {
    hide RowsOk, KeysUnique, Forest, NativeOk;
    assert EntryOk(c, r, k);
    assert MetaOk(c, r);
    var p := c.db.metas[r].parentRun.value;
    assert (p, k) in c.db.steps;
    assert EntryOk(c, p, k);
  }

  /** Every entry, however many forks copied it, is the entry some ancestor produced itself. */
  lemma {:induction false} OriginRanked(c: Core, r: RunId, k: nat, rank: map<RunId, nat>) returns (n: nat, a: RunId)
    requires CoreOk(c) && Ranked(c.db.metas, rank) && (r, k) in c.db.steps
    ensures Up(c.db.metas, r, n) == Some(a)
    ensures (a, k) in c.db.steps && c.db.steps[(a, k)].seededFrom.None?
      && SameStep(c.db.steps[(r, k)], c.db.steps[(a, k)])
    ensures k <= Len(c.flow(a)) && 1 <= k && c.db.steps[(r, k)].idemKey == StepKey(c.flow(a), k, a)
    decreases if r in rank then rank[r] else 0
  {
    hide RowsOk, KeysUnique, Output, FitsTable;
    if c.db.steps[(r, k)].seededFrom.None? {
      assert EntryOk(c, r, k);
      StepHasMeta(c, r, k);
      n, a := 0, r;
    } else {
      SeededStep(c, r, k);
      assert Below(c.db.metas[r].parentRun, r, rank);
      n, a := OriginRanked(c, c.db.metas[r].parentRun.value, k, rank);
      n := n + 1;
    }
  }

  ghost predicate TracesToNative(c: Core, r: RunId, k: nat)
    requires (r, k) in c.db.steps
  {
    exists n: nat, a: RunId ::
      && Up(c.db.metas, r, n) == Some(a)
      && (a, k) in c.db.steps && c.db.steps[(a, k)].seededFrom.None? && SameStep(c.db.steps[(r, k)], c.db.steps[(a, k)])
      && 1 <= k <= Len(c.flow(a)) && c.db.steps[(r, k)].idemKey == StepKey(c.flow(a), k, a)
  }

  /** Even when forks and native starts of one target interleave between validation and seeding:
      parent pointers form a forest, a seeded entry names its run's parent, and it traces up the
      chain to one native entry with the same seq, name, output and key. */
  lemma Provenance(flow: RunId -> Flow, schedule: seq<Action>)
    ensures var c := Exec(Init(flow), schedule).core;
      && Forest(c.db)
      && (forall p | p in c.db.steps && c.db.steps[p].seededFrom.Some? ::
            p.0 in c.db.metas && c.db.metas[p.0].parentRun == c.db.steps[p].seededFrom)
      && (forall p | p in c.db.steps :: TracesToNative(c, p.0, p.1))
  {
    hide Exec, EntriesOk, MetasOk, RowsOk, KeysUnique, Ranked, TracesToNative;
    Invariant(flow, schedule);
    var c := Exec(Init(flow), schedule).core;
    var rank: map<RunId, nat> :| Ranked(c.db.metas, rank);
    forall p | p in c.db.steps
      ensures TracesToNative(c, p.0, p.1)
      ensures c.db.steps[p].seededFrom.Some?
        ==> p.0 in c.db.metas && c.db.metas[p.0].parentRun == c.db.steps[p].seededFrom
    {
      if c.db.steps[p].seededFrom.Some? { SeededStep(c, p.0, p.1); }
      TracesFrom(c, p.0, p.1, rank);
    }
  }

  lemma TracesFrom(c: Core, r: RunId, k: nat, rank: map<RunId, nat>)
    requires CoreOk(c) && Ranked(c.db.metas, rank) && (r, k) in c.db.steps
    ensures TracesToNative(c, r, k)
  {
    hide CoreOk, Ranked;
    var n, a := OriginRanked(c, r, k, rank);
  }

  // ---- A fork family shares its prefixes ----

  /** Seq k is at or before the fork point of each of the n hops up from r. */
  ghost predicate WithinForks(metas: map<RunId, RunMeta>, r: RunId, n: nat, k: nat)
    decreases n
  {
    n == 0 ||
    (r in metas && metas[r].parentRun.Some? && metas[r].forkedAtSeq.Some? && k <= metas[r].forkedAtSeq.value
     && WithinForks(metas, metas[r].parentRun.value, n - 1, k))
  }

  lemma ParentAgreement(c: Core, r: RunId, k: nat)
    requires CoreOk(c) && k >= 1 && r in c.db.metas && c.db.metas[r].parentRun.Some?
    requires c.db.metas[r].forkedAtSeq.Some? && k <= c.db.metas[r].forkedAtSeq.value
    ensures var p := c.db.metas[r].parentRun.value;
      (r, k) in c.db.steps && (p, k) in c.db.steps && SameStep(c.db.steps[(r, k)], c.db.steps[(p, k)])
  {
    hide RowsOk, KeysUnique, Forest, NativeOk, HasPrefix, KeyStep, NativeBeyond;
    assert MetaOk(c, r);
    var p := c.db.metas[r].parentRun.value;
    assert (p, k) in c.db.steps && (r, k) in c.db.steps;
    assert EntryOk(c, r, k) && EntryOk(c, p, k);
  }

  /** A descendant agrees with its ancestor on every seq up to the lowest fork point between them. */
  lemma {:induction false} AncestorAgreement(c: Core, r: RunId, n: nat, a: RunId, k: nat)
    requires CoreOk(c) && n >= 1 && k >= 1
    requires Up(c.db.metas, r, n) == Some(a) && WithinForks(c.db.metas, r, n, k)
    ensures (r, k) in c.db.steps && (a, k) in c.db.steps && SameStep(c.db.steps[(r, k)], c.db.steps[(a, k)])
    decreases n
  {
    hide CoreOk;
    ParentAgreement(c, r, k);
    var p := c.db.metas[r].parentRun.value;
    if n > 1 {
      AncestorAgreement(c, p, n - 1, a, k);
    } else {
      assert Up(c.db.metas, p, 0) == Some(p);
    }
  }

  /** Two runs of one forest agree on every seq within the fork points of both their paths to a
      common ancestor, now and under any continuation of the schedule. */
  lemma FamilyPrefix(flow: RunId -> Flow, schedule: seq<Action>, r1: RunId, n1: nat, r2: RunId, n2: nat, a: RunId,
                     k: nat)
    requires k >= 1 && (n1 >= 1 || n2 >= 1)
    requires var metas := Exec(Init(flow), schedule).core.db.metas;
      Up(metas, r1, n1) == Some(a) && Up(metas, r2, n2) == Some(a) && WithinForks(metas, r1, n1, k)
        && WithinForks(metas, r2, n2, k)
    ensures var steps := Exec(Init(flow), schedule).core.db.steps;
      (r1, k) in steps && (r2, k) in steps && SameStep(steps[(r1, k)], steps[(r2, k)])
    ensures forall more :: var later := Exec(Init(flow), schedule + more).core.db.steps;
      (r1, k) in later && (r2, k) in later && SameStep(later[(r1, k)], later[(r2, k)])
  {
    hide CoreOk, Exec, WithinForks;
    Invariant(flow, schedule);
    var s := Exec(Init(flow), schedule);
    if n1 >= 1 { AncestorAgreement(s.core, r1, n1, a, k); }
    if n2 >= 1 { AncestorAgreement(s.core, r2, n2, a, k); }
    forall more
      ensures var later := Exec(Init(flow), schedule + more).core.db.steps;
        (r1, k) in later && (r2, k) in later && SameStep(later[(r1, k)], later[(r2, k)])
    {
      ExecAppend(Init(flow), schedule, more);
      ScheduleSafe(s, more);
    }
  }

  // ---- Races that matter ----

  lemma KeysDistinctInRun(c: Core, r: RunId, j: nat, k: nat)
    requires EntriesOk(c) && (r, j) in c.db.steps && (r, k) in c.db.steps && j != k
    ensures c.db.steps[(r, j)].idemKey != c.db.steps[(r, k)].idemKey
  {
    hide EntryOk;
    SeqNoOf(c, r, j);
    SeqNoOf(c, r, k);
    StepNamesDistinct(c.flow(r), j, k);
  }

  lemma SeedingNeedsEmptyTarget(c: Core, db: Db, rows: seq<Entry>, src: RunId, dst: RunId, n: nat, now: string, k: nat)
    requires EntriesOk(c) && n >= 1 && RowsAre(c.db, src, n, rows) && db.steps == c.db.steps
    requires SeedSteps(db, rows, src, dst, now).Some?
    ensures (dst, k) !in c.db.steps
  {
    SeedStepsExact(db, rows, src, dst, now);
    hide EntryOk, SeedSteps;
    assert (src, 1) in c.db.steps;
    SeqNoOf(c, src, 1);
    assert (dst, rows[0].seqNo) !in db.steps;
    ForkTargetEmpty(c, dst, k);
  }

  lemma SeedingFitsEmptyTarget(c: Core, db: Db, rows: seq<Entry>, src: RunId, dst: RunId, n: nat, now: string)
    requires EntriesOk(c) && RowsAre(c.db, src, n, rows) && db.steps == c.db.steps
    requires forall k: nat :: (dst, k) !in c.db.steps
    ensures SeedSteps(db, rows, src, dst, now).Some?
  {
    hide EntryOk, SeedSteps;
    forall i, j | 0 <= i < j < |rows| ensures rows[i].seqNo != rows[j].seqNo && rows[i].idemKey != rows[j].idemKey {
      assert (src, i + 1) in c.db.steps && (src, j + 1) in c.db.steps;
      SeqNoOf(c, src, i + 1);
      SeqNoOf(c, src, j + 1);
      KeysDistinctInRun(c, src, i + 1, j + 1);
    }
    SeedStepsSucceeds(db, rows, src, dst, now);
  }

  /** A validated fork commits exactly when its target still has no entry: a native start that has
      journaled a step, or another fork, makes the transaction roll back. */
  lemma ForkCommitsExactly(c: Core, me: Forker, now: string)
    requires CoreOk(c) && ForkerOk(c, me) && me.Loaded?
    ensures CommitFork(c.db, me.rows, me.plan.sourceRunId, me.plan.newRunId, me.plan.throughSeq, me.plan.trajectory,
      now).Some?
      <==> forall k: nat :: (me.plan.newRunId, k) !in c.db.steps
  {
    hide EntriesOk, MetasOk, RowsOk, KeysUnique, Forest, IsSafe, SeedSteps, RowsAre;
    var src, dst, n, rows := me.plan.sourceRunId, me.plan.newRunId, me.plan.throughSeq, me.rows;
    var begun := c.db.(metas := c.db.metas[dst := RunMeta(dst, Some(src), Some(n), me.plan.trajectory, now)]);
    if SeedSteps(begun, rows, src, dst, now).Some? {
      forall k: nat ensures (dst, k) !in c.db.steps { SeedingNeedsEmptyTarget(c, begun, rows, src, dst, n, now, k); }
    }
    if forall k: nat :: (dst, k) !in c.db.steps { SeedingFitsEmptyTarget(c, begun, rows, src, dst, n, now); }
  }

  /** The insert of recordStep fails exactly when another process journaled the same seq first: the
      (run_id, idem_key) index alone never refuses it. */
  lemma InsertLosesExactly(c: Core, w: Worker, now: string)
    requires CoreOk(c) && WorkerOk(c, w) && w.pc.Produced?
    ensures 1 <= Next(w) <= Len(c.flow(w.run))
    ensures InsertStep(c.db, NewEntry(c, w.run, Next(w), w.pc.value, now)).None? <==> (w.run, Next(w)) in c.db.steps
  {
    hide EntryOk, MetasOk, RowsOk, KeysUnique, Forest, Output, Outs, HasPrefix, IsSafe;
    ProducedMayInsert(c, w);
    var r, k := w.run, Next(w);
    var e := NewEntry(c, r, k, w.pc.value, now);
    NewEntryFits(c, r, k, w.pc.value, now);
    forall p | p in c.db.steps && p.0 == r && p.1 != k ensures c.db.steps[p].idemKey != e.idemKey {
      SeqNoOf(c, r, p.1);
      StepNamesDistinct(c.flow(r), k, p.1);
    }
  }
}
