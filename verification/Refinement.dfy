/** A completed run, whatever happened on the way, is the run one handler makes alone without a crash. */
module Refinement {
  import opened EffectSink
  import opened Idempotency
  import opened Journal
  import opened Json
  import opened Lineage
  import opened Ordering
  import opened Protocol
  import opened ProtocolInvariant
  import opened ProtocolSafety
  import opened ProtocolTheorems
  import opened ProtocolWrites
  import opened StepModel
  import opened Workflow
  import opened Wrappers

  /** How many entries a fork seeded into the run. */
  function SeededLen(db: Db, r: RunId): nat
  {
    if r in db.metas && db.metas[r].forkedAtSeq.Some? then db.metas[r].forkedAtSeq.value else 0
  }

  /** The journal as the run's first handler found it: nothing of the run but what a fork seeded. */
  function StartOf(db: Db, r: RunId): Db
  {
    Db(map p | p in db.steps && p.0 == r && p.1 <= SeededLen(db, r) :: db.steps[p], db.metas)
  }

  predicate FiresEffect(c: Core, r: RunId) { SeededLen(c.db, r) < ToolSeq(c.flow(r)) }

  /** The place of the run's effect row in the log. */
  function RowIndex(c: Core, r: RunId): nat { IndexOf(c.sink, ToolKey(c, r)) }

  /** The effect log around the run's own effect, with k of the run's steps done: the rows before it, and
      a counter whose next id is the row's. */
  function LogAt(c: Core, r: RunId, k: nat, now: string, pid: nat): EffectLog
    requires RowIndex(c, r) < |c.sink|
  {
    var i := RowIndex(c, r);
    var row := c.sink[i];
    if k < ToolSeq(c.flow(r)) then EffectLog(c.sink[..i], if row.id == 0 then 0 else row.id - 1)
    else EffectLog(c.sink[..i] + [row.(firedAt := now, pid := pid)], row.id)
  }

  predicate SameRow(e: Entry, e0: Entry) { e == e0.(recordedAt := e.recordedAt) }

  /** db holds the run's steps 1..n as c does, up to the time they were recorded. */
  ghost predicate Mirrors(db: Db, c: Core, r: RunId, n: nat)
  {
    && (forall k: nat :: (r, k) in db.steps <==> 1 <= k <= n)
    && (forall k: nat | 1 <= k <= n :: (r, k) in c.db.steps && SameRow(db.steps[(r, k)], c.db.steps[(r, k)]))
  }

  function Max(a: nat, b: nat): nat { if a < b then b else a }

  lemma SafeRun(c: Core, r: RunId, k: nat)
    requires EntriesOk(c) && (r, k) in c.db.steps
    ensures IsSafe(r) && 1 <= k <= Len(c.flow(r))
      && DeriveKey(r, Spec(c.flow(r), k).name) == Ok(StepKey(c.flow(r), k, r))
  {
    hide IsSafe, NativeOk, Spec, ColonFree;
    assert EntryOk(c, r, k);
    StepNameSafe(c.flow(r), k);
    DeriveSafe(r, Spec(c.flow(r), k).name);
  }

  lemma NativeAfterSeeds(c: Core, r: RunId, k: nat)
    requires CoreOk(c) && (r, k) in c.db.steps && k > SeededLen(c.db, r)
    ensures 1 <= k <= Len(c.flow(r)) && c.db.steps[(r, k)].seededFrom.None? && NativeOk(c, r, k)
  {
    hide NativeOk, RowsOk, KeysUnique, Forest;
    assert EntryOk(c, r, k);
    assert MetaOk(c, r);
  }

  lemma RunRow(c: Core, r: RunId)
    requires CoreOk(c) && HasRow(c.sink, ToolKey(c, r)) && IsSafe(r)
    ensures var i := RowIndex(c, r);
      i < |c.sink| && c.sink[i].id >= 1 && RowOk(c, i) && c.sink[i].runId == r && c.sink[i].idemKey == ToolKey(c, r)
  {
    hide EntriesOk, MetasOk, Forest, RowOk, IsSafe;
    var row :| row in c.sink && row.idemKey == ToolKey(c, r);
    var i :| 0 <= i < |c.sink| && c.sink[i] == row;
    IndexOfAt(c.sink, i);
    assert RowOk(c, i);
    ToolKeyOwner(c, i, r);
  }

  // ---- One step of the lone handler ----

  lemma InsertMirrors(c: Core, r: RunId, k: nat, db: Db, e: Entry)
    requires EntriesOk(c) && (r, k) in c.db.steps && Mirrors(db, c, r, k - 1) && k >= 1
    requires SameRow(e, c.db.steps[(r, k)])
    ensures e.runId == r && e.seqNo == k && InsertStep(db, e).Some? && Mirrors(InsertStep(db, e).value, c, r, k)
  {
    hide EntryOk;
    RowIdentity(c, r, k);
    forall p | p in db.steps && p.0 == r ensures db.steps[p].idemKey != e.idemKey {
      var j := p.1;
      assert (r, j) in c.db.steps && SameRow(db.steps[(r, j)], c.db.steps[(r, j)]);
      KeysDistinctInRun(c, r, j, k);
    }
  }

  lemma RowIdentity(c: Core, r: RunId, k: nat)
    requires EntriesOk(c) && (r, k) in c.db.steps
    ensures c.db.steps[(r, k)].runId == r && c.db.steps[(r, k)].seqNo == k
  {
    assert EntryOk(c, r, k);
  }

  lemma NativeRow(c: Core, r: RunId, k: nat, now: string)
    requires EntriesOk(c) && (r, k) in c.db.steps && 1 <= k <= Len(c.flow(r)) && NativeOk(c, r, k)
    requires c.db.steps[(r, k)].seededFrom.None?
    ensures SameRow(NativeEntry(ArgsOf(c.flow(r), k, r), StepKey(c.flow(r), k, r), OutAt(c.db, r, k), now),
      c.db.steps[(r, k)])
  {
    hide Output, Sourced, Outs, ChoiceOf, HasPrefix, KeyStep, IsSafe;
    assert EntryOk(c, r, k);
  }

  lemma PrefixHasNoKey(sink: seq<EffectRow>, i: nat)
    requires KeysUnique(sink) && i < |sink|
    ensures !HasRow(sink[..i], sink[i].idemKey)
  {
    assert forall j | 0 <= j < i :: sink[..i][j].idemKey != sink[i].idemKey;
  }

  /** Firing alone appends the very row the log holds, up to its time and process. */
  lemma FireAlone(c: Core, r: RunId, now: string, pid: nat)
    requires CoreOk(c) && IsSafe(r) && r in c.inputs && HasRow(c.sink, ToolKey(c, r))
    ensures RowIndex(c, r) < |c.sink|
    ensures var t := ToolSeq(c.flow(r));
      var e := EffectOf(c.flow(r), r, c.inputs[r], ToolKey(c, r), Outs(c.db, r, t - 1));
      Fire(LogAt(c, r, t - 1, now, pid), e, now, pid) == LogAt(c, r, t, now, pid)
      && RowId(LogAt(c, r, t, now, pid).rows, ToolKey(c, r)) == RowId(c.sink, ToolKey(c, r))
  {
    hide EntriesOk, MetasOk, Forest, IsSafe, Payload, HasRow, HasPrefix;
    RunRow(c, r);
    var i := RowIndex(c, r);
    PrefixHasNoKey(c.sink, i);
    var t := ToolSeq(c.flow(r));
    var log := LogAt(c, r, t, now, pid).rows;
    assert LogAt(c, r, t - 1, now, pid) == EffectLog(c.sink[..i], c.sink[i].id - 1);
    assert log[i].idemKey == ToolKey(c, r) && log[i].id == c.sink[i].id;
    assert KeysUnique(log) by {
      forall a, b | 0 <= a < b < |log| ensures log[a].idemKey != log[b].idemKey {
        assert c.sink[a].idemKey != c.sink[b].idemKey;
      }
    }
    RowIdAt(log, i);
    RowIdAt(c.sink, i);
  }

  /** A step past the seeded ones, made alone, records what the concurrent run recorded. */
  lemma StepAlone(c: Core, r: RunId, k: nat, db: Db, log: EffectLog, log': EffectLog, now: string, pid: nat)
    requires CoreOk(c) && (r, k) in c.db.steps && k > SeededLen(c.db, r) && Mirrors(db, c, r, k - 1)
    requires 1 <= k <= Len(c.flow(r)) && r in c.inputs
    requires k == ToolSeq(c.flow(r)) ==>
      log' == Fire(log, EffectOf(c.flow(r), r, c.inputs[r], ToolKey(c, r), Outs(c.db, r, k - 1)), now, pid)
      && RowId(log'.rows, ToolKey(c, r)) == RowId(c.sink, ToolKey(c, r))
    requires k != ToolSeq(c.flow(r)) ==> log' == log
    ensures var o := StepOnce(db, log, c.flow(r), k, r, c.inputs[r], Outs(c.db, r, k - 1),
                              ChoiceOf(c, r).plan, ChoiceOf(c, r).decision, now, pid);
      o.log == log' && o.value == Ok(OutAt(c.db, r, k)) && Mirrors(o.db, c, r, k)
  {
    hide EntriesOk, MetasOk, RowsOk, KeysUnique, Forest, Output, Fire;
    hide RowId, EffectOf, InsertStep, NativeEntry, DeriveKey, IsSafe, Sourced;
    var f, key, vals := c.flow(r), StepKey(c.flow(r), k, r), Outs(c.db, r, k - 1);
    SafeRun(c, r, k);
    NativeAfterSeeds(c, r, k);
    NativeRow(c, r, k, now);
    InsertMirrors(c, r, k, db, NativeEntry(ArgsOf(f, k, r), key, OutAt(c.db, r, k), now));
    var alone := Choice(ChoiceOf(c, r).plan, ChoiceOf(c, r).decision, RowId(log'.rows, key));
    OutputDepends(f, k, c.inputs[r], vals, alone, ChoiceOf(c, r));
    hide Mirrors;
  }

  lemma StepSeeded(c: Core, r: RunId, k: nat, n: nat, db: Db, log: EffectLog, vals: seq<Json>,
                   plan: string, decision: string, now: string, pid: nat)
    requires EntriesOk(c) && (r, k) in c.db.steps && k <= n && Mirrors(db, c, r, n)
    requires 1 <= k <= Len(c.flow(r)) && r in c.inputs && |vals| >= k - 1
    ensures StepOnce(db, log, c.flow(r), k, r, c.inputs[r], vals, plan, decision, now, pid)
      == Outcome(db, log, Ok(OutAt(c.db, r, k)))
  {
    hide EntryOk, Output, Fire, RowId, EffectOf, InsertStep, DeriveKey, IsSafe;
    SafeRun(c, r, k);
  }

  // ---- The whole run ----

  /** The lone run's effect log with k steps done. */
  function AloneLog(c: Core, r: RunId, k: nat, now: string, pid: nat): EffectLog
  {
    if FiresEffect(c, r) && RowIndex(c, r) < |c.sink| then LogAt(c, r, k, now, pid) else LogOf(c)
  }

  ghost predicate Complete(c: Core, r: RunId)
  {
    CoreOk(c) && r in c.inputs && HasPrefix(c.db, r, Len(c.flow(r)))
  }

  lemma ToolRowOf(c: Core, r: RunId)
    requires Complete(c, r) && FiresEffect(c, r)
    ensures HasRow(c.sink, ToolKey(c, r)) && IsSafe(r) && RowIndex(c, r) < |c.sink|
  {
    hide Output, EntriesOk, MetasOk, RowsOk, KeysUnique, Forest, HasRow, RowId, IsSafe;
    var t := ToolSeq(c.flow(r));
    assert (r, t) in c.db.steps;
    NativeAfterSeeds(c, r, t);
    SafeRun(c, r, t);
    RunRow(c, r);
  }

  lemma OneStep(c: Core, r: RunId, k: nat, db: Db, now: string, pid: nat)
    requires Complete(c, r) && 1 <= k <= Len(c.flow(r)) && Mirrors(db, c, r, Max(SeededLen(c.db, r), k - 1))
    ensures var o := StepOnce(db, AloneLog(c, r, k - 1, now, pid), c.flow(r), k, r, c.inputs[r], Outs(c.db, r, k - 1),
                              ChoiceOf(c, r).plan, ChoiceOf(c, r).decision, now, pid);
      o.log == AloneLog(c, r, k, now, pid) && o.value == Ok(OutAt(c.db, r, k))
        && Mirrors(o.db, c, r, Max(SeededLen(c.db, r), k))
  {
    hide StepOnce, Mirrors, EntriesOk, MetasOk, RowsOk, KeysUnique, Forest, Output;
    hide Fire, RowId, EffectOf, HasRow, IsSafe, OutAt, RowIndex;
    var m, t := SeededLen(c.db, r), ToolSeq(c.flow(r));
    assert (r, k) in c.db.steps;
    if FiresEffect(c, r) { ToolRowOf(c, r); }
    if k <= m {
      StepSeeded(c, r, k, m, db, AloneLog(c, r, k - 1, now, pid), Outs(c.db, r, k - 1),
                 ChoiceOf(c, r).plan, ChoiceOf(c, r).decision, now, pid);
    } else {
      if k == t { FireAlone(c, r, now, pid); }
      StepAlone(c, r, k, db, AloneLog(c, r, k - 1, now, pid), AloneLog(c, r, k, now, pid), now, pid);
    }
  }

  lemma {:induction false} RunAlone(c: Core, r: RunId, k: nat, db: Db, now: string, pid: nat)
    requires Complete(c, r) && k <= Len(c.flow(r)) && Mirrors(db, c, r, Max(SeededLen(c.db, r), k))
    ensures var o := RunFrom(db, AloneLog(c, r, k, now, pid), c.flow(r), r, c.inputs[r], Outs(c.db, r, k),
                             ChoiceOf(c, r).plan, ChoiceOf(c, r).decision, now, pid);
      && o.outputs == Ok(Outs(c.db, r, Len(c.flow(r))))
      && o.log == AloneLog(c, r, Len(c.flow(r)), now, pid)
      && Mirrors(o.db, c, r, Max(SeededLen(c.db, r), Len(c.flow(r))))
    decreases Len(c.flow(r)) - k
  {
    hide StepOnce, Mirrors, CoreOk, HasPrefix, AloneLog, ChoiceOf, Spec, OutAt;
    if k < Len(c.flow(r)) {
      OneStep(c, r, k + 1, db, now, pid);
      var o := StepOnce(db, AloneLog(c, r, k, now, pid), c.flow(r), k + 1, r, c.inputs[r], Outs(c.db, r, k),
                        ChoiceOf(c, r).plan, ChoiceOf(c, r).decision, now, pid);
      RunAlone(c, r, k + 1, o.db, now, pid);
      assert Outs(c.db, r, k + 1) == Outs(c.db, r, k) + [OutAt(c.db, r, k + 1)];
    }
  }

  lemma SeededWithinTable(c: Core, r: RunId)
    requires CoreOk(c) && r in c.db.metas
    ensures SeededLen(c.db, r) <= Len(c.flow(r)) && HasPrefix(c.db, r, SeededLen(c.db, r))
  {
    hide EntryOk, RowsOk, KeysUnique, Forest;
    assert MetaOk(c, r);
    var m := SeededLen(c.db, r);
    if m > 0 {
      assert (r, m) in c.db.steps;
      StepHasMeta(c, r, m);
    }
  }

  lemma StartMirrors(c: Core, r: RunId)
    requires CoreOk(c) && r in c.db.metas
    ensures Mirrors(StartOf(c.db, r), c, r, SeededLen(c.db, r))
  {
    hide EntryOk, MetasOk, RowsOk, KeysUnique, Forest;
    SeededWithinTable(c, r);
    var m := SeededLen(c.db, r);
    forall k: nat ensures (r, k) in StartOf(c.db, r).steps <==> 1 <= k <= m {
      if (r, k) in c.db.steps { StepHasMeta(c, r, k); }
    }
  }

  /** The run's effects, leaving out when and where they were fired. */
  predicate SameEffects(a: seq<EffectRow>, b: seq<EffectRow>)
  {
    |a| == |b| && forall i | 0 <= i < |a| :: a[i] == b[i].(firedAt := a[i].firedAt, pid := a[i].pid)
  }

  lemma {:induction false} OnlyRow(sink: seq<EffectRow>, r: RunId, i: nat)
    requires i < |sink| && sink[i].runId == r && forall j | 0 <= j < |sink| && j != i :: sink[j].runId != r
    ensures EffectsFor(sink, r) == [sink[i]]
  {
    var keep := (row: EffectRow) => row.runId == r;
    FilterNone(sink[..i], keep);
    FilterNone(sink[i + 1..], keep);
    FilterAppend(sink[..i], [sink[i]], keep);
    FilterAppend(sink[..i] + [sink[i]], sink[i + 1..], keep);
    assert sink[..i] + [sink[i]] + sink[i + 1..] == sink;
    FilterAll([sink[i]], keep);
  }

  lemma EffectsAlone(c: Core, r: RunId, now: string, pid: nat)
    requires Complete(c, r)
    ensures SameEffects(EffectsFor(AloneLog(c, r, Len(c.flow(r)), now, pid).rows, r), EffectsFor(c.sink, r))
  {
    hide EntriesOk, MetasOk, RowsOk, KeysUnique, Forest, EffectsFor, RowId, RowOk, IsSafe, HasRow;
    if FiresEffect(c, r) {
      ToolRowOf(c, r);
      RunRow(c, r);
      var i := RowIndex(c, r);
      var log := AloneLog(c, r, Len(c.flow(r)), now, pid).rows;
      forall j | 0 <= j < |c.sink| && j != i ensures c.sink[j].runId != r {
        if c.sink[j].runId == r { RowsPerRun(c, i, j); }
      }
      assert log[i].runId == r && forall j | 0 <= j < i :: log[j] == c.sink[j];
      OnlyRow(c.sink, r, i);
      OnlyRow(log, r, i);
    }
  }

  /** The log the lone run starts on is one the effect log can be in. */
  lemma AloneLogValid(c: Core, r: RunId, now: string, pid: nat)
    requires Complete(c, r)
    ensures var log := AloneLog(c, r, 0, now, pid); KeysUnique(log.rows) && IdsOk(log)
  {
    hide EntriesOk, MetasOk, RowsOk, Forest, RowId, RowOk, IsSafe, HasRow;
    if FiresEffect(c, r) {
      ToolRowOf(c, r);
      RunRow(c, r);
      var i := RowIndex(c, r);
      var before := c.sink[..i];
      forall a, b | 0 <= a < b < i ensures before[a].idemKey != before[b].idemKey && before[a].id < before[b].id {
        assert c.sink[a].idemKey != c.sink[b].idemKey;
      }
      forall a | 0 <= a < i ensures 1 <= before[a].id < c.sink[i].id { assert c.sink[a].id < c.sink[i].id; }
    }
  }

  /** Crash refinement: under every schedule, a run that returned has the journal, the effects and
      the answer of a crash-free run by one handler, started on what a fork seeded and given the
      first recorded plan, the resolved decision and the same place in the effect log; only
      times and process ids may differ. */
  lemma CrashRefinement(flow: RunId -> Flow, schedule: seq<Action>, x: Returned, now: string, pid: nat)
    requires x in Exec(Init(flow), schedule).returned
    ensures var c, r := Exec(Init(flow), schedule).core, x.run;
      && r in c.inputs
      && KeysUnique(AloneLog(c, r, 0, now, pid).rows) && IdsOk(AloneLog(c, r, 0, now, pid))
      && var o := RunFrom(EnsureMeta(StartOf(c.db, r), r, Label(c.inputs[r]), now), AloneLog(c, r, 0, now, pid),
         flow(r), r, c.inputs[r], [], ChoiceOf(c, r).plan, ChoiceOf(c, r).decision, now, pid);
      && o.outputs == Ok(x.vals)
      && Mirrors(o.db, c, r, Len(flow(r)))
      && SameEffects(EffectsFor(o.log.rows, r), EffectsFor(c.sink, r))
  {
    hide Exec, CoreOk, Mirrors, RunFrom, AloneLog, ChoiceOf, EffectsFor, WorkerOk, ForkerOk, LogOk, AcceptedOk;
    Invariant(flow, schedule);
    FlowFixed(flow, schedule);
    var c, r := Exec(Init(flow), schedule).core, x.run;
    assert ReturnedOk(c, x);
    SeededWithinTable(c, r);
    StartMirrors(c, r);
    RunAlone(c, r, 0, StartOf(c.db, r), now, pid);
    assert Outs(c.db, r, 0) == [];
    EffectsAlone(c, r, now, pid);
    AloneLogValid(c, r, now, pid);
  }
}
