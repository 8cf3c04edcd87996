/** Every write to the durable state preserves the invariant and only grows the state. */
module ProtocolWrites {
  import opened EffectSink
  import opened Idempotency
  import opened Journal
  import opened Json
  import opened Lineage
  import opened Ordering
  import opened Protocol
  import opened ProtocolInvariant
  import opened StepModel
  import opened Workflow
  import opened Wrappers

  // ---- Workflow submission and promise resolution ----

  lemma SubmitPreserves(c: Core, r: RunId, input: WorkflowInput)
    requires CoreOk(c)
    ensures var c' := CoreSubmit(c, r, input); CoreOk(c') && Grows(c, c')
  {
    hide EntryOk, MetaOk, RowOk;
    CorePreserved(c, CoreSubmit(c, r, input));
  }

  lemma ResolvePreserves(c: Core, call: Call)
    requires CoreOk(c)
    ensures var c' := CoreResolve(c, call); CoreOk(c') && Grows(c, c')
  {
    hide EntryOk, MetaOk, RowOk;
    CorePreserved(c, CoreResolve(c, call));
  }

  // ---- ensureRunMeta ----

  lemma StepHasMeta(c: Core, r: RunId, k: nat)
    requires EntriesOk(c) && (r, k) in c.db.steps
    ensures r in c.db.metas && 1 <= k <= Len(c.flow(r)) && HasPrefix(c.db, r, k)
  {
    assert EntryOk(c, r, k);
  }

  lemma RootKeepsForest(db: Db, r: RunId, m: RunMeta)
    requires Forest(db) && r !in db.metas && m.parentRun.None?
    ensures Forest(Db(db.steps, db.metas[r := m]))
  {
    var rank: map<RunId, nat> :| Ranked(db.metas, rank);
    var rank' := if r in rank then rank else rank[r := 0];
    var metas' := db.metas[r := m];
    forall x | x in metas' ensures Below(metas'[x].parentRun, x, rank') {
      if x != r { assert Below(db.metas[x].parentRun, x, rank); }
    }
    assert Ranked(metas', rank');
  }

  lemma EnsureGrows(c: Core, r: RunId, now: string)
    requires EntriesOk(c) && r in c.inputs
    ensures Grows(c, CoreEnsure(c, r, now))
  {
    hide EntryOk;
    var c' := CoreEnsure(c, r, now);
    forall x | (x, 1) in c.db.steps ensures x in c.db.metas && c'.db.metas[x] == c.db.metas[x] {
      StepHasMeta(c, x, 1);
    }
  }

  lemma NewRootOk(c: Core, r: RunId, now: string)
    requires EntriesOk(c) && r in c.inputs && r !in c.db.metas
    ensures MetaOk(CoreEnsure(c, r, now), r)
  {
    hide EntryOk;
    forall k: nat | (r, k) in c.db.steps ensures false { StepHasMeta(c, r, k); }
  }

  lemma EnsurePreserves(c: Core, r: RunId, now: string)
    requires CoreOk(c) && r in c.inputs
    ensures var c' := CoreEnsure(c, r, now); CoreOk(c') && Grows(c, c') && r in c'.db.metas
  {
    var c' := CoreEnsure(c, r, now);
    EnsureGrows(c, r, now);
    if r !in c.db.metas {
      NewRootOk(c, r, now);
      RootKeepsForest(c.db, r, c'.db.metas[r]);
    }
    hide EntryOk, MetaOk, RowOk, Ranked, Grows;
    CorePreserved(c, c');
  }

  // ---- fireEffect ----

  /** A worker may fire the tool of run r: everything before the tool step is journaled, and the
      tool step is not a seeded one. */
  ghost predicate MayFire(c: Core, r: RunId, vals: seq<Json>)
  {
    var t := ToolSeq(c.flow(r));
    && r in c.inputs && IsSafe(r)
    && |vals| == t - 1 && HasPrefix(c.db, r, t - 1) && vals == Outs(c.db, r, t - 1)
    && NativeIfPresent(c.db, r, t)
  }

  lemma FiredRowOk(c: Core, r: RunId, vals: seq<Json>, now: string, pid: nat)
    requires MayFire(c, r, vals) && !HasRow(c.sink, ToolKey(c, r))
    ensures var c' := CoreFire(c, r, vals, now, pid);
      |c'.sink| == |c.sink| + 1 && c.sink <= c'.sink && RowOk(c', |c.sink|)
  {
    hide Payload;
  }

  lemma FirePreserves(c: Core, r: RunId, vals: seq<Json>, now: string, pid: nat)
    requires CoreOk(c) && MayFire(c, r, vals)
    ensures var c' := CoreFire(c, r, vals, now, pid);
      CoreOk(c') && Grows(c, c') && HasRow(c'.sink, ToolKey(c, r))
  {
    hide EntryOk, MetaOk, RowOk, EntriesOk, MetasOk, RowsOk, NewRow, Forest, Payload, Spec, Outs;
    var c' := CoreFire(c, r, vals, now, pid);
    var e := EffectOf(c.flow(r), r, c.inputs[r], ToolKey(c, r), vals);
    FireOnce(LogOf(c), e, e, now, now, pid, pid);
    FireKeepsIds(LogOf(c), e, now, pid);
    if !HasRow(c.sink, ToolKey(c, r)) { FiredRowOk(c, r, vals, now, pid); }
    CorePreserved(c, c');
  }

  // ---- The insert of recordStep ----

  /** A worker holds a value that may become the native entry (r, k). */
  ghost predicate MayInsert(c: Core, r: RunId, k: nat, v: Json)
  {
    && 1 <= k <= Len(c.flow(r))
    && r in c.inputs && IsSafe(r) && r in c.db.metas
    && HasPrefix(c.db, r, k - 1)
    && Sourced(c, r, k)
    && v == Output(c.flow(r), k, c.inputs[r], Outs(c.db, r, k - 1), ChoiceOf(c, r).(plan := AsText(v)))
  }

  lemma NewEntryFits(c: Core, r: RunId, k: nat, v: Json, now: string)
    requires 1 <= k <= Len(c.flow(r))
    ensures FitsTable(NewEntry(c, r, k, v, now), c.flow(r), r, k)
  {
    StepNameSafe(c.flow(r), k);
    KeyStepOf(r, Spec(c.flow(r), k).name);
    hide Spec, Table, KeyStep;
    assert StepKey(c.flow(r), k, r)[|r|] == ':';
  }

  lemma InsertGrows(c: Core, c': Core, e: Entry)
    requires InsertStep(c.db, e).Some? && e.seededFrom.None?
    requires c' == c.(db := InsertStep(c.db, e).value)
    ensures Grows(c, c')
    ensures forall r :: NewNative(c.db, c'.db, r)
  {
    hide KeyTaken;
  }

  lemma InsertedNative(c: Core, c': Core, r: RunId, k: nat, v: Json, now: string)
    requires MayInsert(c, r, k, v) && InsertStep(c.db, NewEntry(c, r, k, v, now)).Some?
    requires c' == c.(db := InsertStep(c.db, NewEntry(c, r, k, v, now)).value)
    ensures (r, k) in c'.db.steps && NativeOk(c', r, k)
  {
    hide KeyTaken, Output, RowId, HasRow;
    OutsKept(c.db, c'.db, r, k - 1);
    var choice := ChoiceOf(c, r).(plan := AsText(v));
    if k > 1 { assert (r, 1) in c.db.steps; }
    assert k == 1 ==> OutAt(c'.db, r, 1) == v;
    OutputDepends(c.flow(r), k, c.inputs[r], Outs(c.db, r, k - 1), choice, ChoiceOf(c', r));
  }

  lemma InsertedEntryOk(c: Core, c': Core, r: RunId, k: nat, v: Json, now: string)
    requires MayInsert(c, r, k, v) && InsertStep(c.db, NewEntry(c, r, k, v, now)).Some?
    requires c' == c.(db := InsertStep(c.db, NewEntry(c, r, k, v, now)).value)
    ensures (r, k) in c'.db.steps && EntryOk(c', r, k) && OutAt(c'.db, r, k) == v
  {
    hide NativeOk, FitsTable, KeyTaken, Output;
    InsertedNative(c, c', r, k, v, now);
    NewEntryFits(c, r, k, v, now);
  }

  lemma InsertPreserves(c: Core, r: RunId, k: nat, v: Json, now: string)
    requires CoreOk(c) && MayInsert(c, r, k, v) && InsertStep(c.db, NewEntry(c, r, k, v, now)).Some?
    ensures var c' := c.(db := InsertStep(c.db, NewEntry(c, r, k, v, now)).value);
      CoreOk(c') && Grows(c, c') && (r, k) in c'.db.steps && OutAt(c'.db, r, k) == v
  {
    hide EntryOk, MetaOk, RowOk, EntriesOk, MetasOk, RowsOk, Grows, NewNative;
    hide KeyTaken, KeysUnique, Ranked, OutAt, Output, Outs, ChoiceOf, Sourced;
    var e := NewEntry(c, r, k, v, now);
    var c' := c.(db := InsertStep(c.db, e).value);
    InsertGrows(c, c', e);
    InsertedEntryOk(c, c', r, k, v, now);
    assert c'.db.metas == c.db.metas && c'.sink == c.sink;
    assert forall p | p in c'.db.steps && p !in c.db.steps :: p == (r, k);
    CorePreserved(c, c');
  }

  // ---- The seeding transaction of forkRun ----

  /** A fork that validated once: its plan stays good for its source, whatever happens to its target. */
  ghost predicate PlanOk(c: Core, plan: ForkPlan)
  {
    && plan.sourceRunId != plan.newRunId && IsSafe(plan.newRunId)
    && plan.throughSeq >= 1 && (plan.sourceRunId, plan.throughSeq) in c.db.steps
    && c.flow(plan.sourceRunId) == c.flow(plan.newRunId)
  }

  ghost predicate RowsAre(db: Db, src: RunId, n: nat, rows: seq<Entry>)
  {
    |rows| == n && forall k: nat | 1 <= k <= n :: (src, k) in db.steps && rows[k - 1] == db.steps[(src, k)]
  }

  /** A committed fork, described without the loop that wrote it. */
  ghost predicate Forked(db: Db, db': Db, src: RunId, dst: RunId, n: nat, trajectory: string, now: string)
  {
    && db'.metas == db.metas[dst := RunMeta(dst, Some(src), Some(n), trajectory, now)]
    && Kept(db.steps, db'.steps)
    && (forall k: nat | 1 <= k <= n :: (src, k) in db.steps && (dst, k) !in db.steps)
    && (forall k: nat | 1 <= k <= n ::
          (dst, k) in db'.steps && db'.steps[(dst, k)] == Seeded(db.steps[(src, k)], src, dst, now))
    && (forall p | p in db'.steps && p !in db.steps :: p.0 == dst && 1 <= p.1 <= n)
  }

  lemma CommitForkForks(db: Db, rows: seq<Entry>, src: RunId, dst: RunId, n: nat, trajectory: string, now: string)
    requires RowsAre(db, src, n, rows)
    requires forall k: nat | 1 <= k <= n :: (src, k) in db.steps && db.steps[(src, k)].seqNo == k
    requires CommitFork(db, rows, src, dst, n, trajectory, now).Some?
    ensures Forked(db, CommitFork(db, rows, src, dst, n, trajectory, now).value, src, dst, n, trajectory, now)
  {
    var begun := db.(metas := db.metas[dst := RunMeta(dst, Some(src), Some(n), trajectory, now)]);
    SeedStepsExact(begun, rows, src, dst, now);
    hide SeedSteps, Seeded;
    var db' := CommitFork(db, rows, src, dst, n, trajectory, now).value;
    assert db' == SeedSteps(begun, rows, src, dst, now).value;
    forall i | 0 <= i < |rows|
      ensures rows[i].seqNo == i + 1 && (src, i + 1) in db.steps && rows[i] == db.steps[(src, i + 1)] {
      assert (src, i + 1) in db.steps;
    }
    hide RowsAre, CommitFork;
    SeededAt(db, db', rows, src, dst, n, now);
  }

  lemma SeededAt(db: Db, db': Db, rows: seq<Entry>, src: RunId, dst: RunId, n: nat, now: string)
    requires |rows| == n
    requires forall i | 0 <= i < n ::
      rows[i].seqNo == i + 1 && (src, i + 1) in db.steps && rows[i] == db.steps[(src, i + 1)]
    requires forall i | 0 <= i < n :: (dst, rows[i].seqNo) !in db.steps
    requires forall i | 0 <= i < n ::
      (dst, rows[i].seqNo) in db'.steps && db'.steps[(dst, rows[i].seqNo)] == Seeded(rows[i], src, dst, now)
    requires forall p | p in db'.steps && p !in db.steps :: p.0 == dst && exists i | 0 <= i < n :: rows[i].seqNo == p.1
    ensures forall k: nat | 1 <= k <= n :: (src, k) in db.steps && (dst, k) !in db.steps
    ensures forall k: nat | 1 <= k <= n ::
      (dst, k) in db'.steps && db'.steps[(dst, k)] == Seeded(db.steps[(src, k)], src, dst, now)
    ensures forall p | p in db'.steps && p !in db.steps :: p.0 == dst && 1 <= p.1 <= n
  {
    hide Seeded;
    forall k: nat | 1 <= k <= n
      ensures (src, k) in db.steps && (dst, k) !in db.steps
      ensures (dst, k) in db'.steps && db'.steps[(dst, k)] == Seeded(db.steps[(src, k)], src, dst, now)
    {
      assert rows[k - 1].seqNo == k;
    }
  }

  /** A target a fork can commit to has no entry at all, so it is nobody's parent. */
  lemma ForkTargetEmpty(c: Core, dst: RunId, k: nat)
    requires EntriesOk(c) && (dst, 1) !in c.db.steps
    ensures (dst, k) !in c.db.steps
  {
    if (dst, k) in c.db.steps { StepHasMeta(c, dst, k); }
  }

  lemma EmptyRunHasNoFork(c: Core, dst: RunId, r: RunId)
    requires MetasOk(c) && (dst, 1) !in c.db.steps && r in c.db.metas
    ensures c.db.metas[r].parentRun != Some(dst)
  {
    assert MetaOk(c, r);
  }

  lemma ForkKeepsForest(c: Core, src: RunId, dst: RunId, m: RunMeta)
    requires MetasOk(c) && Forest(c.db) && (dst, 1) !in c.db.steps
    requires src in c.db.metas && src != dst && m.parentRun == Some(src)
    ensures Forest(Db(c.db.steps, c.db.metas[dst := m]))
  {
    var metas := c.db.metas;
    var rank: map<RunId, nat> :| Ranked(metas, rank);
    assert Below(metas[src].parentRun, src, rank);
    var rank' := rank[dst := rank[src] + 1];
    var metas' := metas[dst := m];
    forall r | r in metas' ensures Below(metas'[r].parentRun, r, rank') {
      if r != dst {
        assert Below(metas[r].parentRun, r, rank);
        EmptyRunHasNoFork(c, dst, r);
      }
    }
    assert Ranked(metas', rank');
  }

  lemma ForkGrows(c: Core, c': Core, src: RunId, dst: RunId, n: nat, trajectory: string, now: string)
    requires EntriesOk(c) && n >= 1
    requires c' == c.(db := c'.db) && Forked(c.db, c'.db, src, dst, n, trajectory, now)
    ensures Grows(c, c')
    ensures forall r | r != dst :: NewNative(c.db, c'.db, r)
  {
    hide EntryOk;
    assert (dst, 1) !in c.db.steps;
    assert Settled(c.db, c'.db);
  }

  lemma ForkedEntryOk(c: Core, c': Core, src: RunId, dst: RunId, n: nat, k: nat, trajectory: string, now: string)
    requires EntriesOk(c) && c.flow(src) == c.flow(dst) && 1 <= k <= n && IsSafe(dst)
    requires c' == c.(db := c'.db) && Forked(c.db, c'.db, src, dst, n, trajectory, now)
    ensures (dst, k) in c'.db.steps && EntryOk(c', dst, k)
  {
    assert EntryOk(c, src, k);
    hide NativeOk;
    assert HasPrefix(c'.db, dst, k);
  }

  lemma ForkedMetaOk(c: Core, c': Core, src: RunId, dst: RunId, n: nat, trajectory: string, now: string)
    requires EntriesOk(c) && c.flow(src) == c.flow(dst) && n >= 1 && src != dst
    requires c' == c.(db := c'.db) && Forked(c.db, c'.db, src, dst, n, trajectory, now)
    ensures dst in c'.db.metas && MetaOk(c', dst)
  {
    hide EntryOk;
    forall k: nat | 1 <= k <= n
      ensures (src, k) in c'.db.steps && (dst, k) in c'.db.steps
        && CopyOf(c'.db.steps[(dst, k)], c'.db.steps[(src, k)], src)
    {
      assert (src, k) in c.db.steps;
    }
    forall k: nat | (dst, k) in c'.db.steps && k > n ensures false {
      assert (dst, 1) !in c.db.steps;
      ForkTargetEmpty(c, dst, k);
    }
  }

  lemma ForkPreserves(c: Core, c': Core, src: RunId, dst: RunId, n: nat, trajectory: string, now: string)
    requires CoreOk(c) && c.flow(src) == c.flow(dst) && n >= 1 && src != dst && IsSafe(dst)
    requires c' == c.(db := c'.db) && Forked(c.db, c'.db, src, dst, n, trajectory, now)
    ensures CoreOk(c') && Grows(c, c')
  {
    hide EntryOk, MetaOk, RowOk, EntriesOk, MetasOk, RowsOk, Grows, NewNative, KeysUnique, Ranked, Seeded;
    assert (src, 1) in c.db.steps && (dst, 1) !in c.db.steps;
    ForkGrows(c, c', src, dst, n, trajectory, now);
    ForkedMetaOk(c, c', src, dst, n, trajectory, now);
    StepHasMeta(c, src, 1);
    ForkKeepsForest(c, src, dst, c'.db.metas[dst]);
    forall p | p in c'.db.steps && p !in c.db.steps ensures EntryOk(c', p.0, p.1) {
      ForkedEntryOk(c, c', src, dst, n, p.1, trajectory, now);
    }
    assert c'.sink == c.sink && c'.db.metas.Keys == c.db.metas.Keys + {dst};
    CorePreserved(c, c');
  }
}
