/** The inductive invariant on what the protocol keeps durable, and why every write preserves it. */
module ProtocolInvariant {
  import opened EffectSink
  import opened Idempotency
  import opened Journal
  import opened Json
  import opened Lineage
  import opened Ordering
  import opened Protocol
  import opened StepModel
  import opened Workflow
  import opened Wrappers

  // ---- The invariant ----

  function OutAt(db: Db, r: RunId, k: nat): Json
  {
    if (r, k) in db.steps then db.steps[(r, k)].output else JNull
  }

  /** The journaled outputs 1..n of a run. */
  function Outs(db: Db, r: RunId, n: nat): (o: seq<Json>)
    ensures |o| == n && forall i | 0 <= i < n :: o[i] == OutAt(db, r, i + 1)
  {
    seq(n, (i: nat) => OutAt(db, r, i + 1))
  }

  ghost predicate HasPrefix(db: Db, r: RunId, n: nat)
  {
    forall j: nat | 1 <= j <= n :: (r, j) in db.steps
  }

  /** What the run could not compute for itself, as the stores recorded it. */
  function ChoiceOf(c: Core, r: RunId): Choice
  {
    Choice(AsText(OutAt(c.db, r, 1)), if r in c.promise then c.promise[r] else "", RowId(c.sink, ToolKey(c, r)))
  }

  /** The tool's effect is in the log before its entry is in the journal; the decision is the promise's. */
  predicate Sourced(c: Core, r: RunId, k: nat)
  {
    (k == ToolSeq(c.flow(r)) ==> HasRow(c.sink, ToolKey(c, r))) && (k == InputSeq(c.flow(r)) ==> r in c.promise)
  }

  /** An entry some worker produced: its output is the producer's, on the journaled outputs before it. */
  ghost predicate NativeOk(c: Core, r: RunId, k: nat)
    requires 1 <= k <= Len(c.flow(r)) && (r, k) in c.db.steps
  {
    var e := c.db.steps[(r, k)];
    && r in c.inputs && IsSafe(r)
    && e.idemKey == StepKey(c.flow(r), k, r)
    && Sourced(c, r, k)
    && e.output == Output(c.flow(r), k, c.inputs[r], Outs(c.db, r, k - 1), ChoiceOf(c, r))
  }

  ghost predicate FitsTable(e: Entry, f: Flow, r: RunId, k: nat)
  {
    && 1 <= k <= Len(f)
    && e.runId == r && e.seqNo == k
    && e.stepName == Spec(f, k).name && e.kind == Spec(f, k).kind && e.sideEffect == Spec(f, k).sideEffect
    && KeyStep(e.idemKey) == e.stepName && IsKeyText(e.idemKey)
  }

  ghost predicate EntryOk(c: Core, r: RunId, k: nat)
    requires (r, k) in c.db.steps
  {
    && FitsTable(c.db.steps[(r, k)], c.flow(r), r, k)
    && HasPrefix(c.db, r, k)
    && r in c.db.metas && IsSafe(r)
    && (c.db.steps[(r, k)].seededFrom.None? ==> NativeOk(c, r, k))
  }

  predicate CopyOf(e: Entry, e0: Entry, p: RunId)
  {
    e.output == e0.output && e.idemKey == e0.idemKey && e.seededFrom == Some(p)
  }

  ghost predicate SeededThrough(db: Db, r: RunId, p: RunId, n: nat)
  {
    forall k: nat | 1 <= k <= n ::
      (p, k) in db.steps && (r, k) in db.steps && CopyOf(db.steps[(r, k)], db.steps[(p, k)], p)
  }

  ghost predicate NativeBeyond(db: Db, r: RunId, n: nat)
  {
    forall k: nat | (r, k) in db.steps && k > n :: db.steps[(r, k)].seededFrom.None?
  }

  /** A root run is all native. A fork holds exact copies of its parent's entries up to the fork
      point, and native entries after it. */
  ghost predicate MetaOk(c: Core, r: RunId)
    requires r in c.db.metas
  {
    var m := c.db.metas[r];
    && m.runId == r
    && match m.parentRun
       case None => m.forkedAtSeq.None? && NativeBeyond(c.db, r, 0)
       case Some(p) =>
         && m.forkedAtSeq.Some? && m.forkedAtSeq.value >= 1
         && p != r && c.flow(p) == c.flow(r)
         && SeededThrough(c.db, r, p, m.forkedAtSeq.value)
         && NativeBeyond(c.db, r, m.forkedAtSeq.value)
  }

  /** A row of the effect log belongs to a run that has journaled every step before its tool step,
      and whose tool step is not, and never will be, a seeded one. */
  ghost predicate RowOk(c: Core, i: nat)
    requires i < |c.sink|
  {
    var row := c.sink[i];
    var r := row.runId;
    var f := c.flow(r);
    && r in c.inputs && IsSafe(r)
    && row.stepName == ToolName(f) && row.idemKey == ToolKey(c, r)
    && row.trajectory == Label(c.inputs[r])
    && HasPrefix(c.db, r, ToolSeq(f) - 1)
    && row.payload == Print(Payload(f, Outs(c.db, r, ToolSeq(f) - 1)))
    && NativeIfPresent(c.db, r, ToolSeq(f))
  }

  predicate NativeIfPresent(db: Db, r: RunId, k: nat)
  {
    (r, k) in db.steps ==> db.steps[(r, k)].seededFrom.None?
  }

  ghost predicate EntriesOk(c: Core) { forall p | p in c.db.steps :: EntryOk(c, p.0, p.1) }

  ghost predicate MetasOk(c: Core) { forall r | r in c.db.metas :: MetaOk(c, r) }

  ghost predicate RowsOk(c: Core) { forall i: nat | i < |c.sink| :: RowOk(c, i) }

  ghost predicate CoreOk(c: Core)
  {
    EntriesOk(c) && MetasOk(c) && RowsOk(c) && KeysUnique(c.sink) && IdsOk(LogOf(c)) && Forest(c.db)
  }

  // ---- Growth: what no write ever takes back ----

  ghost predicate Kept<K(!new), V(!new)>(m: map<K, V>, m': map<K, V>)
  {
    forall x | x in m :: x in m' && m'[x] == m[x]
  }

  ghost predicate NewNative(db: Db, db': Db, r: RunId)
  {
    forall k: nat | (r, k) in db'.steps && (r, k) !in db.steps :: db'.steps[(r, k)].seededFrom.None?
  }

  /** Once a run has a first entry its lineage is fixed and no entry is ever seeded into it. */
  ghost predicate Settled(db: Db, db': Db)
  {
    forall r | (r, 1) in db.steps ::
      NewNative(db, db', r) && (r in db.metas ==> r in db'.metas && db'.metas[r] == db.metas[r])
  }

  ghost predicate Grows(c: Core, c': Core)
  {
    && c'.flow == c.flow
    && Kept(c.inputs, c'.inputs)
    && Kept(c.promise, c'.promise)
    && Kept(c.db.steps, c'.db.steps)
    && c.db.metas.Keys <= c'.db.metas.Keys
    && c.sink <= c'.sink && c.lastId <= c'.lastId
    && Settled(c.db, c'.db)
  }

  lemma GrowsReflexive(c: Core)
    ensures Grows(c, c)
  {
  }

  lemma SettledTransitive(a: Db, b: Db, d: Db)
    requires Kept(a.steps, b.steps) && Kept(b.steps, d.steps) && Settled(a, b) && Settled(b, d)
    ensures Settled(a, d)
  {
    forall r | (r, 1) in a.steps
      ensures NewNative(a, d, r) && (r in a.metas ==> r in d.metas && d.metas[r] == a.metas[r])
    {
      assert (r, 1) in b.steps;
      forall k: nat | (r, k) in d.steps && (r, k) !in a.steps ensures d.steps[(r, k)].seededFrom.None? {
        if (r, k) in b.steps { assert NewNative(a, b, r); } else { assert NewNative(b, d, r); }
      }
    }
  }

  lemma GrowsTransitive(a: Core, b: Core, d: Core)
    requires Grows(a, b) && Grows(b, d)
    ensures Grows(a, d)
  {
    SettledTransitive(a.db, b.db, d.db);
    hide Settled;
  }

  // ---- What holds of an old row goes on holding ----

  lemma OutsKept(db: Db, db': Db, r: RunId, n: nat)
    requires Kept(db.steps, db'.steps) && HasPrefix(db, r, n)
    ensures Outs(db', r, n) == Outs(db, r, n) && HasPrefix(db', r, n)
  {
    forall i | 0 <= i < n ensures Outs(db', r, n)[i] == Outs(db, r, n)[i] {
      assert (r, i + 1) in db.steps;
    }
  }

  lemma RowIdKept(c: Core, c': Core, key: string)
    requires c.sink <= c'.sink && HasRow(c.sink, key)
    ensures HasRow(c'.sink, key) && RowId(c'.sink, key) == RowId(c.sink, key)
  {
    RowIdExtend(c.sink, c'.sink[|c.sink|..], key);
    assert c.sink + c'.sink[|c.sink|..] == c'.sink;
    var row :| row in c.sink && row.idemKey == key;
    assert row in c'.sink;
  }

  lemma SourcedKept(c: Core, c': Core, r: RunId, k: nat)
    requires Grows(c, c') && Sourced(c, r, k)
    ensures Sourced(c', r, k)
    ensures k == ToolSeq(c.flow(r)) ==> ChoiceOf(c', r).effectId == ChoiceOf(c, r).effectId
    ensures k == InputSeq(c.flow(r)) ==> ChoiceOf(c', r).decision == ChoiceOf(c, r).decision
  {
    if k == ToolSeq(c.flow(r)) { RowIdKept(c, c', ToolKey(c, r)); }
    hide Settled;
  }

  lemma NativeKept(c: Core, c': Core, r: RunId, k: nat)
    requires Grows(c, c') && (r, k) in c.db.steps && 1 <= k <= Len(c.flow(r)) && HasPrefix(c.db, r, k)
    requires NativeOk(c, r, k)
    ensures (r, k) in c'.db.steps && NativeOk(c', r, k)
  {
    hide Output, RowId, HasRow, Settled;
    SourcedKept(c, c', r, k);
    OutsKept(c.db, c'.db, r, k - 1);
    assert (r, 1) in c.db.steps;
    OutputDepends(c.flow(r), k, c.inputs[r], Outs(c.db, r, k - 1), ChoiceOf(c, r), ChoiceOf(c', r));
  }

  lemma EntryKept(c: Core, c': Core, r: RunId, k: nat)
    requires Grows(c, c') && (r, k) in c.db.steps && EntryOk(c, r, k)
    ensures (r, k) in c'.db.steps && EntryOk(c', r, k)
  {
    if c.db.steps[(r, k)].seededFrom.None? { NativeKept(c, c', r, k); }
    hide Settled, NativeOk, FitsTable;
  }

  lemma MetaKept(c: Core, c': Core, r: RunId)
    requires Grows(c, c') && r in c.db.metas && MetaOk(c, r)
    requires r in c'.db.metas && c'.db.metas[r] == c.db.metas[r] && NewNative(c.db, c'.db, r)
    ensures MetaOk(c', r)
  {
    hide Settled;
    match c.db.metas[r].parentRun
    case None =>
    case Some(p) =>
      forall k: nat | 1 <= k <= c.db.metas[r].forkedAtSeq.value
        ensures (p, k) in c'.db.steps && (r, k) in c'.db.steps && CopyOf(c'.db.steps[(r, k)], c'.db.steps[(p, k)], p)
      {
        assert (p, k) in c.db.steps && (r, k) in c.db.steps;
      }
  }

  lemma RowKept(c: Core, c': Core, i: nat)
    requires Grows(c, c') && i < |c.sink| && RowOk(c, i)
    ensures i < |c'.sink| && RowOk(c', i)
  {
    hide Payload, Settled;
    var r := c.sink[i].runId;
    var t := ToolSeq(c.flow(r));
    assert c'.sink[i] == c.sink[i];
    OutsKept(c.db, c'.db, r, t - 1);
    assert NativeIfPresent(c'.db, r, t) by {
      assert (r, 1) in c.db.steps;
      SettledNative(c.db, c'.db, r, t);
    }
  }

  lemma SettledNative(db: Db, db': Db, r: RunId, k: nat)
    requires Settled(db, db') && Kept(db.steps, db'.steps) && (r, 1) in db.steps && NativeIfPresent(db, r, k)
    ensures NativeIfPresent(db', r, k)
  {
    assert NewNative(db, db', r);
  }

  /** A growing write preserves the invariant once it holds of what the write adds. */
  lemma CorePreserved(c: Core, c': Core)
    requires CoreOk(c) && Grows(c, c')
    requires forall p | p in c'.db.steps && p !in c.db.steps :: EntryOk(c', p.0, p.1)
    requires forall r | r in c'.db.metas ::
      MetaOk(c', r) || (r in c.db.metas && c'.db.metas[r] == c.db.metas[r] && NewNative(c.db, c'.db, r))
    requires forall i: nat | |c.sink| <= i < |c'.sink| :: RowOk(c', i)
    requires KeysUnique(c'.sink) && IdsOk(LogOf(c')) && Forest(c'.db)
    ensures CoreOk(c')
  {
    hide EntryOk, MetaOk, RowOk, Settled, NewNative, KeysUnique, Forest;
    forall p | p in c'.db.steps ensures EntryOk(c', p.0, p.1) {
      if p in c.db.steps { EntryKept(c, c', p.0, p.1); }
    }
    forall r | r in c'.db.metas ensures MetaOk(c', r) {
      if !MetaOk(c', r) { MetaKept(c, c', r); }
    }
    forall i: nat | i < |c'.sink| ensures RowOk(c', i) {
      if i < |c.sink| { RowKept(c, c', i); }
    }
  }
}
