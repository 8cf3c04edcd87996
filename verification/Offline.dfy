/** Offline replay: the journal an import rebuilds from a bundle, run by run, against the live one. */
module Offline {
  import opened Bundle
  import opened Descendants
  import opened EffectSink
  import opened Idempotency
  import opened Import
  import opened Journal
  import opened Json
  import opened Lineage
  import opened Ordering
  import opened Portable
  import opened Replay
  import opened RoundTrip
  import opened Source
  import opened StepModel
  import opened Text
  import opened Wrappers

  /** What the stores keep true of themselves. */
  ghost predicate Sound(db: Db, sink: seq<EffectRow>)
  {
    ValidDb(db) && Forest(db) && IdsAscending(sink) && forall p | p in db.steps :: IsKeyText(db.steps[p].idemKey)
  }

  /** The records of the bundle of root. */
  function LiveRecords(db: Db, sink: seq<EffectRow>, root: RunId): seq<Record>
    requires ValidDb(db)
  {
    BundleRecords(Live(db, sink), Bundled(db, sink, root))
  }

  /** What importing the bundle of root parses to. */
  function Back(db: Db, sink: seq<EffectRow>, root: RunId): Imported
    requires ValidDb(db) && AllExportable(LiveRecords(db, sink, root))
  {
    Collect(ReceivedAll(LiveRecords(db, sink, root)))
  }

  // ---- Everything a run contributes is found again under that run ----

  lemma {:induction false} FilterConcat<T(!new)>(order: seq<RunId>, f: RunId -> seq<T>, runOf: T -> RunId, d: RunId)
    requires NoDuplicates(order) && forall r, x | r in order && x in f(r) :: runOf(x) == r
    ensures Filter(Concat(order, f), OfRun(runOf, d)) == if d in order then f(d) else []
  {
    hide Filter;
    if |order| == 0 {
      FilterNone<T>([], OfRun(runOf, d));
    } else {
      var r, rest := order[0], order[1..];
      assert order == [r] + rest && r in order;
      forall q, x | q in rest && x in f(q) ensures runOf(x) == q { assert q in order; }
      assert NoDuplicates(rest) && r !in rest;
      FilterConcat(rest, f, runOf, d);
      FilterAppend(f(r), Concat(rest, f), OfRun(runOf, d));
      if r == d { FilterAll(f(r), OfRun(runOf, d)); } else { FilterNone(f(r), OfRun(runOf, d)); }
    }
  }

  function LiveSteps(db: Db): RunId -> seq<Entry> { (r: RunId) => Trajectory(db, r) }

  function LiveRows(sink: seq<EffectRow>): RunId -> seq<EffectRow> { (r: RunId) => RowsBack(sink, r) }

  lemma {:induction false} BundleCollected(db: Db, sink: seq<EffectRow>, order: seq<RunId>)
    requires AllExportable(BundleRecords(Live(db, sink), order))
    ensures Collect(ReceivedAll(BundleRecords(Live(db, sink), order)))
      == Imported(Concat(order, LiveSteps(db)), MetaList(db, order), Concat(order, LiveRows(sink)))
    ensures forall r | r in order :: AllParse(EffectsFor(sink, r))
  {
    hide RunRecords, AllExportable, AllParse, ReceivedAll, StepsIn, MetasIn, EffectsIn, Trajectory, EffectsFor;
    var src := Live(db, sink);
    if |order| == 0 {
      CollectNone();
      ReceivedNone();
    } else {
      assert order == [order[0]] + order[1..];
      BundleSplit(src, [order[0]], order[1..]);
      BundleOne(src, order[0]);
      RunReceived(src, order[0]);
      BundleCollected(db, sink, order[1..]);
      ReceivedAppend(RunRecords(src, order[0]), BundleRecords(src, order[1..]));
      CollectAppend(ReceivedAll(RunRecords(src, order[0])), ReceivedAll(BundleRecords(src, order[1..])));
    }
  }

  lemma ReceivedNone()
    ensures AllExportable([]) && ReceivedAll([]) == []
  {
  }

  lemma LiveStepsOwned(db: Db, r: RunId)
    requires ValidDb(db)
    ensures forall e | e in Trajectory(db, r) :: StepRun(e) == r
    ensures NoDescent(Trajectory(db, r), SeqBefore)
  {
    TrajectoryExact(db, r);
    hide Trajectory;
  }

  lemma LiveRowsOwned(sink: seq<EffectRow>, r: RunId)
    requires IdsAscending(sink)
    ensures forall row | row in RowsBack(sink, r) :: RowRun(row) == r
    ensures NoDescent(RowsBack(sink, r), IdBefore)
  {
    var rows := EffectsFor(sink, r);
    FilterMembers(sink, (row: EffectRow) => row.runId == r);
    assert NoDescent(sink, IdBefore);
    FilterNoDescent(sink, (row: EffectRow) => row.runId == r, IdBefore);
    hide EffectsFor, Parse;
    assert forall row | row in rows :: row.runId == r;
    var back := RowsBack(sink, r);
    forall row | row in back ensures RowRun(row) == r {
      var i :| 0 <= i < |back| && back[i] == row;
      assert rows[i] in rows;
    }
    forall i, j | 0 <= i < j < |back| ensures !IdBefore(back[j], back[i]) { assert !IdBefore(rows[j], rows[i]); }
  }

  // ---- The metadata table ----

  lemma {:induction false} MetaListFind(db: Db, order: seq<RunId>, d: RunId)
    requires ValidDb(db)
    ensures MetaIn(MetaList(db, order), d) == if d in order && d in db.metas then Some(db.metas[d]) else None
  {
    if |order| > 0 {
      MetaListFind(db, order[1..], d);
      MetaListStep(db, order);
      if order[0] in db.metas {
        MetaInAppend([db.metas[order[0]]], MetaList(db, order[1..]), d);
        MetaInOne(db.metas[order[0]], d);
      }
    }
  }

  lemma MetaListStep(db: Db, order: seq<RunId>)
    requires |order| > 0
    ensures order == [order[0]] + order[1..]
    ensures MetaList(db, order) == if order[0] in db.metas
      then [db.metas[order[0]]] + MetaList(db, order[1..]) else MetaList(db, order[1..])
  {
  }

  lemma {:induction false} UpsertNew(table: seq<RunMeta>, m: RunMeta)
    requires MetaIn(table, m.runId).None?
    ensures Upsert(table, m) == table + [m]
  {
    if |table| > 0 {
      UpsertNew(table[1..], m);
      assert [table[0]] + (table[1..] + [m]) == table + [m];
    }
  }

  lemma {:induction false} MetaInAppend(a: seq<RunMeta>, b: seq<RunMeta>, r: RunId)
    ensures MetaIn(a + b, r) == if MetaIn(a, r).Some? then MetaIn(a, r) else MetaIn(b, r)
  {
    if |a| == 0 {
      assert a + b == b;
    } else {
      assert (a + b)[1..] == a[1..] + b;
      MetaInAppend(a[1..], b, r);
    }
  }

  lemma MetaInOne(m: RunMeta, r: RunId)
    ensures MetaIn([m], r) == if m.runId == r then Some(m) else None
  {
    assert [m][1..] == [];
  }

  /** Metadata lines of distinct runs fill the table in order. */
  lemma {:induction false} UpsertDistinct(db: Db, done: seq<RunId>, rest: seq<RunId>)
    requires ValidDb(db) && NoDuplicates(done + rest)
    ensures UpsertAll(MetaList(db, done), MetaList(db, rest)) == MetaList(db, done + rest)
    decreases |rest|
  {
    hide Upsert, MetaIn;
    if |rest| == 0 {
      assert done + rest == done;
    } else {
      var r := rest[0];
      assert (done + rest)[|done|] == r;
      forall i | 0 <= i < |done| ensures done[i] != r { assert (done + rest)[i] == done[i]; }
      assert done + rest == done + [r] + rest[1..];
      MetaListAppend(db, done, [r]);
      MetaListOne(db, r);
      MetaListStep(db, rest);
      UpsertDistinct(db, done + [r], rest[1..]);
      if r in db.metas {
        MetaListFind(db, done, r);
        UpsertNew(MetaList(db, done), db.metas[r]);
        assert MetaList(db, rest)[1..] == MetaList(db, rest[1..]);
      } else {
        assert MetaList(db, done) + [] == MetaList(db, done);
      }
    }
  }

  lemma MetaListOne(db: Db, r: RunId)
    ensures MetaList(db, [r]) == if r in db.metas then [db.metas[r]] else []
  {
    assert [r][1..] == [];
  }

  ghost predicate AllRoots(metas: seq<RunMeta>) { forall m | m in metas :: m.parentRun.None? }

  /** Synthesizing only adds root metadata, for the listed runs that had none. */
  lemma {:induction false} SynthesizedShape(table: seq<RunMeta>, runs: seq<RunId>,
                                            steps: seq<Entry>) returns (extra: seq<RunMeta>)
    ensures Synthesized(table, runs, steps) == table + extra && AllRoots(extra)
    ensures forall r :: MetaIn(Synthesized(table, runs, steps), r) == (
              if MetaIn(table, r).Some? then MetaIn(table, r)
              else if r in runs then Some(RootMeta(r, Group(steps, StepRun, SeqBefore, r)))
              else None)
    decreases |runs|
  {
    hide MetaIn, Group;
    if |runs| == 0 {
      extra := [];
    } else {
      var r := runs[0];
      var mine := RootMeta(r, Group(steps, StepRun, SeqBefore, r));
      var added := if MetaIn(table, r).Some? then [] else [mine];
      var more := SynthesizedShape(table + added, runs[1..], steps);
      extra := added + more;
      assert table + [] == table;
      assert table + added + more == table + (added + more);
      assert runs == [r] + runs[1..];
      forall q ensures MetaIn(table + added, q) == if MetaIn(table, q).Some? then MetaIn(table, q)
                                                     else if q == r then Some(mine) else None {
        MetaInAppend(table, added, q);
        MetaInOne(mine, q);
      }
    }
  }

  lemma {:induction false} FirstSeenMembers<T>(items: seq<T>, runOf: T -> RunId, r: RunId)
    ensures r in FirstSeen(items, runOf) <==> |Filter(items, OfRun(runOf, r))| > 0
  {
    hide Filter;
    if |items| == 0 {
      FilterNothing(OfRun(runOf, r));
    } else {
      var front, last := items[..|items| - 1], items[|items| - 1];
      FirstSeenMembers(front, runOf, r);
      FilterNext(front, last, OfRun(runOf, r));
      assert front + [last] == items;
    }
  }

  lemma FilterNothing<T>(keep: T -> bool)
    ensures Filter([], keep) == []
  {
  }

  // ---- The imported source, for the runs of the bundle ----

  lemma OwnedByRun(db: Db, sink: seq<EffectRow>, order: seq<RunId>)
    requires ValidDb(db) && IdsAscending(sink)
    ensures forall r, e | r in order && e in LiveSteps(db)(r) :: StepRun(e) == r
    ensures forall r, row | r in order && row in LiveRows(sink)(r) :: RowRun(row) == r
  {
    hide Trajectory, RowsBack, IdsAscending;
    forall r | r in order
      ensures forall e | e in Trajectory(db, r) :: StepRun(e) == r
      ensures forall row | row in RowsBack(sink, r) :: RowRun(row) == r
    {
      LiveStepsOwned(db, r);
      LiveRowsOwned(sink, r);
    }
  }

  /** Steps and effects come back under their own run, in their own order. */
  lemma ImportedRuns(db: Db, sink: seq<EffectRow>, root: RunId, d: RunId)
    requires Sound(db, sink) && AllExportable(LiveRecords(db, sink, root))
    ensures var j, inside := Back(db, sink, root), d in Bundled(db, sink, root);
      && Group(j.steps, StepRun, SeqBefore, d) == (if inside then Trajectory(db, d) else [])
      && Group(j.effects, RowRun, IdBefore, d) == (if inside then RowsBack(sink, d) else [])
  {
    hide Trajectory, RowsBack, Bundled, AllExportable, ReceivedAll, Forest, BundleRecords, StepsIn, MetasIn, EffectsIn;
    var order := Bundled(db, sink, root);
    BundledExactly(db, sink, root);
    BundleCollected(db, sink, order);
    OwnedByRun(db, sink, order);
    FilterConcat(order, LiveSteps(db), StepRun, d);
    FilterConcat(order, LiveRows(sink), RowRun, d);
    LiveStepsOwned(db, d);
    LiveRowsOwned(sink, d);
    hide Filter, StableSort, NoDescent;
    StableSortSorted(Trajectory(db, d), SeqBefore);
    StableSortSorted(RowsBack(sink, d), IdBefore);
    SortNothing(SeqBefore);
    SortNothing(IdBefore);
  }

  lemma NoSteps(db: Db, sink: seq<EffectRow>, root: RunId, d: RunId)
    requires Sound(db, sink) && AllExportable(LiveRecords(db, sink, root)) && d in Bundled(db, sink, root)
    ensures d in FirstSeen(Back(db, sink, root).steps, StepRun) <==> |Trajectory(db, d)| > 0
  {
    hide Trajectory, Bundled, AllExportable, Forest, Back, FirstSeen, Filter, StableSort;
    var j := Back(db, sink, root);
    ImportedRuns(db, sink, root, d);
    FirstSeenMembers(j.steps, StepRun, d);
    StableSortElements(Filter(j.steps, OfRun(StepRun, d)), SeqBefore);
    assert |multiset(Filter(j.steps, OfRun(StepRun, d)))| == |multiset(Trajectory(db, d))|;
  }

  /** The metadata an import has for a run of the bundle. */
  function MetaBack(db: Db, d: RunId): Option<RunMeta>
  {
    if d in db.metas then Some(db.metas[d])
    else if |Trajectory(db, d)| > 0 then Some(RootMeta(d, Trajectory(db, d)))
    else None
  }

  lemma ImportedTable(db: Db, sink: seq<EffectRow>, root: RunId) returns (extra: seq<RunMeta>)
    requires Sound(db, sink) && AllExportable(LiveRecords(db, sink, root))
    ensures MetaTable(Back(db, sink, root)) == MetaList(db, Bundled(db, sink, root)) + extra && AllRoots(extra)
    ensures forall d | d in Bundled(db, sink, root) :: MetaIn(MetaTable(Back(db, sink, root)), d) == MetaBack(db, d)
  {
    hide Trajectory, Bundled, AllExportable, ReceivedAll, Forest, BundleRecords;
    hide StepsIn, EffectsIn, Synthesized, MetaIn, Group, FirstSeen;
    var order, j := Bundled(db, sink, root), Back(db, sink, root);
    BundledExactly(db, sink, root);
    BundleCollected(db, sink, order);
    UpsertDistinct(db, [], order);
    assert [] + order == order && MetaList(db, []) == [];
    extra := SynthesizedShape(MetaList(db, order), FirstSeen(j.steps, StepRun), j.steps);
    forall d | d in order ensures MetaIn(MetaTable(j), d) == MetaBack(db, d) {
      MetaListFind(db, order, d);
      NoSteps(db, sink, root, d);
      ImportedRuns(db, sink, root, d);
    }
  }

  /** Forks come back in the live store's order: the stable sort keeps the order of the visit. */
  lemma ImportedChildren(db: Db, sink: seq<EffectRow>, root: RunId, d: RunId)
    requires Sound(db, sink) && AllExportable(LiveRecords(db, sink, root)) && d in Bundled(db, sink, root)
    ensures ChildrenOf(MetaTable(Back(db, sink, root)), d) == ChildRuns(db, d)
  {
    hide Bundled, AllExportable, Back, ChildRuns, MetaTable, StableSort, Filter, Forest;
    var extra := ImportedTable(db, sink, root);
    var table, metas := MetaTable(Back(db, sink, root)), MetaList(db, Bundled(db, sink, root));
    BundledInOrder(db, sink, root, d);
    SameFilter(table, d);
    FilterAppend(metas, extra, HasParent(d));
    FilterNone(extra, HasParent(d));
    assert Filter(table, HasParent(d)) == ChildRuns(db, d);
    ChildRunsExact(db, d);
    ChildrenSorted(db, d);
    StableSortSorted(ChildRuns(db, d), CreatedBefore);
  }

  lemma {:induction false} SameFilter(table: seq<RunMeta>, d: RunId)
    ensures Filter(table, (m: RunMeta) => m.parentRun == Some(d)) == Filter(table, HasParent(d))
  {
    if |table| > 0 { SameFilter(table[1..], d); }
  }

  lemma ChildrenSorted(db: Db, d: RunId)
    requires ValidDb(db)
    ensures NoDescent(ChildRuns(db, d), CreatedBefore)
  {
    ChildRunsExact(db, d);
    hide ChildRuns;
    var ms := ChildRuns(db, d);
    forall i, j | 0 <= i < j < |ms| ensures !CreatedBefore(ms[j], ms[i]) {
      assert ms[i] in ms && ms[j] in ms;
      var a, b := ms[i].createdAt, ms[j].createdAt;
      LessIrreflexive(a);
      if Less(a, b) && Less(b, a) { LessTransitive(a, b, a); }
    }
  }

  /** The effects of a bundle come from the effect log. */
  lemma {:induction false} EffectsFromSink(db: Db, sink: seq<EffectRow>, order: seq<RunId>)
    ensures forall rec | rec in BundleRecords(Live(db, sink), order) && rec.EffectRecord? :: rec.row in sink
  {
    hide Trajectory;
    if |order| > 0 {
      EffectsFromSink(db, sink, order[1..]);
      var r := order[0];
      FilterMembers(sink, (row: EffectRow) => row.runId == r);
      hide EffectsFor;
      forall rec | rec in RunRecords(Live(db, sink), r) && rec.EffectRecord? ensures rec.row in sink {
        assert rec.row in EffectsFor(sink, r);
      }
    }
  }
}
