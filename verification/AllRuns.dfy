/** The list of all runs, live and imported: when the two agree. */
module AllRuns {
  import opened Bundle
  import opened Descendants
  import opened Fixpoint
  import opened Import
  import opened Journal
  import opened Lineage
  import opened Offline
  import opened OfflineTheorems
  import opened Ordering
  import opened RoundTrip
  import opened StepModel
  import opened Text
  import opened Wrappers

  // ---- Sorting metadata by creation time ----

  lemma CreatedWeak()
    ensures Weak(CreatedBefore)
  {
    forall x ensures !CreatedBefore(x, x) { LessIrreflexive(x.createdAt); }
    forall x, y, z | CreatedBefore(x, y) && CreatedBefore(y, z) ensures CreatedBefore(x, z) {
      LessTransitive(x.createdAt, y.createdAt, z.createdAt);
    }
    forall x, y, z | CreatedBefore(x, z) ensures CreatedBefore(x, y) || CreatedBefore(y, z) {
      LessTotal(x.createdAt, y.createdAt);
      if Less(y.createdAt, x.createdAt) { LessTransitive(y.createdAt, x.createdAt, z.createdAt); }
    }
  }

  /** Rows created at one time are in the order of their run ids. */
  ghost predicate TiesByRunId(ms: seq<RunMeta>)
  {
    forall x, y | Before(ms, x, y) && x.createdAt == y.createdAt :: Less(x.runId, y.runId)
  }

  /** Rows are in the live order: by creation time, then by run id. */
  ghost predicate LiveOrder(ms: seq<RunMeta>)
  {
    forall x, y | Before(ms, x, y) ::
      Less(x.createdAt, y.createdAt) || (x.createdAt == y.createdAt && Less(x.runId, y.runId))
  }

  function CreatedAt(time: string): RunMeta -> bool { (m: RunMeta) => m.createdAt == time }

  lemma CreatedAtTied(time: string)
    ensures Tied(CreatedBefore, CreatedAt(time))
  {
    LessIrreflexive(time);
  }

  /** Sorting keeps rows created at one time in their order. */
  lemma TiesKept(ms: seq<RunMeta>, x: RunMeta, y: RunMeta)
    requires x.createdAt == y.createdAt
    ensures Before(StableSort(ms, CreatedBefore), x, y) <==> Before(ms, x, y)
  {
    hide StableSort, Before, Weak, Tied;
    var keep := CreatedAt(x.createdAt);
    CreatedWeak();
    CreatedAtTied(x.createdAt);
    StableFilter(ms, CreatedBefore, keep);
    FilterBefore(ms, keep, x, y);
    FilterBefore(StableSort(ms, CreatedBefore), keep, x, y);
  }

  /** The stable sort by creation time gives the live order exactly when ties were by run id already. */
  lemma SortIsLiveOrder(ms: seq<RunMeta>)
    ensures LiveOrder(StableSort(ms, CreatedBefore)) <==> TiesByRunId(ms)
  {
    hide StableSort, Before;
    var sorted := StableSort(ms, CreatedBefore);
    forall x: RunMeta, y: RunMeta | x.createdAt == y.createdAt ensures Before(sorted, x, y) <==> Before(ms, x, y) {
      TiesKept(ms, x, y);
    }
    if LiveOrder(sorted) {
      forall x, y | Before(ms, x, y) && x.createdAt == y.createdAt ensures Less(x.runId, y.runId) {
        assert Before(sorted, x, y);
        LessIrreflexive(x.createdAt);
      }
    }
    if TiesByRunId(ms) {
      forall x, y | Before(sorted, x, y)
        ensures Less(x.createdAt, y.createdAt) || (x.createdAt == y.createdAt && Less(x.runId, y.runId))
      {
        SortedPair(ms, x, y);
        LessTotal(x.createdAt, y.createdAt);
      }
    }
  }

  lemma SortedPair(ms: seq<RunMeta>, x: RunMeta, y: RunMeta)
    requires Before(StableSort(ms, CreatedBefore), x, y)
    ensures !CreatedBefore(y, x)
  {
    CreatedWeak();
    WeakIsStrict(CreatedBefore);
    StableSortOrdered(ms, CreatedBefore);
  }

  // ---- The imported table ----

  lemma {:induction false} NothingSynthesized(table: seq<RunMeta>, runs: seq<RunId>, steps: seq<Entry>)
    requires forall r | r in runs :: MetaIn(table, r).Some?
    ensures Synthesized(table, runs, steps) == table
    decreases |runs|
  {
    hide MetaIn, Group;
    if |runs| > 0 {
      assert runs[0] in runs && forall r | r in runs[1..] :: r in runs;
      NothingSynthesized(table, runs[1..], steps);
    }
  }

  lemma StepRunsBundled(db: Db, sink: seq<EffectRow>, root: RunId, d: RunId)
    requires Sound(db, sink) && AllExportable(LiveRecords(db, sink, root))
      && d in FirstSeen(Back(db, sink, root).steps, StepRun)
    ensures d in Bundled(db, sink, root) && |Trajectory(db, d)| > 0
  {
    hide Trajectory, Bundled, AllExportable, Forest, Back, FirstSeen, Filter, StableSort;
    var j := Back(db, sink, root);
    ImportedRuns(db, sink, root, d);
    FirstSeenMembers(j.steps, StepRun, d);
    var mine := Filter(j.steps, OfRun(StepRun, d));
    StableSortElements(mine, SeqBefore);
    assert |multiset(mine)| == |multiset(Group(j.steps, StepRun, SeqBefore, d))|;
  }

  /** Does the root have metadata, or no steps to make some up for? */
  predicate RootDescribed(db: Db, root: RunId) { root in db.metas || |Trajectory(db, root)| == 0 }

  lemma TableOfDescribed(db: Db, sink: seq<EffectRow>, root: RunId)
    requires Sound(db, sink) && AllExportable(LiveRecords(db, sink, root)) && RootDescribed(db, root)
    ensures MetaTable(Back(db, sink, root)) == MetaList(db, Bundled(db, sink, root))
  {
    hide Trajectory, Bundled, AllExportable, ReceivedAll, Forest, BundleRecords;
    hide StepsIn, EffectsIn, Synthesized, MetaIn, Group, FirstSeen;
    var order, j := Bundled(db, sink, root), Back(db, sink, root);
    BundledExactly(db, sink, root);
    BundleCollected(db, sink, order);
    UpsertDistinct(db, [], order);
    assert [] + order == order && MetaList(db, []) == [];
    OnlyRootLacksMeta(db, sink, root);
    forall r | r in FirstSeen(j.steps, StepRun) ensures MetaIn(MetaList(db, order), r).Some? {
      StepRunsBundled(db, sink, root, r);
      MetaListFind(db, order, r);
      assert order == [order[0]] + order[1..];
    }
    NothingSynthesized(MetaList(db, order), FirstSeen(j.steps, StepRun), j.steps);
  }

  // ---- The live list, restricted to the bundle ----

  /** The live list of all runs, without those the bundle leaves out. */
  function LiveBundled(db: Db, sink: seq<EffectRow>, root: RunId): seq<RunId>
    requires ValidDb(db)
  {
    var order := Bundled(db, sink, root);
    Filter(AllRunIds(db), (r: RunId) => r in order)
  }

  lemma {:induction false} MetaListMembers(db: Db, order: seq<RunId>)
    requires ValidDb(db)
    ensures forall m :: m in MetaList(db, order) <==> m.runId in order && m.runId in db.metas && db.metas[m.runId] == m
  {
    if |order| > 0 {
      MetaListMembers(db, order[1..]);
      MetaListStep(db, order);
    }
  }

  lemma LiveBundledExact(db: Db, sink: seq<EffectRow>, root: RunId)
    requires ValidDb(db)
    ensures Ascending(LiveBundled(db, sink, root), ByCreation(db.metas))
    ensures forall r :: r in LiveBundled(db, sink, root) <==> r in db.metas && r in Bundled(db, sink, root)
  {
    hide Ordered, Filter, Bundled, MetaBefore;
    var order, all := Bundled(db, sink, root), AllRunIds(db);
    var inside := (r: RunId) => r in order;
    OrderedExact(db, db.metas.Keys);
    FilterMembers(all, inside);
    var live := LiveBundled(db, sink, root);
    forall i, j | 0 <= i < j < |live| ensures ByCreation(db.metas)(live[i], live[j]) {
      assert Before(live, live[i], live[j]);
      FilterBefore(all, inside, live[i], live[j]);
    }
  }

  /** Rows that are the store's, in a sequence with no run twice. */
  ghost predicate StoreRows(db: Db, ms: seq<RunMeta>)
  {
    forall m | m in ms :: m.runId in db.metas && db.metas[m.runId] == m
  }

  /** Ids in the order of creation are ids of rows in the live order. */
  lemma IdsInLiveOrder(db: Db, ms: seq<RunMeta>)
    requires StoreRows(db, ms)
    ensures Ascending(RunIds(ms), ByCreation(db.metas)) <==> LiveOrder(ms)
  {
    var ids := RunIds(ms);
    if Ascending(ids, ByCreation(db.metas)) {
      forall x, y | Before(ms, x, y)
        ensures Less(x.createdAt, y.createdAt) || (x.createdAt == y.createdAt && Less(x.runId, y.runId))
      {
        var i, j :| 0 <= i < j < |ms| && ms[i] == x && ms[j] == y;
        assert ByCreation(db.metas)(ids[i], ids[j]);
        assert x in ms && y in ms;
      }
    }
    if LiveOrder(ms) {
      forall i, j | 0 <= i < j < |ids| ensures ByCreation(db.metas)(ids[i], ids[j]) {
        assert Before(ms, ms[i], ms[j]);
        assert ms[i] in ms && ms[j] in ms;
      }
    }
  }

  lemma SameIdsExactly(db: Db, sink: seq<EffectRow>, root: RunId, ms: seq<RunMeta>)
    requires ValidDb(db) && StoreRows(db, ms)
    requires forall r :: r in RunIds(ms) <==> r in db.metas && r in Bundled(db, sink, root)
    ensures RunIds(ms) == LiveBundled(db, sink, root) <==> LiveOrder(ms)
  {
    hide Bundled, LiveBundled, LiveOrder, MetaBefore;
    LiveBundledExact(db, sink, root);
    IdsInLiveOrder(db, ms);
    if LiveOrder(ms) {
      var S := set r | r in db.metas && r in Bundled(db, sink, root);
      ByCreationTotal(db.metas, S);
      hide Ascending;
      AscendingUnique(RunIds(ms), LiveBundled(db, sink, root), S, ByCreation(db.metas));
    }
  }

  lemma SortedRows(db: Db, sink: seq<EffectRow>, root: RunId)
    requires ValidDb(db)
    ensures var sorted := StableSort(MetaList(db, Bundled(db, sink, root)), CreatedBefore);
      StoreRows(db, sorted) && forall r :: r in RunIds(sorted) <==> r in db.metas && r in Bundled(db, sink, root)
  {
    hide Bundled, StableSort;
    var ms := MetaList(db, Bundled(db, sink, root));
    var sorted := StableSort(ms, CreatedBefore);
    MetaListMembers(db, Bundled(db, sink, root));
    StableSortElements(ms, CreatedBefore);
    forall m ensures m in sorted <==> m in ms { assert m in multiset(sorted) <==> m in multiset(ms); }
    forall r ensures r in RunIds(sorted) <==> r in db.metas && r in Bundled(db, sink, root) {
      if r in RunIds(sorted) { var i :| 0 <= i < |sorted| && sorted[i].runId == r; assert sorted[i] in sorted; }
      if r in db.metas && r in Bundled(db, sink, root) {
        assert db.metas[r] in sorted;
        var i :| 0 <= i < |sorted| && sorted[i] == db.metas[r];
        assert RunIds(sorted)[i] == r;
      }
    }
  }

  /** A root with steps and no metadata is listed by the import and not by the live store. */
  lemma UndescribedListed(db: Db, sink: seq<EffectRow>, root: RunId)
    requires Sound(db, sink) && AllExportable(LiveRecords(db, sink, root)) && !RootDescribed(db, root)
    ensures Reimported(db, sink, root).allRunIds != LiveBundled(db, sink, root)
  {
    hide Trajectory, Bundled, AllExportable, Back, MetaTable, StableSort, Forest, LiveBundled;
    var extra := ImportedTable(db, sink, root);
    OnlyRootLacksMeta(db, sink, root);
    LiveBundledExact(db, sink, root);
    var table := MetaTable(Back(db, sink, root));
    var sorted := StableSort(table, CreatedBefore);
    var m := RootMeta(root, Trajectory(db, root));
    assert MetaIn(table, root) == Some(m);
    MetaInMember(table, root);
    StableSortElements(table, CreatedBefore);
    assert m in multiset(sorted);
    var i :| 0 <= i < |sorted| && sorted[i] == m;
    assert RunIds(sorted)[i] == root;
  }

  lemma {:induction false} MetaInMember(table: seq<RunMeta>, r: RunId)
    requires MetaIn(table, r).Some?
    ensures MetaIn(table, r).value in table && MetaIn(table, r).value.runId == r
  {
    if table[0].runId != r { MetaInMember(table[1..], r); }
  }

  /** The list of all runs of an import is the live list, restricted to the bundled runs, exactly when
      the root has metadata (or no steps) and bundled runs created at one time are visited in the
      order of their run ids. */
  lemma AllRunsAgreeExactly(db: Db, sink: seq<EffectRow>, root: RunId)
    requires Sound(db, sink) && AllExportable(LiveRecords(db, sink, root))
    ensures Reimported(db, sink, root).allRunIds == LiveBundled(db, sink, root)
      <==> RootDescribed(db, root) && TiesByRunId(MetaList(db, Bundled(db, sink, root)))
  {
    hide Bundled, AllExportable, Back, MetaTable, StableSort, LiveBundled, TiesByRunId, LiveOrder, Trajectory, Forest;
    if RootDescribed(db, root) {
      TableOfDescribed(db, sink, root);
      SortedRows(db, sink, root);
      SameIdsExactly(db, sink, root, StableSort(MetaList(db, Bundled(db, sink, root)), CreatedBefore));
      SortIsLiveOrder(MetaList(db, Bundled(db, sink, root)));
    } else {
      UndescribedListed(db, sink, root);
    }
  }

  // ---- A tie ----

  /** A root "b" and its fork "a", created at one time. */
  const TIED := Db(map[], map["b" := RunMeta("b", None, None, "main", "1"),
    "a" := RunMeta("a", Some("b"), Some(1), "fork", "1")])

  lemma TiedRows()
    ensures Sound(TIED, []) && Descends(TIED.metas, "a", "b")
  {
    var rank: map<RunId, nat> := map["b" := 0, "a" := 1];
    assert Ranked(TIED.metas, rank);
    assert Up(TIED.metas, "b", 0) == Some("b");
    assert Up(TIED.metas, "a", 1) == Some("b");
  }

  /** The import lists "b" before "a", as the bundle visits them; the live store lists "a" first. */
  lemma TieExample()
    ensures Sound(TIED, []) && AllExportable(LiveRecords(TIED, [], "b"))
    ensures Reimported(TIED, [], "b").allRunIds != LiveBundled(TIED, [], "b")
  {
    hide Bundled, LiveBundled, Forest, Descends, TiesByRunId;
    TiedRows();
    NoEffectsExportable(TIED, "b");
    BundledExactly(TIED, [], "b");
    OnlyRootLacksMeta(TIED, [], "b");
    var order := Bundled(TIED, [], "b");
    var i :| 0 <= i < |order| && order[i] == "a";
    RootFirst(TIED, order, i);
    NotByRunId(MetaList(TIED, order), TIED.metas["b"], TIED.metas["a"]);
    AllRunsAgreeExactly(TIED, [], "b");
  }

  lemma NotByRunId(ms: seq<RunMeta>, x: RunMeta, y: RunMeta)
    requires Before(ms, x, y) && x.createdAt == y.createdAt && !Less(x.runId, y.runId)
    ensures !TiesByRunId(ms)
  {
  }

  lemma RootFirst(db: Db, order: seq<RunId>, i: int)
    requires ValidDb(db) && 0 < i < |order| && order[0] in db.metas && order[i] in db.metas
    ensures Before(MetaList(db, order), db.metas[order[0]], db.metas[order[i]])
  {
    var rest := order[1..];
    MetaListStep(db, order);
    MetaListMembers(db, rest);
    assert rest[i - 1] == order[i];
    BeforeSplit([db.metas[order[0]]], MetaList(db, rest), db.metas[order[0]], db.metas[order[i]]);
  }

  lemma NoEffectsExportable(db: Db, root: RunId)
    requires ValidDb(db)
    ensures AllExportable(LiveRecords(db, [], root))
  {
    hide Bundled, BundleRecords;
    EffectsFromSink(db, [], Bundled(db, [], root));
  }
}
