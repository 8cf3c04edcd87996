/** The read-only view of a journal that replay, inspection and export go through. */
module Source {
  import opened EffectSink
  import opened Journal
  import opened StepModel
  import opened Wrappers

  datatype JournalSource = JournalSource(
    trajectory: RunId -> seq<Entry>,
    runMeta: RunId -> Option<RunMeta>,
    childRuns: RunId -> seq<RunMeta>,
    effectsFor: RunId -> seq<EffectRow>,
    allRunIds: seq<RunId>)

  /** The live stores. */
  function Live(db: Db, sink: seq<EffectRow>): JournalSource
  {
    JournalSource(
      (r: RunId) => Trajectory(db, r),
      (r: RunId) => RunMetaOf(db, r),
      (r: RunId) => ChildRuns(db, r),
      (r: RunId) => EffectsFor(sink, r),
      AllRunIds(db))
  }

  /** Every child a source reports is one of `universe`: parent pointers name finitely many runs. */
  ghost predicate Within(src: JournalSource, universe: set<RunId>)
  {
    forall r, m | m in src.childRuns(r) :: m.runId in universe
  }

  // ---- The depth-first visit of a run and its forks ----

  datatype Visited = Visited(order: seq<RunId>, seen: set<RunId>)

  /** The runs an export visits from r, in order, skipping those seen before. It ends on every
      source, cyclic parent pointers included. */
  function Visit(src: JournalSource, r: RunId, seen: set<RunId>, ghost universe: set<RunId>): (v: Visited)
    requires Within(src, universe) && r in universe
    ensures seen <= v.seen
    decreases |universe - seen|, 0
  {
    if r in seen then Visited([], seen)
    else
      assert |universe - (seen + {r})| < |universe - seen| by {
        assert universe - (seen + {r}) == (universe - seen) - {r};
      }
      var below := VisitAll(src, src.childRuns(r), seen + {r}, universe);
      Visited([r] + below.order, below.seen)
  }

  function VisitAll(src: JournalSource, children: seq<RunMeta>, seen: set<RunId>,
                    ghost universe: set<RunId>): (v: Visited)
    requires Within(src, universe) && forall m | m in children :: m.runId in universe
    ensures seen <= v.seen
    decreases |universe - seen|, |children|
  {
    if |children| == 0 then Visited([], seen)
    else
      var first := Visit(src, children[0].runId, seen, universe);
      SmallerRest(universe, seen, first.seen);
      var rest := VisitAll(src, children[1..], first.seen, universe);
      Visited(first.order + rest.order, rest.seen)
  }

  lemma SmallerRest(universe: set<RunId>, seen: set<RunId>, seen': set<RunId>)
    requires seen <= seen'
    ensures |universe - seen'| <= |universe - seen|
  {
    SubsetSize(universe - seen', universe - seen);
  }

  lemma SubsetSize(a: set<RunId>, b: set<RunId>)
    requires a <= b
    ensures |a| <= |b|
  {
    assert b == a + (b - a);
  }

  ghost predicate NoDuplicates<T(!new)>(s: seq<T>)
  {
    forall i, j | 0 <= i < j < |s| :: s[i] != s[j]
  }

  lemma NoDuplicatesAppend<T(!new)>(a: seq<T>, b: seq<T>)
    requires NoDuplicates(a) && NoDuplicates(b) && forall x | x in a :: x !in b
    ensures NoDuplicates(a + b)
  {
    forall i, j | 0 <= i < j < |a + b| ensures (a + b)[i] != (a + b)[j] {
      if i < |a| <= j { assert a[i] in a && b[j - |a|] in b; }
    }
  }

  /** Each run is visited at most once, what was seen is what was visited, and the visit is closed:
      every child of a visited run has been seen. This holds of any source, cycles included. */
  lemma {:induction false} VisitOnce(src: JournalSource, r: RunId, seen: set<RunId>, universe: set<RunId>)
    requires Within(src, universe) && r in universe
    ensures var v := Visit(src, r, seen, universe);
      && NoDuplicates(v.order) && (forall x | x in v.order :: x !in seen)
      && (forall x :: x in v.seen <==> x in seen || x in v.order) && r in v.seen
      && (forall x, m | x in v.order && m in src.childRuns(x) :: m.runId in v.seen)
    decreases |universe - seen|, 0
  {
    if r !in seen {
      assert universe - (seen + {r}) == (universe - seen) - {r};
      var below := VisitAll(src, src.childRuns(r), seen + {r}, universe);
      VisitAllOnce(src, src.childRuns(r), seen + {r}, universe);
      hide Visit, VisitAll;
      NoDuplicatesAppend([r], below.order);
      VisitUnfold(src, r, seen, universe);
    }
  }

  lemma VisitSeen(src: JournalSource, r: RunId, seen: set<RunId>, universe: set<RunId>)
    requires Within(src, universe) && r in universe && r in seen
    ensures Visit(src, r, seen, universe) == Visited([], seen)
  {
  }

  lemma VisitUnfold(src: JournalSource, r: RunId, seen: set<RunId>, universe: set<RunId>)
    requires Within(src, universe) && r in universe && r !in seen
    ensures var below := VisitAll(src, src.childRuns(r), seen + {r}, universe);
      Visit(src, r, seen, universe) == Visited([r] + below.order, below.seen)
  {
  }

  lemma NoDuplicatesEmpty<T(!new)>()
    ensures NoDuplicates<T>([])
  {
  }

  lemma {:induction false} VisitAllOnce(src: JournalSource, children: seq<RunMeta>, seen: set<RunId>,
                                        universe: set<RunId>)
    requires Within(src, universe) && forall m | m in children :: m.runId in universe
    ensures var v := VisitAll(src, children, seen, universe);
      && NoDuplicates(v.order) && (forall x | x in v.order :: x !in seen)
      && (forall x :: x in v.seen <==> x in seen || x in v.order) && (forall m | m in children :: m.runId in v.seen)
      && (forall x, m | x in v.order && m in src.childRuns(x) :: m.runId in v.seen)
    decreases |universe - seen|, |children|
  {
    hide Visit, VisitAll, NoDuplicates;
    if |children| == 0 {
      VisitAllNone(src, seen, universe);
      NoDuplicatesEmpty<RunId>();
    } else {
      var first := Visit(src, children[0].runId, seen, universe);
      VisitOnce(src, children[0].runId, seen, universe);
      SmallerRest(universe, seen, first.seen);
      var rest := VisitAll(src, children[1..], first.seen, universe);
      VisitAllOnce(src, children[1..], first.seen, universe);
      VisitAllUnfold(src, children, seen, universe);
      NoDuplicatesAppend(first.order, rest.order);
      assert children == [children[0]] + children[1..];
    }
  }

  lemma VisitAllNone(src: JournalSource, seen: set<RunId>, universe: set<RunId>)
    requires Within(src, universe)
    ensures VisitAll(src, [], seen, universe) == Visited([], seen)
  {
  }

  lemma VisitAllUnfold(src: JournalSource, children: seq<RunMeta>, seen: set<RunId>, universe: set<RunId>)
    requires Within(src, universe) && (forall m | m in children :: m.runId in universe) && |children| > 0
    ensures var first := Visit(src, children[0].runId, seen, universe);
      var rest := VisitAll(src, children[1..], first.seen, universe);
      VisitAll(src, children, seen, universe) == Visited(first.order + rest.order, rest.seen)
  {
  }

  /** Sources that agree on the children of every visited run are visited alike. */
  lemma {:induction false} VisitAgree(a: JournalSource, b: JournalSource, r: RunId, seen: set<RunId>,
                                      universe: set<RunId>)
    requires Within(a, universe) && Within(b, universe) && r in universe
    requires forall x | x in Visit(a, r, seen, universe).order :: b.childRuns(x) == a.childRuns(x)
    ensures Visit(b, r, seen, universe) == Visit(a, r, seen, universe)
    decreases |universe - seen|, 0
  {
    if r !in seen {
      assert universe - (seen + {r}) == (universe - seen) - {r};
      VisitUnfold(a, r, seen, universe);
      VisitUnfold(b, r, seen, universe);
      hide Visit, VisitAll;
      assert r in Visit(a, r, seen, universe).order;
      VisitAllAgree(a, b, a.childRuns(r), seen + {r}, universe);
    }
  }

  lemma {:induction false} VisitAllAgree(a: JournalSource, b: JournalSource, children: seq<RunMeta>,
                                         seen: set<RunId>, universe: set<RunId>)
    requires Within(a, universe) && Within(b, universe) && forall m | m in children :: m.runId in universe
    requires forall x | x in VisitAll(a, children, seen, universe).order :: b.childRuns(x) == a.childRuns(x)
    ensures VisitAll(b, children, seen, universe) == VisitAll(a, children, seen, universe)
    decreases |universe - seen|, |children|
  {
    if |children| > 0 {
      VisitAllUnfold(a, children, seen, universe);
      VisitAllUnfold(b, children, seen, universe);
      hide Visit, VisitAll;
      var first := Visit(a, children[0].runId, seen, universe);
      VisitAgree(a, b, children[0].runId, seen, universe);
      SmallerRest(universe, seen, first.seen);
      VisitAllAgree(a, b, children[1..], first.seen, universe);
    }
  }
}
