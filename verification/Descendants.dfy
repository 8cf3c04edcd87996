/** What the depth-first visit of a fork forest reaches, and in which order. */
module Descendants {
  import opened EffectSink
  import opened Journal
  import opened Lineage
  import opened Ordering
  import opened Source
  import opened StepModel
  import opened Text
  import opened Wrappers

  /** The runs a visit from root can meet. */
  function Runs(db: Db, root: RunId): set<RunId> { db.metas.Keys + {root} }

  /** Direct forks are exactly the runs whose parent pointer names the run, each once, in order of creation. */
  lemma ChildRunsExact(db: Db, p: RunId)
    requires ValidDb(db)
    ensures forall m | m in ChildRuns(db, p) :: IsParent(db.metas, m.runId, p) && db.metas[m.runId] == m
    ensures forall c | IsParent(db.metas, c, p) :: db.metas[c] in ChildRuns(db, p)
    ensures forall i, j | 0 <= i < j < |ChildRuns(db, p)| ::
      MetaBefore(db.metas, ChildRuns(db, p)[i].runId, ChildRuns(db, p)[j].runId)
  {
    hide Ordered, MetaBefore;
    var S := ChildSet(db, p);
    OrderedExact(db, S);
    var ids, ms := Ordered(db, S), ChildRuns(db, p);
    forall c | IsParent(db.metas, c, p) ensures db.metas[c] in ms {
      assert c in ids;
      var i :| 0 <= i < |ids| && ids[i] == c;
      assert ms[i] == db.metas[c];
    }
    forall i, j | 0 <= i < j < |ms| ensures MetaBefore(db.metas, ms[i].runId, ms[j].runId) {
      assert ByCreation(db.metas)(ids[i], ids[j]);
    }
  }

  /** No two forks of one run have the same id. */
  lemma ChildrenDistinct(db: Db, p: RunId, i: int, j: int)
    requires ValidDb(db) && 0 <= i < j < |ChildRuns(db, p)|
    ensures ChildRuns(db, p)[i].runId != ChildRuns(db, p)[j].runId
  {
    ChildRunsExact(db, p);
    hide ChildRuns;
    var a := ChildRuns(db, p)[i].runId;
    LessIrreflexive(a);
    LessIrreflexive(db.metas[a].createdAt);
  }

  lemma LiveWithin(db: Db, sink: seq<EffectRow>, root: RunId)
    requires ValidDb(db)
    ensures Within(Live(db, sink), Runs(db, root))
  {
    hide ChildRuns;
    forall r, m | m in Live(db, sink).childRuns(r) ensures m.runId in Runs(db, root) {
      ChildRunsExact(db, r);
    }
  }

  lemma LiveChildren(db: Db, sink: seq<EffectRow>, r: RunId)
    ensures Live(db, sink).childRuns(r) == ChildRuns(db, r)
  {
  }

  // ---- The visit reaches the descendants, and nothing else ----

  lemma {:induction false} VisitSound(db: Db, sink: seq<EffectRow>, r: RunId, seen: set<RunId>, universe: set<RunId>)
    requires ValidDb(db) && Within(Live(db, sink), universe) && r in universe
    ensures forall x | x in Visit(Live(db, sink), r, seen, universe).order :: Descends(db.metas, x, r)
    decreases |universe - seen|, 0
  {
    hide ChildRuns, Descends, Live, ValidDb, Visit, VisitAll;
    LiveChildren(db, sink, r);
    ChildRunsExact(db, r);
    var src := Live(db, sink);
    if r in seen {
      VisitSeen(src, r, seen, universe);
    } else {
      VisitUnfold(src, r, seen, universe);
      assert universe - (seen + {r}) == (universe - seen) - {r};
      VisitAllSound(db, sink, ChildRuns(db, r), seen + {r}, universe);
      forall x | x in Visit(src, r, seen, universe).order ensures Descends(db.metas, x, r) {
        DescendsFromChild(db.metas, x, r);
      }
    }
  }

  lemma {:induction false} VisitAllSound(db: Db, sink: seq<EffectRow>, children: seq<RunMeta>, seen: set<RunId>,
                                         universe: set<RunId>)
    requires ValidDb(db) && Within(Live(db, sink), universe) && forall m | m in children :: m.runId in universe
    ensures forall x | x in VisitAll(Live(db, sink), children, seen, universe).order ::
      exists m | m in children :: Descends(db.metas, x, m.runId)
    decreases |universe - seen|, |children|
  {
    hide ChildRuns, Descends;
    if |children| > 0 {
      var first := Visit(Live(db, sink), children[0].runId, seen, universe);
      VisitSound(db, sink, children[0].runId, seen, universe);
      SmallerRest(universe, seen, first.seen);
      VisitAllSound(db, sink, children[1..], first.seen, universe);
      VisitAllUnfold(Live(db, sink), children, seen, universe);
      hide Visit, VisitAll;
      assert children[0] in children;
    }
  }

  lemma {:induction false} Reached(db: Db, sink: seq<EffectRow>, root: RunId, x: RunId, n: nat)
    requires ValidDb(db) && Within(Live(db, sink), Runs(db, root)) && Up(db.metas, x, n) == Some(root)
    ensures x in Visit(Live(db, sink), root, {}, Runs(db, root)).order
    decreases n
  {
    hide Visit, ChildRuns;
    var src := Live(db, sink);
    VisitOnce(src, root, {}, Runs(db, root));
    if n > 0 {
      var p := db.metas[x].parentRun.value;
      Reached(db, sink, root, p, n - 1);
      ChildRunsExact(db, p);
      assert IsParent(db.metas, x, p) && db.metas[x] in src.childRuns(p);
    }
  }

  /** The runs a bundle visits from root.  */
  function Bundled(db: Db, sink: seq<EffectRow>, root: RunId): seq<RunId>
    requires ValidDb(db)
  {
    LiveWithin(db, sink, root);
    Visit(Live(db, sink), root, {}, Runs(db, root)).order
  }

  /** The visit meets root and its descendants, each exactly once: also when parent pointers form cycles. */
  lemma BundledExactly(db: Db, sink: seq<EffectRow>, root: RunId)
    requires ValidDb(db)
    ensures NoDuplicates(Bundled(db, sink, root))
    ensures forall x :: x in Bundled(db, sink, root) <==> Descends(db.metas, x, root)
  {
    LiveWithin(db, sink, root);
    VisitOnce(Live(db, sink), root, {}, Runs(db, root));
    VisitSound(db, sink, root, {}, Runs(db, root));
    hide Visit;
    forall x | Descends(db.metas, x, root) ensures x in Bundled(db, sink, root) {
      var n: nat :| Up(db.metas, x, n) == Some(root);
      Reached(db, sink, root, x, n);
    }
  }

  // ---- In a forest the visit meets the forks of each run in order of creation ----

  /** The metadata of the listed runs, for those that have any. */
  function MetaList(db: Db, order: seq<RunId>): seq<RunMeta>
  {
    if |order| == 0 then []
    else (if order[0] in db.metas then [db.metas[order[0]]] else []) + MetaList(db, order[1..])
  }

  lemma {:induction false} MetaListAppend(db: Db, a: seq<RunId>, b: seq<RunId>)
    ensures MetaList(db, a + b) == MetaList(db, a) + MetaList(db, b)
  {
    if |a| == 0 {
      assert a + b == b;
    } else {
      MetaListAppend(db, a[1..], b);
      assert (a + b)[1..] == a[1..] + b && (a + b)[0] == a[0];
    }
  }

  function HasParent(p: RunId): RunMeta -> bool { (m: RunMeta) => m.parentRun == Some(p) }

  function ChildrenIn(db: Db, order: seq<RunId>, d: RunId): seq<RunMeta>
  {
    Filter(MetaList(db, order), HasParent(d))
  }

  lemma ChildrenInAppend(db: Db, a: seq<RunId>, b: seq<RunId>, d: RunId)
    ensures ChildrenIn(db, a + b, d) == ChildrenIn(db, a, d) + ChildrenIn(db, b, d)
  {
    MetaListAppend(db, a, b);
    FilterAppend(MetaList(db, a), MetaList(db, b), HasParent(d));
  }

  lemma ChildrenInNone(db: Db, d: RunId)
    ensures ChildrenIn(db, [], d) == []
  {
  }

  function Self(db: Db, r: RunId, d: RunId): seq<RunMeta>
  {
    if IsParent(db.metas, r, d) then [db.metas[r]] else []
  }

  lemma ChildrenInOne(db: Db, r: RunId, d: RunId)
    ensures ChildrenIn(db, [r], d) == Self(db, r, d)
  {
    assert MetaList(db, [r]) == if r in db.metas then [db.metas[r]] else [];
    if r in db.metas { assert Filter([db.metas[r]], HasParent(d)) == Self(db, r, d); }
  }

  ghost predicate Apart(db: Db, seen: set<RunId>, r: RunId)
  {
    forall x | x in seen :: !Descends(db.metas, x, r)
  }

  /** Some listed run has d below it. */
  ghost predicate Covers(db: Db, children: seq<RunMeta>, d: RunId)
  {
    exists m | m in children :: Descends(db.metas, d, m.runId)
  }

  /** Distinct children of p. */
  ghost predicate Siblings(db: Db, children: seq<RunMeta>, p: RunId)
  {
    && (forall m | m in children :: IsParent(db.metas, m.runId, p) && db.metas[m.runId] == m)
    && (forall i, j | 0 <= i < j < |children| :: children[i].runId != children[j].runId)
  }

  lemma CoversChildren(db: Db, r: RunId, d: RunId)
    requires ValidDb(db)
    ensures Descends(db.metas, d, r) <==> d == r || Covers(db, ChildRuns(db, r), d)
  {
    hide ChildRuns, Descends;
    ChildRunsExact(db, r);
    DescendsFromChild(db.metas, d, r);
    if c :| IsParent(db.metas, c, r) && Descends(db.metas, d, c) { assert db.metas[c] in ChildRuns(db, r); }
  }

  lemma ChildrenApart(db: Db, r: RunId, seen: set<RunId>)
    requires ValidDb(db) && Forest(db) && Apart(db, seen, r)
    ensures Siblings(db, ChildRuns(db, r), r)
    ensures forall m | m in ChildRuns(db, r) :: Apart(db, seen + {r}, m.runId)
  {
    hide ChildRuns, Descends;
    ChildRunsExact(db, r);
    forall i, j | 0 <= i < j < |ChildRuns(db, r)| ensures ChildRuns(db, r)[i].runId != ChildRuns(db, r)[j].runId {
      ChildrenDistinct(db, r, i, j);
    }
    forall m | m in ChildRuns(db, r) ensures Apart(db, seen + {r}, m.runId) {
      NotBelowChild(db.metas, r, m.runId);
      forall x | x in seen ensures !Descends(db.metas, x, m.runId) { DescendsFromChild(db.metas, x, r); }
    }
  }

  lemma {:induction false} VisitInOrder(db: Db, sink: seq<EffectRow>, r: RunId, seen: set<RunId>,
                                        universe: set<RunId>, d: RunId)
    requires ValidDb(db) && Forest(db) && Within(Live(db, sink), universe) && r in universe
    requires Apart(db, seen, r)
    ensures ChildrenIn(db, Visit(Live(db, sink), r, seen, universe).order, d)
      == Self(db, r, d) + if Descends(db.metas, d, r) then ChildRuns(db, d) else []
    decreases |universe - seen|, 0
  {
    hide ChildRuns, Descends, Forest, ChildrenIn, Live, ValidDb, Visit, VisitAll, Siblings, Covers, Self;
    LiveChildren(db, sink, r);
    assert r !in seen by { DescendsFromChild(db.metas, r, r); }
    VisitUnfold(Live(db, sink), r, seen, universe);
    assert universe - (seen + {r}) == (universe - seen) - {r};
    ChildrenApart(db, r, seen);
    var children := ChildRuns(db, r);
    VisitAllInOrder(db, sink, children, r, seen + {r}, universe, d);
    var below := VisitAll(Live(db, sink), children, seen + {r}, universe);
    ChildrenInAppend(db, [r], below.order, d);
    ChildrenInOne(db, r, d);
    CoversChildren(db, r, d);
    if d == r { NotCovered(db, r); }
  }

  lemma NotCovered(db: Db, r: RunId)
    requires ValidDb(db) && Forest(db)
    ensures !Covers(db, ChildRuns(db, r), r)
  {
    hide ChildRuns, Descends;
    ChildRunsExact(db, r);
    forall m | m in ChildRuns(db, r) ensures !Descends(db.metas, r, m.runId) { NotBelowChild(db.metas, r, m.runId); }
  }

  lemma SiblingsRest(db: Db, children: seq<RunMeta>, p: RunId, x: RunId)
    requires Forest(db) && Siblings(db, children, p) && |children| > 0
    requires Descends(db.metas, x, children[0].runId)
    ensures !Covers(db, children[1..], x)
  {
    hide Descends;
    forall m | m in children[1..] ensures !Descends(db.metas, x, m.runId) {
      var i :| 0 <= i < |children[1..]| && children[1..][i] == m;
      assert children[i + 1] == m && children[0] in children;
      if Descends(db.metas, x, m.runId) { SiblingsApart(db.metas, x, children[0].runId, m.runId, p); }
    }
  }

  lemma {:induction false} VisitAllInOrder(db: Db, sink: seq<EffectRow>, children: seq<RunMeta>, p: RunId,
      seen: set<RunId>, universe: set<RunId>, d: RunId)
    requires ValidDb(db) && Forest(db) && Within(Live(db, sink), universe)
      && forall m | m in children :: m.runId in universe
    requires Siblings(db, children, p) && forall m | m in children :: Apart(db, seen, m.runId)
    ensures ChildrenIn(db, VisitAll(Live(db, sink), children, seen, universe).order, d)
      == (if d == p then children else []) + if Covers(db, children, d) then ChildRuns(db, d) else []
    decreases |universe - seen|, |children|
  {
    hide ChildRuns, Descends, Forest, ChildrenIn, Live, ValidDb, Self;
    if |children| == 0 {
      ChildrenInNone(db, d);
    } else {
      var c, rest := children[0].runId, children[1..];
      var first := Visit(Live(db, sink), c, seen, universe);
      VisitAllUnfold(Live(db, sink), children, seen, universe);
      hide Visit, VisitAll;
      VisitInOrder(db, sink, c, seen, universe, d);
      RestApart(db, sink, children, p, seen, universe);
      SmallerRest(universe, seen, first.seen);
      VisitAllInOrder(db, sink, rest, p, first.seen, universe, d);
      hide Siblings, Apart;
      var more := VisitAll(Live(db, sink), rest, first.seen, universe);
      ChildrenInAppend(db, first.order, more.order, d);
      CoversFirst(db, children, p, d);
      SelfOf(db, children, p, d);
    }
  }

  lemma SelfOf(db: Db, children: seq<RunMeta>, p: RunId, d: RunId)
    requires |children| > 0 && Siblings(db, children, p)
    ensures Self(db, children[0].runId, d) == if d == p then [children[0]] else []
    ensures children == [children[0]] + children[1..]
  {
    assert children[0] in children;
  }

  /** What lies below the first of some siblings lies below none of the others, and is not their parent. */
  lemma CoversFirst(db: Db, children: seq<RunMeta>, p: RunId, d: RunId)
    requires Forest(db) && Siblings(db, children, p) && |children| > 0
    ensures Covers(db, children, d) <==> Descends(db.metas, d, children[0].runId) || Covers(db, children[1..], d)
    ensures Descends(db.metas, d, children[0].runId) ==> !Covers(db, children[1..], d)
    ensures Covers(db, children, d) ==> d != p
  {
    hide Descends;
    assert children == [children[0]] + children[1..];
    if Descends(db.metas, d, children[0].runId) { SiblingsRest(db, children, p, d); }
    if m :| m in children && Descends(db.metas, d, m.runId) {
      if d == p { NotBelowChild(db.metas, p, m.runId); }
    }
  }

  lemma RestApart(db: Db, sink: seq<EffectRow>, children: seq<RunMeta>, p: RunId, seen: set<RunId>,
                  universe: set<RunId>)
    requires ValidDb(db) && Forest(db) && Within(Live(db, sink), universe) && |children| > 0
      && children[0].runId in universe
    requires Siblings(db, children, p) && forall m | m in children :: Apart(db, seen, m.runId)
    ensures var first := Visit(Live(db, sink), children[0].runId, seen, universe);
      forall m | m in children[1..] :: Apart(db, first.seen, m.runId)
    ensures Siblings(db, children[1..], p)
  {
    hide ChildRuns, Descends, Forest, Live, ValidDb, Visit, VisitAll;
    var first := Visit(Live(db, sink), children[0].runId, seen, universe);
    VisitOnce(Live(db, sink), children[0].runId, seen, universe);
    VisitSound(db, sink, children[0].runId, seen, universe);
    forall m | m in children[1..] ensures Apart(db, first.seen, m.runId) {
      assert m in children;
      forall x | x in first.seen ensures !Descends(db.metas, x, m.runId) {
        if x in first.order { SiblingsRest(db, children, p, x); }
      }
    }
  }

  /** In a forest, the bundle meets the forks of each run it visits in the order the live store lists them. */
  lemma BundledInOrder(db: Db, sink: seq<EffectRow>, root: RunId, d: RunId)
    requires ValidDb(db) && Forest(db) && d in Bundled(db, sink, root)
    ensures ChildrenIn(db, Bundled(db, sink, root), d) == ChildRuns(db, d)
  {
    LiveWithin(db, sink, root);
    BundledExactly(db, sink, root);
    VisitInOrder(db, sink, root, {}, Runs(db, root), d);
    hide Visit, Descends, ChildRuns, ChildrenIn;
    if IsParent(db.metas, root, d) { NotBelowChild(db.metas, d, root); }
  }
}
