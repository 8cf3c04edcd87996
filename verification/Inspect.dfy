/** Lineage and fork trees over any source. */
module Inspect {
  import opened Descendants
  import opened EffectSink
  import opened Journal
  import opened Lineage
  import opened Source
  import opened StepModel
  import opened Wrappers

  // ---- Lineage ----

  datatype LineageNode = LineageNode(runId: RunId, trajectory: string, parentRun: Option<RunId>,
      forkedAtSeq: Option<nat>)

  function NodeOf(m: RunMeta): LineageNode { LineageNode(m.runId, m.trajectory, m.parentRun, m.forkedAtSeq) }

  /** Only finitely many runs have metadata. */
  ghost predicate Known(src: JournalSource, universe: set<RunId>)
  {
    forall r | src.runMeta(r).Some? :: r in universe
  }

  /** The chain of parents from `cur` upward, nearest first. It ends on every source: at a run
      without metadata, at a root, at an empty id, or where a pointer leads back into the chain. */
  function Chain(src: JournalSource, cur: Option<RunId>, seen: set<RunId>, ghost universe: set<RunId>): seq<LineageNode>
    requires Known(src, universe)
    decreases |universe - seen|
  {
    if cur.None? || cur.value == "" || cur.value in seen then []
    else match src.runMeta(cur.value)
      case None => []
      case Some(m) =>
        assert universe - (seen + {cur.value}) == (universe - seen) - {cur.value};
        [NodeOf(m)] + Chain(src, m.parentRun, seen + {cur.value}, universe)
  }

  function Reversed<T>(s: seq<T>): (t: seq<T>)
    ensures |t| == |s| && forall i | 0 <= i < |s| :: t[i] == s[|s| - 1 - i]
  {
    if |s| == 0 then [] else Reversed(s[1..]) + [s[0]]
  }

  lemma ChainDone(src: JournalSource, cur: Option<RunId>, seen: set<RunId>, universe: set<RunId>)
    requires Known(src, universe) && (cur.None? || cur.value == "" || cur.value in seen || src.runMeta(cur.value).None?)
    ensures Chain(src, cur, seen, universe) == []
  {
  }

  /** A node of a chain shows the metadata of its run, as far as the source files metadata under its run. */
  ghost predicate NodeOk(src: JournalSource, n: LineageNode)
  {
    exists m :: src.runMeta(n.runId) == Some(m)
      && n.trajectory == m.trajectory && n.parentRun == m.parentRun && n.forkedAtSeq == m.forkedAtSeq
  }

  /** Node i is the run that the parent pointer of the node before names. */
  predicate ParentAt(chain: seq<LineageNode>, i: nat)
  {
    0 < i < |chain| ==> chain[i - 1].parentRun == Some(chain[i].runId)
  }

  /** The parent pointer of node i names the run of the node before. */
  predicate ChildAt(chain: seq<LineageNode>, i: nat)
  {
    0 < i < |chain| ==> chain[i].parentRun == Some(chain[i - 1].runId)
  }

  ghost predicate FiledById(src: JournalSource) { forall r | src.runMeta(r).Some? :: src.runMeta(r).value.runId == r }

  lemma FewerUnseen(src: JournalSource, r: RunId, seen: set<RunId>, universe: set<RunId>)
    requires Known(src, universe) && src.runMeta(r).Some? && r !in seen
    ensures |universe - (seen + {r})| < |universe - seen|
  {
    assert universe - (seen + {r}) == (universe - seen) - {r};
  }

  lemma LinkBefore(src: JournalSource, n: LineageNode, rest: seq<LineageNode>)
    requires NodeOk(src, n) && (forall i | 0 <= i < |rest| :: NodeOk(src, rest[i]))
    requires (forall i: nat :: ParentAt(rest, i)) && (|rest| > 0 ==> n.parentRun == Some(rest[0].runId))
    ensures forall i | 0 <= i < |[n] + rest| :: NodeOk(src, ([n] + rest)[i])
    ensures forall i: nat :: ParentAt([n] + rest, i)
  {
    hide NodeOk;
    forall i: nat ensures ParentAt([n] + rest, i) {
      if i > 0 { assert ParentAt(rest, i - 1); }
    }
  }

  /** Every node of a chain shows its run's metadata, and each next node is the one its parent pointer names. */
  lemma {:induction false} ChainLinks(src: JournalSource, cur: Option<RunId>, seen: set<RunId>, universe: set<RunId>)
    requires Known(src, universe) && FiledById(src)
    ensures var chain := Chain(src, cur, seen, universe);
      && (forall i | 0 <= i < |chain| :: NodeOk(src, chain[i]))
      && (forall i: nat :: ParentAt(chain, i))
      && (|chain| > 0 ==> cur == Some(chain[0].runId))
    decreases |universe - seen|
  {
    if !(cur.None? || cur.value == "" || cur.value in seen) && src.runMeta(cur.value).Some? {
      var m := src.runMeta(cur.value).value;
      FewerUnseen(src, cur.value, seen, universe);
      ChainUnfold(src, cur.value, seen, universe);
      ChainLinks(src, m.parentRun, seen + {cur.value}, universe);
      assert NodeOk(src, NodeOf(m));
      hide Chain, NodeOk, Known, FiledById, ParentAt;
      LinkBefore(src, NodeOf(m), Chain(src, m.parentRun, seen + {cur.value}, universe));
    } else {
      ChainDone(src, cur, seen, universe);
    }
  }

  /** The last node is the run itself, and each node before is the parent of the next. */
  ghost predicate RootFirst(src: JournalSource, chain: seq<LineageNode>, r: RunId)
  {
    && (forall i | 0 <= i < |chain| :: NodeOk(src, chain[i]))
    && (forall i: nat :: ChildAt(chain, i))
    && (|chain| > 0 ==> chain[|chain| - 1].runId == r)
  }

  lemma ChainRootFirst(src: JournalSource, r: RunId, universe: set<RunId>)
    requires Known(src, universe) && FiledById(src)
    ensures RootFirst(src, Reversed(Chain(src, Some(r), {}, universe)), r)
  {
    hide Chain, RootFirst, NodeOk, FiledById, Known;
    ChainLinks(src, Some(r), {}, universe);
    LinksReversed(src, Chain(src, Some(r), {}, universe), r);
  }

  lemma LinksReversed(src: JournalSource, chain: seq<LineageNode>, r: RunId)
    requires forall i | 0 <= i < |chain| :: NodeOk(src, chain[i])
    requires forall i: nat :: ParentAt(chain, i)
    requires |chain| > 0 ==> chain[0].runId == r
    ensures RootFirst(src, Reversed(chain), r)
  {
    hide NodeOk, ParentAt, Reversed;
    var back := Reversed(chain);
    forall i: nat ensures ChildAt(back, i) {
      if 0 < i < |back| { LinkReversed(chain, back, i); }
    }
  }

  lemma LinkReversed(chain: seq<LineageNode>, back: seq<LineageNode>, i: nat)
    requires 0 < i < |back| == |chain| && ParentAt(chain, |chain| - i)
    requires back[i] == chain[|chain| - 1 - i] && back[i - 1] == chain[|chain| - i]
    ensures ChildAt(back, i)
  {
  }

  lemma ChainNext(src: JournalSource, x: RunId, seen: set<RunId>, universe: set<RunId>, chain: seq<LineageNode>)
    requires Known(src, universe) && x != "" && x !in seen && src.runMeta(x).Some?
    ensures var m := src.runMeta(x).value;
      chain + Chain(src, Some(x), seen, universe)
        == (chain + [NodeOf(m)]) + Chain(src, m.parentRun, seen + {x}, universe)
  {
    ChainUnfold(src, x, seen, universe);
    hide Chain, Known, NodeOf;
  }

  method LineageFrom(src: JournalSource, r: RunId, ghost universe: set<RunId>) returns (chain: seq<LineageNode>)
    requires Known(src, universe)
    ensures chain == Reversed(Chain(src, Some(r), {}, universe))
    ensures FiledById(src) ==> RootFirst(src, chain, r)
  {
    if FiledById(src) { ChainRootFirst(src, r, universe); }
    hide Chain, RootFirst, FiledById, NodeOf, Reversed, Known;
    chain := [];
    var seen: set<RunId>, cur := {}, Some(r);
    while cur.Some? && cur.value != "" && cur.value !in seen
      invariant Chain(src, Some(r), {}, universe) == chain + Chain(src, cur, seen, universe)
      decreases |universe - seen|
    {
      var m := src.runMeta(cur.value);
      if m.None? {
        ChainDone(src, cur, seen, universe);
        break;
      }
      ChainNext(src, cur.value, seen, universe, chain);
      FewerUnseen(src, cur.value, seen, universe);
      seen := seen + {cur.value};
      chain := chain + [NodeOf(m.value)];
      cur := m.value.parentRun;
    }
    ChainDone(src, cur, seen, universe);
    assert chain + [] == chain;
    chain := Reversed(chain);
  }

  ghost predicate InChain(chain: seq<LineageNode>, r: RunId) { exists n | n in chain :: n.runId == r }

  lemma LiveKnown(db: Db, sink: seq<EffectRow>)
    ensures Known(Live(db, sink), db.metas.Keys)
  {
  }

  function LiveLineage(db: Db, sink: seq<EffectRow>, r: RunId): seq<LineageNode>
  {
    LiveKnown(db, sink);
    Reversed(Chain(Live(db, sink), Some(r), {}, db.metas.Keys))
  }

  /** In a forest the chain from x holds exactly the runs with metadata that x descends from. */
  lemma {:induction false} ChainExact(db: Db, sink: seq<EffectRow>, x: RunId, seen: set<RunId>, a: RunId)
    requires ValidDb(db) && Forest(db) && "" !in db.metas && Known(Live(db, sink), db.metas.Keys)
    requires forall y | y in seen :: !Descends(db.metas, x, y)
    requires a in db.metas
    ensures InChain(Chain(Live(db, sink), Some(x), seen, db.metas.Keys), a) <==> Descends(db.metas, x, a)
    decreases |db.metas.Keys - seen|
  {
    hide Chain, InChain, Descends, Live, ValidDb;
    assert Descends(db.metas, x, x) by { DescendsFromParent(db.metas, x, x); }
    DescendsFromParent(db.metas, x, a);
    ChainStep(db, sink, x, seen, a);
    if x in db.metas && db.metas[x].parentRun.Some? {
      var p := db.metas[x].parentRun.value;
      var universe := db.metas.Keys;
      assert universe - (seen + {x}) == (universe - seen) - {x};
      NotBelowChild(db.metas, p, x);
      forall y | y in seen + {x} ensures !Descends(db.metas, p, y) { DescendsFromParent(db.metas, x, y); }
      ChainExact(db, sink, p, seen + {x}, a);
    }
  }

  lemma ChainStep(db: Db, sink: seq<EffectRow>, x: RunId, seen: set<RunId>, a: RunId)
    requires ValidDb(db) && "" !in db.metas && Known(Live(db, sink), db.metas.Keys) && x !in seen
    ensures InChain(Chain(Live(db, sink), Some(x), seen, db.metas.Keys), a) <==>
      x in db.metas
      && (a == x || InChain(Chain(Live(db, sink), db.metas[x].parentRun, seen + {x}, db.metas.Keys), a))
    ensures !InChain(Chain(Live(db, sink), None, seen + {x}, db.metas.Keys), a)
  {
    var src, universe := Live(db, sink), db.metas.Keys;
    ChainDone(src, None, seen + {x}, universe);
    if x in db.metas {
      var rest := Chain(src, db.metas[x].parentRun, seen + {x}, universe);
      ChainUnfold(src, x, seen, universe);
      hide Chain;
      var all := [NodeOf(db.metas[x])] + rest;
      assert all[0] in all && forall n | n in rest :: n in all;
    } else {
      ChainDone(src, Some(x), seen, universe);
    }
  }

  lemma ChainUnfold(src: JournalSource, x: RunId, seen: set<RunId>, universe: set<RunId>)
    requires Known(src, universe) && x != "" && x !in seen && src.runMeta(x).Some?
    ensures Chain(src, Some(x), seen, universe)
      == [NodeOf(src.runMeta(x).value)] + Chain(src, src.runMeta(x).value.parentRun, seen + {x}, universe)
  {
  }

  /** Following one pointer from x: what x descends from is x itself and what its parent descends from. */
  lemma DescendsFromParent(metas: map<RunId, RunMeta>, x: RunId, a: RunId)
    ensures Descends(metas, x, a)
      <==> x == a || (x in metas && metas[x].parentRun.Some? && Descends(metas, metas[x].parentRun.value, a))
  {
    if x == a { assert Up(metas, x, 0) == Some(a); }
    if n: nat :| Up(metas, x, n) == Some(a) {
      if n > 0 { assert Up(metas, metas[x].parentRun.value, n - 1) == Some(a); }
    }
    if x in metas && metas[x].parentRun.Some? && Descends(metas, metas[x].parentRun.value, a) {
      var n: nat :| Up(metas, metas[x].parentRun.value, n) == Some(a);
      assert Up(metas, x, n + 1) == Some(a);
    }
  }

  lemma ReversedMembers<T>(s: seq<T>, x: T)
    ensures x in Reversed(s) <==> x in s
  {
    var t := Reversed(s);
    if x in s {
      var i :| 0 <= i < |s| && s[i] == x;
      assert t[|s| - 1 - i] == x;
    }
    if x in t { var i :| 0 <= i < |t| && t[i] == x; }
  }

  // ---- Fork trees ----

  datatype TreeNode = TreeNode(runId: RunId, trajectory: string, forkedAtSeq: Option<nat>, children: seq<TreeNode>)

  const TREE_LIMIT := 10000

  /** A node without children; a run without metadata still gets one. */
  function Leaf(src: JournalSource, r: RunId): TreeNode
  {
    match src.runMeta(r)
    case Some(m) => TreeNode(r, m.trajectory, m.forkedAtSeq, [])
    case None => TreeNode(r, "(unknown)", None, [])
  }

  datatype Built = Built(node: TreeNode, seen: set<RunId>)
  datatype BuiltAll = BuiltAll(nodes: seq<TreeNode>, seen: set<RunId>)

  /** The descendant tree: a run met before, or met after more than 10,000 others, stays a leaf. */
  function Tree(src: JournalSource, r: RunId, seen: set<RunId>, ghost universe: set<RunId>): (b: Built)
    requires Within(src, universe) && r in universe
    ensures seen <= b.seen
    decreases |universe - seen|, 0
  {
    if r in seen || |seen| > TREE_LIMIT then Built(Leaf(src, r), seen)
    else
      assert universe - (seen + {r}) == (universe - seen) - {r};
      var below := TreeAll(src, src.childRuns(r), seen + {r}, universe);
      Built(Leaf(src, r).(children := below.nodes), below.seen)
  }

  function TreeAll(src: JournalSource, children: seq<RunMeta>, seen: set<RunId>,
                   ghost universe: set<RunId>): (b: BuiltAll)
    requires Within(src, universe) && forall m | m in children :: m.runId in universe
    ensures seen <= b.seen
    decreases |universe - seen|, |children|
  {
    if |children| == 0 then BuiltAll([], seen)
    else
      var first := Tree(src, children[0].runId, seen, universe);
      SmallerRest(universe, seen, first.seen);
      var rest := TreeAll(src, children[1..], first.seen, universe);
      BuiltAll([first.node] + rest.nodes, rest.seen)
  }

  /** The run ids of a tree, parents before children. */
  function Ids(node: TreeNode): (ids: seq<RunId>)
    ensures |ids| > 0
  {
    [node.runId] + IdsAll(node.children)
  }

  function IdsAll(nodes: seq<TreeNode>): seq<RunId>
  {
    if |nodes| == 0 then [] else Ids(nodes[0]) + IdsAll(nodes[1..])
  }

  lemma TreeUnfold(src: JournalSource, r: RunId, seen: set<RunId>, universe: set<RunId>)
    requires Within(src, universe) && r in universe && r !in seen && |seen| <= TREE_LIMIT
    ensures var below := TreeAll(src, src.childRuns(r), seen + {r}, universe);
      Tree(src, r, seen, universe) == Built(Leaf(src, r).(children := below.nodes), below.seen)
  {
  }

  lemma TreeAllUnfold(src: JournalSource, children: seq<RunMeta>, seen: set<RunId>, universe: set<RunId>)
    requires Within(src, universe) && (forall m | m in children :: m.runId in universe) && |children| > 0
    ensures var first := Tree(src, children[0].runId, seen, universe);
      var rest := TreeAll(src, children[1..], first.seen, universe);
      TreeAll(src, children, seen, universe) == BuiltAll([first.node] + rest.nodes, rest.seen)
  {
  }

  lemma TreeAllNone(src: JournalSource, seen: set<RunId>, universe: set<RunId>)
    requires Within(src, universe)
    ensures TreeAll(src, [], seen, universe) == BuiltAll([], seen)
  {
  }

  /** A node shows its run's metadata, or that there is none, and its children, when it was expanded, are its
      run's forks, in order; and so do all nodes below it. */
  ghost predicate TreeOk(src: JournalSource, node: TreeNode)
  {
    && (match src.runMeta(node.runId)
        case Some(m) => node.trajectory == m.trajectory && node.forkedAtSeq == m.forkedAtSeq
        case None => node.trajectory == "(unknown)" && node.forkedAtSeq == None)
    && (node.children == [] || |node.children| == |src.childRuns(node.runId)|)
    && forall i | 0 <= i < |node.children| ::
         (i < |src.childRuns(node.runId)| ==> node.children[i].runId == src.childRuns(node.runId)[i].runId)
         && TreeOk(src, node.children[i])
  }

  lemma {:induction false} TreeShows(src: JournalSource, r: RunId, seen: set<RunId>, universe: set<RunId>)
    requires Within(src, universe) && r in universe
    ensures var node := Tree(src, r, seen, universe).node; node.runId == r && TreeOk(src, node)
    ensures r in seen || |seen| > 10000 ==> Tree(src, r, seen, universe).node.children == []
    decreases |universe - seen|, 0
  {
    if r in seen || |seen| > TREE_LIMIT {
      hide TreeAll;
    } else {
      assert universe - (seen + {r}) == (universe - seen) - {r};
      TreeUnfold(src, r, seen, universe);
      hide Tree, TreeAll;
      TreeAllShows(src, src.childRuns(r), seen + {r}, universe);
    }
  }

  lemma {:induction false} TreeAllShows(src: JournalSource, children: seq<RunMeta>, seen: set<RunId>,
                                        universe: set<RunId>)
    requires Within(src, universe) && forall m | m in children :: m.runId in universe
    ensures var nodes := TreeAll(src, children, seen, universe).nodes;
      |nodes| == |children| && forall i | 0 <= i < |nodes| ::
        nodes[i].runId == children[i].runId && TreeOk(src, nodes[i])
    decreases |universe - seen|, |children|
  {
    if |children| == 0 {
      TreeAllNone(src, seen, universe);
    } else {
      TreeAllUnfold(src, children, seen, universe);
      hide TreeAll, TreeOk;
      var first := Tree(src, children[0].runId, seen, universe);
      SmallerRest(universe, seen, first.seen);
      TreeShows(src, children[0].runId, seen, universe);
      hide Tree;
      TreeAllShows(src, children[1..], first.seen, universe);
    }
  }

  /** The recursion that marks runs as seen and pushes children onto nodes. */
  class TreeBuilder {
    var seen: set<RunId>

    constructor ()
      ensures seen == {}
    {
      seen := {};
    }

    method Build(src: JournalSource, r: RunId, ghost universe: set<RunId>) returns (node: TreeNode)
      requires Within(src, universe) && r in universe
      modifies this
      ensures Built(node, seen) == Tree(src, r, old(seen), universe)
      decreases |universe - seen|, 0
    {
      node := Leaf(src, r);
      if r in seen || |seen| > TREE_LIMIT { return; }
      hide TreeAll, Leaf;
      assert universe - (seen + {r}) == (universe - seen) - {r};
      seen := seen + {r};
      var children := BuildAll(src, src.childRuns(r), universe);
      node := node.(children := children);
    }

    method BuildAll(src: JournalSource, children: seq<RunMeta>, ghost universe: set<RunId>)
      returns (nodes: seq<TreeNode>)
      requires Within(src, universe) && forall m | m in children :: m.runId in universe
      modifies this
      ensures BuiltAll(nodes, seen) == TreeAll(src, children, old(seen), universe)
      decreases |universe - seen|, 1
    {
      hide Tree, TreeAll;
      nodes := [];
      ghost var start, all := seen, TreeAll(src, children, seen, universe);
      for i := 0 to |children|
        invariant start <= seen
        invariant var rest := TreeAll(src, children[i..], seen, universe);
          all == BuiltAll(nodes + rest.nodes, rest.seen)
      {
        assert children[i..][0] == children[i] && children[i..][1..] == children[i + 1..];
        TreeAllUnfold(src, children[i..], seen, universe);
        SmallerRest(universe, start, seen);
        var node := Build(src, children[i].runId, universe);
        nodes := nodes + [node];
      }
      TreeAllNone(src, seen, universe);
      assert children[|children|..] == [] && nodes + [] == nodes;
    }
  }

  // ---- Which trees list everything the visit meets ----

  lemma {:induction false} VisitSize(src: JournalSource, r: RunId, seen: set<RunId>, universe: set<RunId>)
    requires Within(src, universe) && r in universe
    ensures var v := Visit(src, r, seen, universe); |v.seen| == |seen| + |v.order| && (r !in seen ==> |v.order| > 0)
    decreases |universe - seen|, 0
  {
    hide Visit, VisitAll;
    if r in seen {
      VisitSeen(src, r, seen, universe);
    } else {
      assert universe - (seen + {r}) == (universe - seen) - {r};
      VisitUnfold(src, r, seen, universe);
      VisitAllSize(src, src.childRuns(r), seen + {r}, universe);
    }
  }

  lemma {:induction false} VisitAllSize(src: JournalSource, children: seq<RunMeta>, seen: set<RunId>,
                                        universe: set<RunId>)
    requires Within(src, universe) && forall m | m in children :: m.runId in universe
    ensures var v := VisitAll(src, children, seen, universe);
      |v.seen| == |seen| + |v.order| && (|children| > 0 && children[0].runId !in seen ==> |v.order| > 0)
    decreases |universe - seen|, |children|
  {
    hide Visit, VisitAll;
    if |children| == 0 {
      VisitAllNone(src, seen, universe);
    } else {
      var first := Visit(src, children[0].runId, seen, universe);
      VisitAllUnfold(src, children, seen, universe);
      VisitSize(src, children[0].runId, seen, universe);
      SmallerRest(universe, seen, first.seen);
      VisitAllSize(src, children[1..], first.seen, universe);
    }
  }

  /** The runs the tree has expanded, against the runs the visit has seen: the same until the limit
      is passed, and no more of them from then on. */
  ghost predicate InStep(seen: set<RunId>, expanded: set<RunId>)
  {
    if |seen| <= TREE_LIMIT + 1 then expanded == seen else |expanded| == TREE_LIMIT + 1
  }

  /** No run visited after the first 10,001 has forks. `base` runs were visited before these. */
  predicate Childless(db: Db, order: seq<RunId>, base: nat)
  {
    forall i | 0 <= i < |order| && base + i > TREE_LIMIT :: ChildRuns(db, order[i]) == []
  }

  lemma ChildlessAppend(db: Db, a: seq<RunId>, b: seq<RunId>, base: nat)
    ensures Childless(db, a + b, base) <==> Childless(db, a, base) && Childless(db, b, base + |a|)
  {
    hide ChildRuns;
    if Childless(db, a + b, base) {
      forall i | 0 <= i < |a| && base + i > TREE_LIMIT ensures ChildRuns(db, a[i]) == [] { assert (a + b)[i] == a[i]; }
      forall i | 0 <= i < |b| && base + |a| + i > TREE_LIMIT ensures ChildRuns(db, b[i]) == [] {
        assert (a + b)[|a| + i] == b[i];
      }
    }
  }

  /** The ids of a tree are those of the visit, or there are fewer of them. */
  ghost predicate Lists(ids: seq<RunId>, order: seq<RunId>, complete: bool)
  {
    (ids == order || |ids| < |order|) && (ids == order <==> complete)
  }

  lemma ListsAppend(a: seq<RunId>, b: seq<RunId>, c: seq<RunId>, d: seq<RunId>, p: bool, q: bool)
    requires Lists(a, b, p) && Lists(c, d, q)
    ensures Lists(a + c, b + d, p && q)
  {
    if |a + c| == |b + d| { assert a == b && c == d; } else { assert |a + c| < |b + d|; }
  }

  lemma TreeLeaf(src: JournalSource, r: RunId, seen: set<RunId>, universe: set<RunId>)
    requires Within(src, universe) && r in universe && |seen| > TREE_LIMIT
    ensures Tree(src, r, seen, universe).seen == seen && Ids(Tree(src, r, seen, universe).node) == [r]
  {
  }

  lemma LeafIds(src: JournalSource, r: RunId, nodes: seq<TreeNode>)
    ensures Ids(Leaf(src, r).(children := nodes)) == [r] + IdsAll(nodes)
  {
  }

  lemma {:induction false} TreeInForest(db: Db, sink: seq<EffectRow>, r: RunId, seen: set<RunId>,
                                        expanded: set<RunId>, universe: set<RunId>)
    requires ValidDb(db) && Forest(db) && Within(Live(db, sink), universe) && r in universe
    requires Apart(db, seen, r) && InStep(seen, expanded)
    ensures var b, v := Tree(Live(db, sink), r, expanded, universe), Visit(Live(db, sink), r, seen, universe);
      InStep(v.seen, b.seen) && Lists(Ids(b.node), v.order, Childless(db, v.order, |seen|))
    decreases |universe - seen|, 0
  {
    hide Visit, VisitAll, Tree, TreeAll, Live, ValidDb, Forest, ChildRuns, Siblings, Descends, Leaf, Ids, Childless;
    var src := Live(db, sink);
    LiveChildren(db, sink, r);
    assert r !in seen by { DescendsFromParent(db.metas, r, r); }
    VisitUnfold(src, r, seen, universe);
    VisitSize(src, r, seen, universe);
    var children := ChildRuns(db, r);
    var below := VisitAll(src, children, seen + {r}, universe);
    ChildlessAppend(db, [r], below.order, |seen|);
    ChildlessOne(db, r, |seen|);
    ChildrenApart(db, r, seen);
    if |seen| <= TREE_LIMIT {
      TreeUnfold(src, r, expanded, universe);
      assert universe - (seen + {r}) == (universe - seen) - {r};
      TreeAllInForest(db, sink, children, r, seen + {r}, expanded + {r}, universe);
      LeafIds(src, r, TreeAll(src, children, expanded + {r}, universe).nodes);
      ListsAppend([r], [r], IdsAll(TreeAll(src, children, expanded + {r}, universe).nodes), below.order, true,
        Childless(db, below.order, |seen| + 1));
    } else {
      TreeLeaf(src, r, expanded, universe);
      LeafLists(db, sink, r, seen, universe);
    }
  }

  lemma ChildlessOne(db: Db, r: RunId, base: nat)
    ensures Childless(db, [r], base) <==> base <= TREE_LIMIT || ChildRuns(db, r) == []
  {
    hide ChildRuns;
    if Childless(db, [r], base) && base > TREE_LIMIT { assert ChildRuns(db, [r][0]) == []; }
  }

  /** Past the limit a run stays a leaf, which is all there is exactly when it has no forks. */
  lemma LeafLists(db: Db, sink: seq<EffectRow>, r: RunId, seen: set<RunId>, universe: set<RunId>)
    requires ValidDb(db) && Forest(db) && Within(Live(db, sink), universe) && r in universe && Apart(db, seen, r)
      && |seen| > TREE_LIMIT
    ensures var order := Visit(Live(db, sink), r, seen, universe).order; Lists([r], order, Childless(db, order, |seen|))
  {
    hide Visit, VisitAll, Live, ValidDb, Forest, ChildRuns, Siblings, Descends, Childless;
    var src, children := Live(db, sink), ChildRuns(db, r);
    LiveChildren(db, sink, r);
    assert r !in seen by { DescendsFromParent(db.metas, r, r); }
    VisitUnfold(src, r, seen, universe);
    var below := VisitAll(src, children, seen + {r}, universe);
    ChildlessAppend(db, [r], below.order, |seen|);
    ChildlessOne(db, r, |seen|);
    if children == [] {
      VisitAllNone(src, seen + {r}, universe);
      ChildlessNone(db, |seen| + 1);
    } else {
      ChildrenApart(db, r, seen);
      FirstChildNew(db, r, seen);
      VisitAllSize(src, children, seen + {r}, universe);
    }
  }

  lemma ChildlessNone(db: Db, base: nat)
    ensures Childless(db, [], base)
  {
  }

  lemma FirstChildNew(db: Db, r: RunId, seen: set<RunId>)
    requires ChildRuns(db, r) != [] && forall m | m in ChildRuns(db, r) :: Apart(db, seen + {r}, m.runId)
    ensures ChildRuns(db, r)[0].runId !in seen + {r}
  {
    hide ChildRuns, Descends;
    var c := ChildRuns(db, r)[0].runId;
    DescendsFromParent(db.metas, c, c);
    assert ChildRuns(db, r)[0] in ChildRuns(db, r);
  }

  lemma {:induction false} TreeAllInForest(db: Db, sink: seq<EffectRow>, children: seq<RunMeta>, p: RunId,
      seen: set<RunId>, expanded: set<RunId>, universe: set<RunId>)
    requires ValidDb(db) && Forest(db) && Within(Live(db, sink), universe)
      && forall m | m in children :: m.runId in universe
    requires Siblings(db, children, p) && (forall m | m in children :: Apart(db, seen, m.runId))
      && InStep(seen, expanded)
    ensures var b, v := TreeAll(Live(db, sink), children, expanded, universe),
      VisitAll(Live(db, sink), children, seen, universe);
      InStep(v.seen, b.seen) && Lists(IdsAll(b.nodes), v.order, Childless(db, v.order, |seen|))
    decreases |universe - seen|, |children|
  {
    hide Visit, VisitAll, Tree, TreeAll, Live, ValidDb, Forest;
    hide ChildRuns, Siblings, Apart, Ids, Childless, InStep, Lists;
    var src := Live(db, sink);
    if |children| == 0 {
      VisitAllNone(src, seen, universe);
      TreeAllNone(src, expanded, universe);
      ChildlessNone(db, |seen|);
      NothingListed();
    } else {
      var first, tree := Visit(src, children[0].runId, seen, universe),
        Tree(src, children[0].runId, expanded, universe);
      VisitAllUnfold(src, children, seen, universe);
      TreeAllUnfold(src, children, expanded, universe);
      VisitSize(src, children[0].runId, seen, universe);
      SmallerRest(universe, seen, first.seen);
      assert children[0] in children;
      TreeInForest(db, sink, children[0].runId, seen, expanded, universe);
      RestApart(db, sink, children, p, seen, universe);
      TreeAllInForest(db, sink, children[1..], p, first.seen, tree.seen, universe);
      var restTree, rest := TreeAll(src, children[1..], tree.seen, universe),
        VisitAll(src, children[1..], first.seen, universe);
      ChildlessAppend(db, first.order, rest.order, |seen|);
      IdsAllCons(tree.node, restTree.nodes);
      ListsAppend(Ids(tree.node), first.order, IdsAll(restTree.nodes), rest.order,
                  Childless(db, first.order, |seen|), Childless(db, rest.order, |first.seen|));
    }
  }

  lemma NothingListed()
    ensures IdsAll([]) == [] && Lists([], [], true)
  {
  }

  lemma IdsAllCons(node: TreeNode, nodes: seq<TreeNode>)
    ensures IdsAll([node] + nodes) == Ids(node) + IdsAll(nodes)
  {
    assert ([node] + nodes)[1..] == nodes;
  }

  /** The fork tree of a run over the live stores. */
  function LiveTree(db: Db, sink: seq<EffectRow>, root: RunId): TreeNode
    requires ValidDb(db)
  {
    LiveWithin(db, sink, root);
    Tree(Live(db, sink), root, {}, Runs(db, root)).node
  }

  lemma LiveTreeLists(db: Db, sink: seq<EffectRow>, root: RunId)
    requires ValidDb(db) && Forest(db)
    ensures Lists(Ids(LiveTree(db, sink, root)), Bundled(db, sink, root), Childless(db, Bundled(db, sink, root), 0))
  {
    hide Visit, Tree, Live, Ids, Descends, Childless, ChildRuns, Forest;
    LiveWithin(db, sink, root);
    TreeInForest(db, sink, root, {}, {}, Runs(db, root));
  }

  /** Fewer ids than runs leave some run out. */
  lemma SomeMissing(ids: seq<RunId>, order: seq<RunId>)
    requires NoDuplicates(order) && |ids| < |order|
    ensures exists x :: x in order && x !in ids
  {
    if forall x | x in order :: x in ids {
      DistinctSize(order);
      AnySize(ids);
      var a, b := set x | x in order, set x | x in ids;
      SubsetSize(a, b);
    }
  }

  lemma {:induction false} DistinctSize(s: seq<RunId>)
    requires NoDuplicates(s)
    ensures |set x | x in s| == |s|
  {
    if |s| > 0 {
      DistinctSize(s[1..]);
      assert (set x | x in s) == (set x | x in s[1..]) + {s[0]} by { assert s == [s[0]] + s[1..]; }
      forall x | x in s[1..] ensures x != s[0] {
        var i :| 0 <= i < |s[1..]| && s[1..][i] == x;
        assert s[i + 1] == x;
      }
    }
  }

  lemma {:induction false} AnySize(s: seq<RunId>)
    ensures |set x | x in s| <= |s|
  {
    if |s| > 0 {
      AnySize(s[1..]);
      assert (set x | x in s) == (set x | x in s[1..]) + {s[0]} by { assert s == [s[0]] + s[1..]; }
    }
  }

  /** x is in the tree of root exactly when root is in the lineage of x, for every x. */
  ghost predicate Dual(db: Db, sink: seq<EffectRow>, root: RunId)
    requires ValidDb(db)
  {
    forall x :: x in Ids(LiveTree(db, sink, root)) <==> InChain(LiveLineage(db, sink, x), root)
  }

  lemma LineageMeansBundled(db: Db, sink: seq<EffectRow>, root: RunId, x: RunId)
    requires ValidDb(db) && Forest(db) && "" !in db.metas && root in db.metas
    ensures InChain(LiveLineage(db, sink, x), root) <==> x in Bundled(db, sink, root)
  {
    hide Visit, Live, Descends, Chain, Bundled;
    LiveKnown(db, sink);
    BundledExactly(db, sink, root);
    ChainExact(db, sink, x, {}, root);
    var chain := Chain(Live(db, sink), Some(x), {}, db.metas.Keys);
    forall n ensures n in Reversed(chain) <==> n in chain { ReversedMembers(chain, n); }
  }

  /** Lineage and tree are dual exactly when no run that is visited after the first 10,001 has forks;
      the tree then lists what the bundle visits, each run once. In particular they are dual below
      every run with at most 10,001 descendants, itself included. */
  lemma TreeLineageDuality(db: Db, sink: seq<EffectRow>, root: RunId)
    requires ValidDb(db) && Forest(db) && "" !in db.metas && root in db.metas
    ensures Dual(db, sink, root) <==> Childless(db, Bundled(db, sink, root), 0)
    ensures Dual(db, sink, root)
      ==> Ids(LiveTree(db, sink, root)) == Bundled(db, sink, root) && NoDuplicates(Ids(LiveTree(db, sink, root)))
    ensures |Bundled(db, sink, root)| <= TREE_LIMIT + 1 ==> Dual(db, sink, root)
  {
    hide LiveTree, LiveLineage, InChain, Bundled, Ids, Forest, ChildRuns;
    LiveTreeLists(db, sink, root);
    BundledExactly(db, sink, root);
    var ids, order := Ids(LiveTree(db, sink, root)), Bundled(db, sink, root);
    forall x ensures InChain(LiveLineage(db, sink, x), root) <==> x in order { LineageMeansBundled(db, sink, root, x); }
    if ids != order { SomeMissing(ids, order); }
  }
}
