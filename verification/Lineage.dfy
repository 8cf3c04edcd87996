/** Parent pointers: chains of ancestors, and forests. */
module Lineage {
  import opened Journal
  import opened StepModel
  import opened Wrappers

  ghost predicate Below(parent: Option<RunId>, r: RunId, rank: map<RunId, nat>)
  {
    r in rank && (parent.Some? ==> parent.value in rank && rank[parent.value] < rank[r])
  }

  ghost predicate Ranked(metas: map<RunId, RunMeta>, rank: map<RunId, nat>)
  {
    forall r | r in metas :: Below(metas[r].parentRun, r, rank)
  }

  /** Parent pointers form no cycle. */
  ghost predicate Forest(db: Db) { exists rank: map<RunId, nat> :: Ranked(db.metas, rank) }

  /** The ancestor n parent pointers up from r. */
  function Up(metas: map<RunId, RunMeta>, r: RunId, n: nat): Option<RunId>
    decreases n
  {
    if n == 0 then Some(r)
    else if r in metas && metas[r].parentRun.Some? then Up(metas, metas[r].parentRun.value, n - 1)
    else None
  }

  /** a is x itself or an ancestor of x. */
  ghost predicate Descends(metas: map<RunId, RunMeta>, x: RunId, a: RunId)
  {
    exists n: nat :: Up(metas, x, n) == Some(a)
  }

  predicate IsParent(metas: map<RunId, RunMeta>, c: RunId, p: RunId)
  {
    c in metas && metas[c].parentRun == Some(p)
  }

  lemma {:induction false} UpCompose(metas: map<RunId, RunMeta>, x: RunId, n: nat, y: RunId, m: nat)
    requires Up(metas, x, n) == Some(y)
    ensures Up(metas, x, n + m) == Up(metas, y, m)
    decreases n
  {
    if n > 0 { UpCompose(metas, metas[x].parentRun.value, n - 1, y, m); }
  }

  /** The last pointer followed goes from a child of a to a. */
  lemma {:induction false} LastPointer(metas: map<RunId, RunMeta>, x: RunId, n: nat, a: RunId) returns (c: RunId)
    requires n > 0 && Up(metas, x, n) == Some(a)
    ensures Up(metas, x, n - 1) == Some(c) && IsParent(metas, c, a)
    decreases n
  {
    if n == 1 {
      c := x;
      assert Up(metas, metas[x].parentRun.value, 0) == Some(a);
    } else {
      c := LastPointer(metas, metas[x].parentRun.value, n - 1, a);
    }
  }

  lemma {:induction false} UpRanked(metas: map<RunId, RunMeta>, rank: map<RunId, nat>, x: RunId, n: nat, a: RunId)
    requires Ranked(metas, rank) && n > 0 && Up(metas, x, n) == Some(a)
    ensures x in rank && a in rank && rank[a] < rank[x]
    decreases n
  {
    assert Below(metas[x].parentRun, x, rank);
    if n > 1 { UpRanked(metas, rank, metas[x].parentRun.value, n - 1, a); }
  }

  /** In a forest no run descends from two different children of one parent. */
  lemma SiblingsApart(metas: map<RunId, RunMeta>, x: RunId, c1: RunId, c2: RunId, p: RunId)
    requires exists rank :: Ranked(metas, rank)
    requires IsParent(metas, c1, p) && IsParent(metas, c2, p)
    requires Descends(metas, x, c1) && Descends(metas, x, c2)
    ensures c1 == c2
  {
    var rank :| Ranked(metas, rank);
    var n1: nat :| Up(metas, x, n1) == Some(c1);
    var n2: nat :| Up(metas, x, n2) == Some(c2);
    if n1 < n2 {
      OneBelowTheOther(metas, rank, x, c1, n1, c2, n2, p);
    } else if n2 < n1 {
      OneBelowTheOther(metas, rank, x, c2, n2, c1, n1, p);
    }
  }

  lemma OneBelowTheOther(metas: map<RunId, RunMeta>, rank: map<RunId, nat>, x: RunId, c1: RunId, n1: nat,
                         c2: RunId, n2: nat, p: RunId)
    requires Ranked(metas, rank) && IsParent(metas, c1, p) && IsParent(metas, c2, p)
    requires n1 < n2 && Up(metas, x, n1) == Some(c1)
    ensures Up(metas, x, n2) != Some(c2)
  {
    UpCompose(metas, x, n1, c1, n2 - n1);
    assert Up(metas, c2, 1) == Some(p) by { assert Up(metas, p, 0) == Some(p); }
    UpRanked(metas, rank, c2, 1, p);
    if n2 - n1 - 1 > 0 && Up(metas, p, n2 - n1 - 1) == Some(c2) { UpRanked(metas, rank, p, n2 - n1 - 1, c2); }
  }

  /** In a forest nothing descends from its own child. */
  lemma NotBelowChild(metas: map<RunId, RunMeta>, p: RunId, c: RunId)
    requires exists rank :: Ranked(metas, rank)
    requires IsParent(metas, c, p)
    ensures !Descends(metas, p, c)
  {
    var rank :| Ranked(metas, rank);
    if Descends(metas, p, c) {
      var n: nat :| Up(metas, p, n) == Some(c);
      assert Up(metas, c, n + 1) == Some(c);
      UpRanked(metas, rank, c, n + 1, c);
    }
  }

  /** A run descends from r exactly when it is r or descends from a child of r. */
  lemma DescendsFromChild(metas: map<RunId, RunMeta>, x: RunId, r: RunId)
    ensures Descends(metas, x, r) <==> x == r || exists c :: IsParent(metas, c, r) && Descends(metas, x, c)
  {
    if x == r { assert Up(metas, x, 0) == Some(r); }
    if n: nat :| Up(metas, x, n) == Some(r) {
      if n > 0 { var c := LastPointer(metas, x, n, r); }
    }
    forall c | IsParent(metas, c, r) && Descends(metas, x, c) ensures Descends(metas, x, r) {
      var n: nat :| Up(metas, x, n) == Some(c);
      UpCompose(metas, x, n, c, 1);
      assert Up(metas, r, 0) == Some(r);
      assert Up(metas, x, n + 1) == Some(r);
    }
  }
}
