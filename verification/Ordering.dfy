/** Sorting: ORDER BY over a set of rows, and the stable sort of JavaScript arrays. */
module Ordering {

  // ---- ORDER BY a strict total order ----

  ghost predicate TotalOn<T(!new)>(lt: (T, T) -> bool, S: set<T>)
  {
    && (forall x | x in S :: !lt(x, x))
    && (forall x, y | x in S && y in S :: x == y || lt(x, y) || lt(y, x))
    && (forall x, y, z | x in S && y in S && z in S && lt(x, y) && lt(y, z) :: lt(x, z))
  }

  ghost predicate Ascending<T(!new)>(s: seq<T>, lt: (T, T) -> bool)
  {
    forall i, j | 0 <= i < j < |s| :: lt(s[i], s[j])
  }

  lemma {:induction false} Least<T(!new)>(S: set<T>, lt: (T, T) -> bool) returns (m: T)
    requires S != {} && TotalOn(lt, S)
    ensures m in S && forall x | x in S :: x == m || lt(m, x)
    decreases |S|
  {
    var a :| a in S;
    var rest := S - {a};
    if rest == {} {
      m := a;
      assert S == rest + {a};
    } else {
      var b := Least(rest, lt);
      m := if lt(a, b) then a else b;
      forall x | x in S ensures x == m || lt(m, x) {
        assert x == a || x in rest;
      }
    }
  }

  lemma LeastExists<T(!new)>(S: set<T>, lt: (T, T) -> bool)
    requires S != {} && TotalOn(lt, S)
    ensures exists m :: m in S && forall x | x in S :: x == m || lt(m, x)
  {
    var m := Least(S, lt);
  }

  /** The elements of S in ascending order. */
  function OrderBy<T(==,!new)>(S: set<T>, lt: (T, T) -> bool): seq<T>
    requires TotalOn(lt, S)
    decreases |S|
  {
    if S == {} then [] else
      LeastExists(S, lt);
      var m :| m in S && forall x | x in S :: x == m || lt(m, x);
      [m] + OrderBy(S - {m}, lt)
  }

  lemma {:induction false} OrderByProperties<T(!new)>(S: set<T>, lt: (T, T) -> bool)
    requires TotalOn(lt, S)
    ensures Ascending(OrderBy(S, lt), lt)
    ensures forall x :: x in OrderBy(S, lt) <==> x in S
    ensures |OrderBy(S, lt)| == |S|
    decreases |S|
  {
    if S != {} {
      var s := OrderBy(S, lt);
      OrderByProperties(S - {s[0]}, lt);
      assert s == [s[0]] + s[1..] && s[1..] == OrderBy(S - {s[0]}, lt);
      forall i, j | 0 <= i < j < |s| ensures lt(s[i], s[j]) {
        assert s[j] == s[1..][j - 1];
        if i > 0 { assert s[i] == s[1..][i - 1]; } else { assert s[j] in s[1..]; }
      }
    }
  }

  /** Two ascending sequences with the same elements are the same sequence. */
  lemma {:induction false} AscendingUnique<T(!new)>(s: seq<T>, t: seq<T>, S: set<T>, lt: (T, T) -> bool)
    requires TotalOn(lt, S)
    requires Ascending(s, lt) && Ascending(t, lt)
    requires forall x :: x in s <==> x in S
    requires forall x :: x in t <==> x in S
    ensures s == t
    decreases |s|
  {
    if t != [] { assert t[0] in S; }
    if |s| > 0 {
      assert s[0] in t;
      assert t[0] in s;
      var i :| 0 <= i < |t| && t[i] == s[0];
      var j :| 0 <= j < |s| && s[j] == t[0];
      assert s[0] == t[0];
      AscendingDropFirst(s, S, lt);
      AscendingDropFirst(t, S, lt);
      AscendingUnique(s[1..], t[1..], S - {s[0]}, lt);
      assert s == [s[0]] + s[1..] && t == [t[0]] + t[1..];
    }
  }

  lemma AscendingDropFirst<T(!new)>(s: seq<T>, S: set<T>, lt: (T, T) -> bool)
    requires TotalOn(lt, S) && |s| > 0
    requires Ascending(s, lt)
    requires forall x :: x in s <==> x in S
    ensures Ascending(s[1..], lt)
    ensures forall x :: x in s[1..] <==> x in S - {s[0]}
  {
    forall x | x in s[1..] ensures x in S - {s[0]} {
      var i :| 0 <= i < |s[1..]| && s[1..][i] == x;
      assert s[i + 1] == x && lt(s[0], s[i + 1]);
      assert x in s && s[0] in s;
    }
    forall x | x in S - {s[0]} ensures x in s[1..] {
      assert x in s;
      var i :| 0 <= i < |s| && s[i] == x;
      assert s[1..][i - 1] == x;
    }
  }

  // ---- Array.prototype.sort, which is stable ----

  /** x goes after every element that is not greater than it. */
  function InsertSorted<T>(x: T, s: seq<T>, lt: (T, T) -> bool): seq<T>
  {
    if |s| == 0 || lt(x, s[0]) then [x] + s else [s[0]] + InsertSorted(x, s[1..], lt)
  }

  function StableSort<T>(s: seq<T>, lt: (T, T) -> bool): seq<T>
  {
    if |s| == 0 then [] else InsertSorted(s[|s| - 1], StableSort(s[..|s| - 1], lt), lt)
  }

  /** No element is followed by a smaller one. */
  ghost predicate NoDescent<T>(s: seq<T>, lt: (T, T) -> bool)
  {
    forall i, j | 0 <= i < j < |s| :: !lt(s[j], s[i])
  }

  lemma {:induction false} InsertLast<T>(x: T, s: seq<T>, lt: (T, T) -> bool)
    requires forall i | 0 <= i < |s| :: !lt(x, s[i])
    ensures InsertSorted(x, s, lt) == s + [x]
  {
    if |s| > 0 {
      InsertLast(x, s[1..], lt);
      assert [s[0]] + (s[1..] + [x]) == s + [x];
    }
  }

  /** A stable sort leaves a sequence that is in order alone, ties included. */
  lemma {:induction false} StableSortSorted<T>(s: seq<T>, lt: (T, T) -> bool)
    requires NoDescent(s, lt)
    ensures StableSort(s, lt) == s
  {
    if |s| > 0 {
      var front := s[..|s| - 1];
      StableSortSorted(front, lt);
      InsertLast(s[|s| - 1], front, lt);
      assert front + [s[|s| - 1]] == s;
    }
  }

  lemma {:induction false} InsertSortedElements<T>(x: T, s: seq<T>, lt: (T, T) -> bool)
    ensures multiset(InsertSorted(x, s, lt)) == multiset(s) + multiset{x}
  {
    if |s| == 0 || lt(x, s[0]) {
      assert multiset([x] + s) == multiset{x} + multiset(s);
    } else {
      InsertSortedElements(x, s[1..], lt);
      assert s == [s[0]] + s[1..];
    }
  }

  lemma {:induction false} StableSortElements<T>(s: seq<T>, lt: (T, T) -> bool)
    ensures multiset(StableSort(s, lt)) == multiset(s)
  {
    if |s| > 0 {
      StableSortElements(s[..|s| - 1], lt);
      InsertSortedElements(s[|s| - 1], StableSort(s[..|s| - 1], lt), lt);
      assert s == s[..|s| - 1] + [s[|s| - 1]];
    }
  }

  // ---- Sorting by an order of the whole type ----

  ghost predicate Strict<T(!new)>(lt: (T, T) -> bool)
  {
    (forall x :: !lt(x, x)) && forall x, y, z | lt(x, y) && lt(y, z) :: lt(x, z)
  }

  ghost predicate Total<T(!new)>(lt: (T, T) -> bool)
  {
    Strict(lt) && forall x, y :: x == y || lt(x, y) || lt(y, x)
  }

  lemma {:induction false} InsertSortedOrdered<T(!new)>(x: T, s: seq<T>, lt: (T, T) -> bool)
    requires Strict(lt) && NoDescent(s, lt)
    ensures NoDescent(InsertSorted(x, s, lt), lt)
  {
    var t := InsertSorted(x, s, lt);
    if |s| == 0 || lt(x, s[0]) {
      assert t == [x] + s;
    } else {
      InsertSortedOrdered(x, s[1..], lt);
      InsertSortedElements(x, s[1..], lt);
      var rest := InsertSorted(x, s[1..], lt);
      forall j | 0 <= j < |rest| ensures !lt(rest[j], s[0]) {
        assert rest[j] in multiset(s[1..]) + multiset{x};
        if rest[j] != x {
          var k :| 0 <= k < |s[1..]| && s[1..][k] == rest[j];
          assert !lt(s[k + 1], s[0]);
        }
      }
    }
  }

  lemma {:induction false} StableSortOrdered<T(!new)>(s: seq<T>, lt: (T, T) -> bool)
    requires Strict(lt)
    ensures NoDescent(StableSort(s, lt), lt)
  {
    if |s| > 0 {
      StableSortOrdered(s[..|s| - 1], lt);
      InsertSortedOrdered(s[|s| - 1], StableSort(s[..|s| - 1], lt), lt);
    }
  }

  lemma SortedHead<T(!new)>(s: seq<T>, t: seq<T>, lt: (T, T) -> bool)
    requires Total(lt) && NoDescent(s, lt) && NoDescent(t, lt) && multiset(s) == multiset(t) && |s| > 0
    ensures |t| > 0 && s[0] == t[0]
  {
    assert s[0] in multiset(t);
    assert t[0] in multiset(s);
    var i :| 0 <= i < |t| && t[i] == s[0];
    var j :| 0 <= j < |s| && s[j] == t[0];
    if i > 0 { assert !lt(t[i], t[0]); }
    if j > 0 { assert !lt(s[j], s[0]); }
  }

  lemma SortedTail<T(!new)>(s: seq<T>, lt: (T, T) -> bool)
    requires NoDescent(s, lt) && |s| > 0
    ensures NoDescent(s[1..], lt) && s == [s[0]] + s[1..]
    ensures multiset(s[1..]) == multiset(s) - multiset{s[0]}
  {
    assert s == [s[0]] + s[1..];
    assert multiset(s) == multiset{s[0]} + multiset(s[1..]);
  }

  /** Two sequences in order with the same elements, counted, are the same sequence. */
  lemma {:induction false} SortedUnique<T(!new)>(s: seq<T>, t: seq<T>, lt: (T, T) -> bool)
    requires Total(lt) && NoDescent(s, lt) && NoDescent(t, lt) && multiset(s) == multiset(t)
    ensures s == t
  {
    assert |s| == |multiset(s)| == |multiset(t)| == |t|;
    if |s| > 0 {
      SortedHead(s, t, lt);
      SortedTail(s, lt);
      SortedTail(t, lt);
      hide Total, NoDescent;
      SortedUnique(s[1..], t[1..], lt);
    }
  }

  /** Sorting two sequences gives one result exactly when they hold the same elements, counted. */
  lemma SortedEqual<T(!new)>(s: seq<T>, t: seq<T>, lt: (T, T) -> bool)
    requires Total(lt)
    ensures StableSort(s, lt) == StableSort(t, lt) <==> multiset(s) == multiset(t)
  {
    StableSortElements(s, lt);
    StableSortElements(t, lt);
    if multiset(s) == multiset(t) {
      StableSortOrdered(s, lt);
      StableSortOrdered(t, lt);
      SortedUnique(StableSort(s, lt), StableSort(t, lt), lt);
    }
  }

  function Filter<T>(s: seq<T>, keep: T -> bool): seq<T>
  {
    if |s| == 0 then [] else (if keep(s[0]) then [s[0]] else []) + Filter(s[1..], keep)
  }

  lemma Regroup<T>(a: seq<T>, b: seq<T>, c: seq<T>)
    ensures a + (b + c) == (a + b) + c
  {
  }

  lemma {:induction false} FilterAppend<T>(a: seq<T>, b: seq<T>, keep: T -> bool)
    ensures Filter(a + b, keep) == Filter(a, keep) + Filter(b, keep)
  {
    if |a| == 0 {
      assert a + b == b;
    } else {
      FilterAppend(a[1..], b, keep);
      assert (a + b)[1..] == a[1..] + b && (a + b)[0] == a[0];
      Regroup(if keep(a[0]) then [a[0]] else [], Filter(a[1..], keep), Filter(b, keep));
    }
  }

  lemma {:induction false} FilterAll<T(!new)>(s: seq<T>, keep: T -> bool)
    requires forall x | x in s :: keep(x)
    ensures Filter(s, keep) == s
  {
    if |s| > 0 { FilterAll(s[1..], keep); }
  }

  lemma {:induction false} FilterNone<T(!new)>(s: seq<T>, keep: T -> bool)
    requires forall x | x in s :: !keep(x)
    ensures Filter(s, keep) == []
  {
    if |s| > 0 { FilterNone(s[1..], keep); }
  }

  lemma {:induction false} FilterMembers<T(!new)>(s: seq<T>, keep: T -> bool)
    ensures forall x :: x in Filter(s, keep) <==> x in s && keep(x)
  {
    if |s| > 0 { FilterMembers(s[1..], keep); }
  }

  lemma {:induction false} FilterNoDescent<T(!new)>(s: seq<T>, keep: T -> bool, lt: (T, T) -> bool)
    requires NoDescent(s, lt)
    ensures NoDescent(Filter(s, keep), lt)
  {
    if |s| > 0 {
      FilterNoDescent(s[1..], keep, lt);
      FilterMembers(s[1..], keep);
      var f, g := Filter(s, keep), Filter(s[1..], keep);
      assert forall x | x in g :: x in s[1..];
      forall i, j | 0 <= i < j < |f| ensures !lt(f[j], f[i]) {
        if keep(s[0]) {
          assert f[j] == g[j - 1] && g[j - 1] in g;
          if i == 0 {
            assert g[j - 1] in s[1..];
            var k :| 0 <= k < |s[1..]| && s[1..][k] == g[j - 1];
            assert s[k + 1] == f[j];
          } else {
            assert f[i] == g[i - 1];
          }
        }
      }
    }
  }

  // ---- What a filter and a stable sort do to pairs ----

  /** An order in which what lies between two elements is after the first or before the second. */
  ghost predicate Weak<T(!new)>(lt: (T, T) -> bool)
  {
    Strict(lt) && forall x, y, z | lt(x, z) :: lt(x, y) || lt(y, z)
  }

  /** Elements of which none is before another. */
  ghost predicate Tied<T(!new)>(lt: (T, T) -> bool, keep: T -> bool)
  {
    forall x, y | keep(x) && keep(y) :: !lt(x, y)
  }

  lemma AfterFirst<T(!new)>(lt: (T, T) -> bool, x: T, y: T, z: T)
    requires Weak(lt) && lt(x, z) && !lt(y, z)
    ensures lt(x, y)
  {
  }

  lemma {:induction false} InsertStable<T(!new)>(x: T, s: seq<T>, lt: (T, T) -> bool, keep: T -> bool)
    requires Weak(lt) && NoDescent(s, lt) && Tied(lt, keep)
    ensures Filter(InsertSorted(x, s, lt), keep) == Filter(s, keep) + if keep(x) then [x] else []
  {
    if |s| == 0 || lt(x, s[0]) {
      assert ([x] + s)[1..] == s;
      if keep(x) {
        forall y | y in s ensures !keep(y) {
          var i :| 0 <= i < |s| && s[i] == y;
          assert i == 0 || !lt(s[i], s[0]);
          AfterFirst(lt, x, y, s[0]);
        }
        FilterNone(s, keep);
      }
    } else {
      var rest := InsertSorted(x, s[1..], lt);
      InsertStable(x, s[1..], lt, keep);
      assert ([s[0]] + rest)[1..] == rest;
      Regroup(if keep(s[0]) then [s[0]] else [], Filter(s[1..], keep), if keep(x) then [x] else []);
    }
  }

  /** A stable sort keeps tied elements in their order. */
  lemma {:induction false} StableFilter<T(!new)>(s: seq<T>, lt: (T, T) -> bool, keep: T -> bool)
    requires Weak(lt) && Tied(lt, keep)
    ensures Filter(StableSort(s, lt), keep) == Filter(s, keep)
  {
    hide Weak, Tied, NoDescent;
    if |s| > 0 {
      var front, last := s[..|s| - 1], s[|s| - 1];
      StableFilter(front, lt, keep);
      WeakIsStrict(lt);
      StableSortOrdered(front, lt);
      InsertStable(last, StableSort(front, lt), lt, keep);
      FilterAppend(front, [last], keep);
      FilterSingle(last, keep);
      assert front + [last] == s;
    }
  }

  lemma WeakIsStrict<T(!new)>(lt: (T, T) -> bool)
    requires Weak(lt)
    ensures Strict(lt)
  {
  }

  lemma FilterSingle<T>(x: T, keep: T -> bool)
    ensures Filter([x], keep) == if keep(x) then [x] else []
  {
    assert [x][1..] == [];
  }

  /** x occurs before y. */
  ghost predicate Before<T(!new)>(s: seq<T>, x: T, y: T) { exists i, j :: 0 <= i < j < |s| && s[i] == x && s[j] == y }

  lemma BeforeSplit<T(!new)>(a: seq<T>, b: seq<T>, x: T, y: T)
    ensures Before(a + b, x, y) <==> Before(a, x, y) || Before(b, x, y) || (x in a && y in b)
  {
    var s := a + b;
    if Before(s, x, y) {
      var i, j :| 0 <= i < j < |s| && s[i] == x && s[j] == y;
      if i < |a| && j >= |a| { assert a[i] == x && b[j - |a|] == y; }
      if i >= |a| { assert b[i - |a|] == x && b[j - |a|] == y; }
      if j < |a| { assert a[i] == x && a[j] == y; }
    }
    if Before(a, x, y) {
      var i, j :| 0 <= i < j < |a| && a[i] == x && a[j] == y;
      assert s[i] == x && s[j] == y;
    }
    if Before(b, x, y) {
      var i, j :| 0 <= i < j < |b| && b[i] == x && b[j] == y;
      assert s[|a| + i] == x && s[|a| + j] == y;
    }
    if x in a && y in b {
      var i :| 0 <= i < |a| && a[i] == x;
      var j :| 0 <= j < |b| && b[j] == y;
      assert s[i] == x && s[|a| + j] == y;
    }
  }

  /** Filtering keeps the order of what it keeps. */
  lemma {:induction false} FilterBefore<T(!new)>(s: seq<T>, keep: T -> bool, x: T, y: T)
    ensures Before(Filter(s, keep), x, y) <==> keep(x) && keep(y) && Before(s, x, y)
  {
    if |s| > 0 {
      var head, rest := s[0], s[1..];
      var kept := if keep(head) then [head] else [];
      FilterBefore(rest, keep, x, y);
      FilterMembers(rest, keep);
      BeforeSplit(kept, Filter(rest, keep), x, y);
      BeforeSplit([head], rest, x, y);
      assert [head] + rest == s;
    }
  }
}
