/** Following the cursors of the live list while runs are begun and forked between the pages. */
module LivePages {
  import opened Journal
  import opened Ordering
  import opened RunsList
  import opened StepModel
  import opened Wrappers

  // ---- The pages of a walk ----

  /** One page per answered request; the walk puts them together. */
  function Pages(snapshots: seq<Db>, limit: nat, cursor: Option<string>): seq<seq<RunMeta>>
    requires limit >= 1
  {
    if |snapshots| == 0 then []
    else match ListRunMetaPage(snapshots[0], limit, cursor)
      case Err(_) => []
      case Ok(page) => [page.items] + if page.nextCursor.None? then []
        else Pages(snapshots[1..], limit, page.nextCursor)
  }

  function Together(pages: seq<seq<RunMeta>>): seq<RunMeta>
  {
    if |pages| == 0 then [] else pages[0] + Together(pages[1..])
  }

  /** The key that the request for page j carries: the last row of the page before. */
  function KeyFor(from: Option<Key>, pages: seq<seq<RunMeta>>, j: nat): Option<Key>
    requires j <= |pages|
  {
    if j == 0 then from
    else if |pages[j - 1]| == 0 then None
    else Some(KeyOf(pages[j - 1][|pages[j - 1]| - 1]))
  }

  /** How often a run is listed. */
  function Times(items: seq<RunMeta>, r: RunId): nat { |Filter(items, (m: RunMeta) => m.runId == r)| }

  predicate Listed(page: seq<RunMeta>, r: RunId) { exists m | m in page :: m.runId == r }

  // ---- Snapshots in which a row is replaced at most once ----

  ghost predicate Readable(snapshots: seq<Db>)
  {
    forall i | 0 <= i < |snapshots| :: ValidDb(snapshots[i]) && AllListable(snapshots[i])
  }

  /** Runs stay, and of three snapshots no two in a row differ on a run. */
  ghost predicate Steady(snapshots: seq<Db>)
  {
    && Readable(snapshots)
    && (forall i, j, r | 0 <= i < j < |snapshots| && r in snapshots[i].metas :: r in snapshots[j].metas)
    && (forall i, j, k, r | 0 <= i < j < k < |snapshots| && r in snapshots[i].metas ::
          !Replaced(snapshots[i], snapshots[j], r) || !Replaced(snapshots[j], snapshots[k], r))
  }

  predicate Replaced(a: Db, b: Db, r: RunId) { r in a.metas && r in b.metas && a.metas[r] != b.metas[r] }

  /** At the request for page j the row of r lies beyond the key of the request. */
  predicate Ahead(snapshots: seq<Db>, from: Option<Key>, pages: seq<seq<RunMeta>>, j: nat, r: RunId)
    requires j < |pages| <= |snapshots|
  {
    r in After(snapshots[j], KeyFor(from, pages, j))
  }

  /** The row of a run was replaced, after the run had been listed, by one beyond the key of a request
      that was still to come. */
  ghost predicate Overtaken(snapshots: seq<Db>, pages: seq<seq<RunMeta>>, r: RunId)
    requires |pages| <= |snapshots|
  {
    exists i: nat, j: nat :: i < j < |pages|
      && Listed(pages[i], r) && Replaced(snapshots[i], snapshots[j], r) && Ahead(snapshots, None, pages, j, r)
  }

  /** The row of a run that was still to come was replaced by one at or before the key of the next request. */
  ghost predicate PulledBack(snapshots: seq<Db>, pages: seq<seq<RunMeta>>, r: RunId)
    requires |pages| <= |snapshots|
  {
    exists j: nat :: j + 1 < |pages|
      && r in snapshots[j].metas && Beyond(KeyFor(None, pages, j + 1), KeyOf(snapshots[j].metas[r]))
      && Replaced(snapshots[j], snapshots[j + 1], r) && !Ahead(snapshots, None, pages, j + 1, r)
  }

  // ---- Each page is the page after its key ----

  ghost predicate PageAt(snapshots: seq<Db>, limit: nat, from: Option<Key>, pages: seq<seq<RunMeta>>, j: nat)
    requires limit >= 1 && j < |pages| <= |snapshots|
  {
    var page := PageAfter(snapshots[j], limit, KeyFor(from, pages, j));
    && pages[j] == page.items
    && (j + 1 < |pages| ==> page.nextCursor.Some? && |pages[j]| == limit)
    && (forall m | m in pages[j] :: m.runId in snapshots[j].metas && snapshots[j].metas[m.runId] == m)
  }

  ghost predicate Ended(snapshots: seq<Db>, limit: nat, from: Option<Key>, pages: seq<seq<RunMeta>>)
    requires limit >= 1 && |pages| <= |snapshots|
  {
    |pages| > 0 && PageAfter(snapshots[|pages| - 1], limit, KeyFor(from, pages, |pages| - 1)).nextCursor.None?
  }

  lemma PagesStep(snapshots: seq<Db>, limit: nat, from: Option<Key>)
    requires limit >= 1 && |snapshots| > 0 && (from.Some? ==> Listable(from.value))
    ensures var page := PageAfter(snapshots[0], limit, from);
      Pages(snapshots, limit, CursorOf(from)) ==
        [page.items] + if page.nextCursor.None? then [] else Pages(snapshots[1..], limit, page.nextCursor)
  {
    PageOfCursor(snapshots[0], limit, from);
    hide PageAfter, ListRunMetaPage, Listable, EncodeCursor;
  }

  lemma RestReadable(snapshots: seq<Db>)
    requires Readable(snapshots) && |snapshots| > 0
    ensures Readable(snapshots[1..])
  {
    hide ValidDb, AllListable;
  }

  lemma RestPage(snapshots: seq<Db>, limit: nat, from: Option<Key>, first: seq<RunMeta>, rest: seq<seq<RunMeta>>,
                 j: nat)
    requires limit >= 1 && j < |rest| < |snapshots| && |first| > 0
    requires PageAt(snapshots[1..], limit, Some(KeyOf(first[|first| - 1])), rest, j)
    ensures PageAt(snapshots, limit, from, [first] + rest, j + 1)
  {
    hide PageAfter;
  }

  lemma RestEnded(snapshots: seq<Db>, limit: nat, from: Option<Key>, first: seq<RunMeta>, rest: seq<seq<RunMeta>>)
    requires limit >= 1 && 0 < |rest| < |snapshots| && |first| > 0
    ensures Ended(snapshots[1..], limit, Some(KeyOf(first[|first| - 1])), rest)
      <==> Ended(snapshots, limit, from, [first] + rest)
  {
    hide PageAfter;
    var n := |rest|;
    assert ([first] + rest)[n - 1 + 1] == rest[n - 1];
  }

  lemma TogetherMore(first: seq<RunMeta>, rest: seq<seq<RunMeta>>)
    ensures Together([first] + rest) == first + Together(rest)
  {
    assert ([first] + rest)[1..] == rest;
  }

  lemma {:induction false} PagesExact(snapshots: seq<Db>, limit: nat, from: Option<Key>)
    requires Readable(snapshots) && limit >= 1 && (from.Some? ==> Listable(from.value))
    ensures var w, pages := Walk(snapshots, limit, CursorOf(from)), Pages(snapshots, limit, CursorOf(from));
      && !w.failed && w.items == Together(pages) && |pages| <= |snapshots|
      && (forall j: nat | j < |pages| :: PageAt(snapshots, limit, from, pages, j))
      && (w.done <==> Ended(snapshots, limit, from, pages))
    decreases |snapshots|
  {
    hide PageAfter, KeyLess, EncodeCursor, Listable, Walk, Pages, Together, Ended, PageAt;
    if |snapshots| == 0 {
      NoPages(limit, from);
    } else {
      var db := snapshots[0];
      WalkStep(snapshots, limit, from);
      PagesStep(snapshots, limit, from);
      PageExact(db, limit, from);
      var page := PageAfter(db, limit, from);
      var pages := Pages(snapshots, limit, CursorOf(from));
      if page.nextCursor.None? {
        TogetherMore(page.items, []);
        NoPages(limit, from);
        assert pages == [page.items];
        assert page.items + [] == page.items;
        NotEnded(snapshots, limit, from, page.items);
      } else {
        var last := page.items[limit - 1];
        assert last in page.items;
        RestReadable(snapshots);
        PagesExact(snapshots[1..], limit, Some(KeyOf(last)));
        var rest := Pages(snapshots[1..], limit, page.nextCursor);
        TogetherMore(page.items, rest);
        forall j: nat | 0 < j < |pages| ensures PageAt(snapshots, limit, from, pages, j) {
          RestPage(snapshots, limit, from, page.items, rest, j - 1);
        }
        if |rest| > 0 {
          RestEnded(snapshots, limit, from, page.items, rest);
        } else {
          NoneAnswered(snapshots[1..], limit, Some(KeyOf(last)));
          NotEnded(snapshots, limit, from, page.items);
          assert pages == [page.items];
        }
      }
      FirstPage(snapshots, limit, from, pages);
    }
  }

  lemma NoPages(limit: nat, from: Option<Key>)
    requires limit >= 1
    ensures Walk([], limit, CursorOf(from)) == Walked([], false, false) && Pages([], limit, CursorOf(from)) == []
      && Together([]) == []
    ensures !Ended([], limit, from, [])
  {
  }

  lemma NotEnded(snapshots: seq<Db>, limit: nat, from: Option<Key>, items: seq<RunMeta>)
    requires limit >= 1 && |snapshots| > 0
    ensures Ended(snapshots, limit, from, [items]) <==> PageAfter(snapshots[0], limit, from).nextCursor.None?
  {
    hide PageAfter;
  }

  lemma NoneAnswered(snapshots: seq<Db>, limit: nat, from: Option<Key>)
    requires limit >= 1
    ensures !Ended(snapshots, limit, from, [])
  {
  }

  lemma FirstPage(snapshots: seq<Db>, limit: nat, from: Option<Key>, pages: seq<seq<RunMeta>>)
    requires limit >= 1 && |pages| > 0 && |pages| <= |snapshots| && ValidDb(snapshots[0])
    requires pages[0] == PageAfter(snapshots[0], limit, from).items
    requires |pages| > 1 ==> PageAfter(snapshots[0], limit, from).nextCursor.Some?
    ensures PageAt(snapshots, limit, from, pages, 0)
  {
    hide PageAfter, KeyLess, EncodeCursor, ValidDb;
    PageExact(snapshots[0], limit, from);
  }

  // ---- Counting how often a run is listed ----

  lemma {:induction false} TimesDistinct(items: seq<RunMeta>, r: RunId)
    requires forall i, j | 0 <= i < j < |items| :: items[i].runId != items[j].runId
    ensures Times(items, r) == if Listed(items, r) then 1 else 0
  {
    var mine := (m: RunMeta) => m.runId == r;
    if |items| > 0 {
      TimesDistinct(items[1..], r);
      if items[0].runId == r {
        forall m | m in items[1..] ensures m.runId != r {
          var i :| 0 <= i < |items[1..]| && items[1..][i] == m;
          assert items[i + 1] == m;
        }
        FilterNone(items[1..], mine);
        assert items[0] in items;
      } else if Listed(items[1..], r) {
        var m :| m in items[1..] && m.runId == r;
        assert m in items;
      }
    }
  }

  ghost predicate Once(pages: seq<seq<RunMeta>>, r: RunId) { exists i: nat :: i < |pages| && Listed(pages[i], r) }

  ghost predicate Twice(pages: seq<seq<RunMeta>>, r: RunId)
  {
    exists i: nat, j: nat :: i < j < |pages| && Listed(pages[i], r) && Listed(pages[j], r)
  }

  ghost predicate Thrice(pages: seq<seq<RunMeta>>, r: RunId)
  {
    exists i: nat, j: nat, k: nat ::
      i < j < k < |pages| && Listed(pages[i], r) && Listed(pages[j], r) && Listed(pages[k], r)
  }

  lemma OnceMore(first: seq<RunMeta>, rest: seq<seq<RunMeta>>, r: RunId)
    ensures Once([first] + rest, r) <==> Listed(first, r) || Once(rest, r)
  {
    hide Listed;
    var pages := [first] + rest;
    if i: nat :| i < |rest| && Listed(rest[i], r) { assert Listed(pages[i + 1], r); }
    if Listed(first, r) { assert Listed(pages[0], r); }
    if i: nat :| i < |pages| && Listed(pages[i], r) {
      if i > 0 { assert Listed(rest[i - 1], r); }
    }
  }

  lemma TwiceMore(first: seq<RunMeta>, rest: seq<seq<RunMeta>>, r: RunId)
    ensures Twice([first] + rest, r) <==> (Listed(first, r) && Once(rest, r)) || Twice(rest, r)
  {
    hide Listed;
    var pages := [first] + rest;
    if i: nat, j: nat :| i < j < |rest| && Listed(rest[i], r) && Listed(rest[j], r) {
      assert Listed(pages[i + 1], r) && Listed(pages[j + 1], r);
    }
    if Listed(first, r) && Once(rest, r) {
      var j: nat :| j < |rest| && Listed(rest[j], r);
      assert Listed(pages[0], r) && Listed(pages[j + 1], r);
    }
    if i: nat, j: nat :| i < j < |pages| && Listed(pages[i], r) && Listed(pages[j], r) {
      assert Listed(rest[j - 1], r);
      if i > 0 { assert Listed(rest[i - 1], r); }
    }
  }

  lemma ThriceMore(first: seq<RunMeta>, rest: seq<seq<RunMeta>>, r: RunId)
    ensures Thrice([first] + rest, r) <==> (Listed(first, r) && Twice(rest, r)) || Thrice(rest, r)
  {
    hide Listed, Twice, Thrice;
    if (Listed(first, r) && Twice(rest, r)) || Thrice(rest, r) { ThriceIn(first, rest, r); }
    ThriceOf(first, rest, r);
  }

  lemma ThriceIn(first: seq<RunMeta>, rest: seq<seq<RunMeta>>, r: RunId)
    requires (Listed(first, r) && Twice(rest, r)) || Thrice(rest, r)
    ensures Thrice([first] + rest, r)
  {
    hide Listed;
    var pages := [first] + rest;
    if Thrice(rest, r) {
      var i: nat, j: nat, k: nat :|
        i < j < k < |rest| && Listed(rest[i], r) && Listed(rest[j], r) && Listed(rest[k], r);
      assert Listed(pages[i + 1], r) && Listed(pages[j + 1], r) && Listed(pages[k + 1], r);
    } else {
      var j: nat, k: nat :| j < k < |rest| && Listed(rest[j], r) && Listed(rest[k], r);
      assert Listed(pages[0], r) && Listed(pages[j + 1], r) && Listed(pages[k + 1], r);
    }
  }

  lemma ThriceOf(first: seq<RunMeta>, rest: seq<seq<RunMeta>>, r: RunId)
    ensures Thrice([first] + rest, r) ==> (Listed(first, r) && Twice(rest, r)) || Thrice(rest, r)
  {
    hide Listed;
    var pages := [first] + rest;
    if i: nat, j: nat, k: nat :|
      i < j < k < |pages| && Listed(pages[i], r) && Listed(pages[j], r) && Listed(pages[k], r)
    {
      assert Listed(rest[j - 1], r) && Listed(rest[k - 1], r);
      if i > 0 { assert Listed(rest[i - 1], r); }
    }
  }

  lemma {:induction false} TimesTogether(pages: seq<seq<RunMeta>>, r: RunId)
    requires forall i | 0 <= i < |pages| :: Times(pages[i], r) == if Listed(pages[i], r) then 1 else 0
    ensures Times(Together(pages), r) >= 1 <==> Once(pages, r)
    ensures Times(Together(pages), r) >= 2 <==> Twice(pages, r)
    ensures Times(Together(pages), r) >= 3 <==> Thrice(pages, r)
  {
    hide Listed, Filter, Once, Twice, Thrice;
    if |pages| == 0 {
      NoneTogether(r);
      assert pages == [];
    } else {
      var first, rest := pages[0], pages[1..];
      assert pages == [first] + rest;
      TimesTogether(rest, r);
      OnceMore(first, rest, r);
      TwiceMore(first, rest, r);
      ThriceMore(first, rest, r);
      FilterAppend(first, Together(rest), (m: RunMeta) => m.runId == r);
      TwiceIsOnce(rest, r);
    }
  }

  lemma TwiceIsOnce(pages: seq<seq<RunMeta>>, r: RunId)
    ensures Thrice(pages, r) ==> Twice(pages, r)
    ensures Twice(pages, r) ==> Once(pages, r)
  {
    hide Listed;
  }

  lemma NoneTogether(r: RunId)
    ensures Times(Together([]), r) == 0 && !Once([], r) && !Twice([], r) && !Thrice([], r)
  {
  }

  // ---- What is listed ----

  lemma PageTimes(snapshots: seq<Db>, limit: nat, pages: seq<seq<RunMeta>>, j: nat, r: RunId)
    requires limit >= 1 && j < |pages| <= |snapshots| && PageAt(snapshots, limit, None, pages, j)
      && ValidDb(snapshots[j])
    ensures Times(pages[j], r) == if Listed(pages[j], r) then 1 else 0
    ensures Listed(pages[j], r) ==> Ahead(snapshots, None, pages, j, r)
  {
    hide PageAfter, KeyLess, Times, EncodeCursor, KeyFor;
    var page := pages[j];
    PageExact(snapshots[j], limit, KeyFor(None, pages, j));
    forall a, b | 0 <= a < b < |page| ensures page[a].runId != page[b].runId {
      assert page[a] in page && page[b] in page;
      KeyLessIrreflexive(KeyOf(page[a]));
    }
    TimesDistinct(page, r);
  }

  lemma StillAhead(snapshots: seq<Db>, limit: nat, pages: seq<seq<RunMeta>>, j: nat, r: RunId)
    requires Readable(snapshots) && limit >= 1 && j + 1 < |pages| <= |snapshots|
    requires PageAt(snapshots, limit, None, pages, j)
    requires Ahead(snapshots, None, pages, j, r) && !Listed(pages[j], r)
    ensures Beyond(KeyFor(None, pages, j + 1), KeyOf(snapshots[j].metas[r]))
    ensures r in snapshots[j + 1].metas && !Replaced(snapshots[j], snapshots[j + 1], r)
      ==> Ahead(snapshots, None, pages, j + 1, r)
  {
    hide PageAfter, KeyLess, EncodeCursor, AllListable, Listable;
    var from := KeyFor(None, pages, j);
    PageExact(snapshots[j], limit, from);
    var row, last := snapshots[j].metas[r], pages[j][limit - 1];
    assert row.runId == r;
    assert KeyLess(KeyOf(last), KeyOf(row));
    assert KeyFor(None, pages, j + 1) == Some(KeyOf(last));
  }

  lemma LastPage(snapshots: seq<Db>, limit: nat, pages: seq<seq<RunMeta>>, r: RunId)
    requires limit >= 1 && 0 < |pages| <= |snapshots| && Ended(snapshots, limit, None, pages)
      && ValidDb(snapshots[|pages| - 1])
    requires PageAt(snapshots, limit, None, pages, |pages| - 1) && Ahead(snapshots, None, pages, |pages| - 1, r)
    ensures Listed(pages[|pages| - 1], r)
  {
    hide PageAfter, KeyLess, EncodeCursor;
    PageExact(snapshots[|pages| - 1], limit, KeyFor(None, pages, |pages| - 1));
  }

  /** Over a walk that ends, a row beyond the key of a request is listed then or later, if it stays. */
  lemma {:induction false} AheadIsListed(snapshots: seq<Db>, limit: nat, pages: seq<seq<RunMeta>>, j: nat, r: RunId)
    returns (k: nat)
    requires Readable(snapshots) && limit >= 1 && j < |pages| <= |snapshots| && Ended(snapshots, limit, None, pages)
    requires forall i: nat | i < |pages| :: PageAt(snapshots, limit, None, pages, i)
    requires Ahead(snapshots, None, pages, j, r)
    requires forall i, k | j <= i < k < |snapshots| ::
      r in snapshots[k].metas && !Replaced(snapshots[i], snapshots[k], r)
    ensures j <= k < |pages| && Listed(pages[k], r)
    decreases |pages| - j
  {
    hide PageAt, Ended, Listed, Ahead, Replaced;
    if Listed(pages[j], r) {
      k := j;
    } else if j == |pages| - 1 {
      LastPage(snapshots, limit, pages, r);
      k := j;
    } else {
      StillAhead(snapshots, limit, pages, j, r);
      k := AheadIsListed(snapshots, limit, pages, j + 1, r);
    }
  }

  /** Over a walk that ends, a row beyond the key of a request is listed or pulled back. */
  lemma {:induction false} ListedOrPulledBack(snapshots: seq<Db>, limit: nat, pages: seq<seq<RunMeta>>, j: nat,
      r: RunId)
    requires Steady(snapshots) && limit >= 1 && j < |pages| <= |snapshots| && Ended(snapshots, limit, None, pages)
    requires forall i: nat | i < |pages| :: PageAt(snapshots, limit, None, pages, i)
    requires Ahead(snapshots, None, pages, j, r)
    ensures Once(pages, r) || PulledBack(snapshots, pages, r)
    decreases |pages| - j
  {
    hide PageAt, Ended, Listed, Replaced, KeyFor, Beyond;
    if j == |pages| - 1 {
      LastPage(snapshots, limit, pages, r);
    } else if !Listed(pages[j], r) {
      StillAhead(snapshots, limit, pages, j, r);
      if Ahead(snapshots, None, pages, j + 1, r) { ListedOrPulledBack(snapshots, limit, pages, j + 1, r); }
    }
  }

  /** Every key listed is below the key of every later request. */
  lemma {:induction false} KeysPass(snapshots: seq<Db>, limit: nat, pages: seq<seq<RunMeta>>, i: nat, j: nat,
                                    m: RunMeta)
    requires Readable(snapshots) && limit >= 1 && i < j < |pages| <= |snapshots|
    requires forall i: nat | i < |pages| :: PageAt(snapshots, limit, None, pages, i)
    requires m in pages[i]
    ensures var k := KeyFor(None, pages, j); k.Some? && (KeyOf(m) == k.value || KeyLess(KeyOf(m), k.value))
    decreases j
  {
    hide PageAfter, KeyLess, EncodeCursor, AllListable;
    assert PageAt(snapshots, limit, None, pages, j - 1);
    PageExact(snapshots[j - 1], limit, KeyFor(None, pages, j - 1));
    var last := pages[j - 1][limit - 1];
    assert last in pages[j - 1];
    if i < j - 1 {
      KeysPass(snapshots, limit, pages, i, j - 1, m);
      var k := KeyFor(None, pages, j - 1).value;
      assert KeyLess(k, KeyOf(last));
      if KeyOf(m) != k { KeyLessTransitive(KeyOf(m), k, KeyOf(last)); }
    } else {
      var n :| 0 <= n < |pages[i]| && pages[i][n] == m;
    }
  }

  /** A run listed on two pages is listed with two rows, the later one with the greater key. */
  lemma RowsDiffer(snapshots: seq<Db>, limit: nat, pages: seq<seq<RunMeta>>, i: nat, j: nat, r: RunId)
    requires Readable(snapshots) && limit >= 1 && i < j < |pages| <= |snapshots|
    requires forall i: nat | i < |pages| :: PageAt(snapshots, limit, None, pages, i)
    requires Listed(pages[i], r) && Listed(pages[j], r)
    ensures r in snapshots[i].metas && r in snapshots[j].metas
      && KeyLess(KeyOf(snapshots[i].metas[r]), KeyOf(snapshots[j].metas[r]))
  {
    hide PageAfter, KeyLess, EncodeCursor, AllListable;
    var m :| m in pages[i] && m.runId == r;
    var m' :| m' in pages[j] && m'.runId == r;
    assert PageAt(snapshots, limit, None, pages, i) && PageAt(snapshots, limit, None, pages, j);
    KeysPass(snapshots, limit, pages, i, j, m);
    PageExact(snapshots[j], limit, KeyFor(None, pages, j));
    var k := KeyFor(None, pages, j).value;
    if KeyOf(m) != k { KeyLessTransitive(KeyOf(m), k, KeyOf(m')); }
  }

  /** Keys of requests rise. */
  lemma KeysRise(snapshots: seq<Db>, limit: nat, pages: seq<seq<RunMeta>>, i: nat, j: nat)
    requires Readable(snapshots) && limit >= 1 && 0 < i < j < |pages| <= |snapshots|
    requires forall i: nat | i < |pages| :: PageAt(snapshots, limit, None, pages, i)
    ensures var a, b := KeyFor(None, pages, i), KeyFor(None, pages, j);
      a.Some? && b.Some? && (a == b || KeyLess(a.value, b.value))
  {
    hide PageAfter, KeyLess, EncodeCursor, AllListable;
    assert PageAt(snapshots, limit, None, pages, i - 1);
    var last := pages[i - 1][limit - 1];
    assert last in pages[i - 1];
    KeysPass(snapshots, limit, pages, i - 1, j, last);
  }

  /** A run that was pulled back had not been listed, and never will be. */
  lemma PulledBackIsMissed(snapshots: seq<Db>, limit: nat, pages: seq<seq<RunMeta>>, r: RunId, i: nat)
    requires Steady(snapshots) && limit >= 1 && i < |pages| <= |snapshots|
    requires forall i: nat | i < |pages| :: PageAt(snapshots, limit, None, pages, i)
    requires PulledBack(snapshots, pages, r)
    ensures !Listed(pages[i], r)
  {
    hide PageAfter, KeyLess, EncodeCursor, AllListable, KeyFor;
    var j: nat :|
        j + 1 < |pages| && r in snapshots[j].metas && Beyond(KeyFor(None, pages, j + 1), KeyOf(snapshots[j].metas[r]))
        && Replaced(snapshots[j], snapshots[j + 1], r) && !Ahead(snapshots, None, pages, j + 1, r);
    if m :| m in pages[i] && m.runId == r {
      assert PageAt(snapshots, limit, None, pages, i);
      if i <= j {
        assert i < j ==> !Replaced(snapshots[i], snapshots[j], r);
        KeysPass(snapshots, limit, pages, i, j + 1, m);
        ListedBelow(KeyFor(None, pages, j + 1).value, KeyOf(m));
      } else {
        assert i > j + 1 ==> !Replaced(snapshots[j + 1], snapshots[i], r);
        PageTimes(snapshots, limit, pages, i, r);
        if i > j + 1 {
          KeysRise(snapshots, limit, pages, j + 1, i);
          BeyondBoth(KeyFor(None, pages, j + 1), KeyFor(None, pages, i), KeyOf(m));
        }
      }
    }
  }

  lemma ListedBelow(k: Key, m: Key)
    requires m == k || KeyLess(m, k)
    ensures !KeyLess(k, m)
  {
    hide KeyLess;
    KeyLessIrreflexive(k);
    if KeyLess(k, m) && KeyLess(m, k) { KeyLessTransitive(k, m, k); }
  }

  lemma BeyondBoth(a: Option<Key>, b: Option<Key>, k: Key)
    requires a.Some? && b.Some? && (a == b || KeyLess(a.value, b.value)) && Beyond(b, k)
    ensures Beyond(a, k)
  {
    hide KeyLess;
    if a != b { KeyLessTransitive(a.value, b.value, k); }
  }

  /** What a walk lists when a row is replaced at most once. No cursor is rejected and no run is listed
      more than twice. A finished walk lists a run twice exactly when its row was replaced, after it had
      been listed, by one beyond the key of a request still to come; and it misses a run that was there
      when it began exactly when its row, still to come, was replaced by one behind the key of the next
      request. */
  lemma Relisting(snapshots: seq<Db>, limit: nat)
    requires Steady(snapshots) && limit >= 1
    ensures var w, pages := Walk(snapshots, limit, None), Pages(snapshots, limit, None);
      && !w.failed && w.items == Together(pages) && |pages| <= |snapshots|
      && (forall r :: Times(w.items, r) <= 2)
      && (forall r :: Times(w.items, r) == 2 ==> Overtaken(snapshots, pages, r))
      && (w.done ==> forall r :: Overtaken(snapshots, pages, r) ==> Times(w.items, r) == 2)
      && (w.done ==> |snapshots| > 0)
      && (w.done ==>
            forall r | r in snapshots[0].metas :: Times(w.items, r) == 0 <==> PulledBack(snapshots, pages, r))
  {
    PagesExact(snapshots, limit, None);
    var w, pages := Walk(snapshots, limit, None), Pages(snapshots, limit, None);
    hide Steady, Times, Overtaken, PulledBack, Walk, Pages, PageAt;
    forall r: RunId
      ensures Times(w.items, r) <= 2
      ensures Times(w.items, r) == 2 ==> Overtaken(snapshots, pages, r)
      ensures w.done && Overtaken(snapshots, pages, r) ==> Times(w.items, r) == 2
      ensures w.done && r in snapshots[0].metas ==> (Times(w.items, r) == 0 <==> PulledBack(snapshots, pages, r))
    {
      AtMostTwice(snapshots, limit, pages, r);
      if w.done {
        OvertakenListed(snapshots, limit, pages, r);
        if r in snapshots[0].metas { MissedExactly(snapshots, limit, pages, r); }
      }
    }
  }

  lemma Counted(snapshots: seq<Db>, limit: nat, pages: seq<seq<RunMeta>>, r: RunId)
    requires Readable(snapshots) && limit >= 1 && |pages| <= |snapshots|
    requires forall i: nat | i < |pages| :: PageAt(snapshots, limit, None, pages, i)
    ensures Times(Together(pages), r) >= 1 <==> Once(pages, r)
    ensures Times(Together(pages), r) >= 2 <==> Twice(pages, r)
    ensures Times(Together(pages), r) >= 3 <==> Thrice(pages, r)
    ensures forall j: nat | j < |pages| && Listed(pages[j], r) :: Ahead(snapshots, None, pages, j, r)
  {
    hide PageAt, Listed, Ahead, Times, Together, Once, Twice, Thrice;
    forall j: nat | j < |pages|
      ensures Times(pages[j], r) == if Listed(pages[j], r) then 1 else 0
      ensures Listed(pages[j], r) ==> Ahead(snapshots, None, pages, j, r)
    {
      PageTimes(snapshots, limit, pages, j, r);
    }
    TimesTogether(pages, r);
  }

  lemma AtMostTwice(snapshots: seq<Db>, limit: nat, pages: seq<seq<RunMeta>>, r: RunId)
    requires Steady(snapshots) && limit >= 1 && |pages| <= |snapshots|
    requires forall i: nat | i < |pages| :: PageAt(snapshots, limit, None, pages, i)
    ensures Times(Together(pages), r) <= 2
    ensures Times(Together(pages), r) == 2 ==> Overtaken(snapshots, pages, r)
  {
    hide PageAt, Listed, Ahead, Times, Together, KeyLess, Readable;
    Counted(snapshots, limit, pages, r);
    if i: nat, j: nat :| i < j < |pages| && Listed(pages[i], r) && Listed(pages[j], r) {
      RowReplaced(snapshots, limit, pages, i, j, r);
    }
    if i: nat, j: nat, k: nat :|
      i < j < k < |pages| && Listed(pages[i], r) && Listed(pages[j], r) && Listed(pages[k], r)
    {
      RowReplaced(snapshots, limit, pages, i, j, r);
      RowReplaced(snapshots, limit, pages, j, k, r);
    }
  }

  lemma RowReplaced(snapshots: seq<Db>, limit: nat, pages: seq<seq<RunMeta>>, i: nat, j: nat, r: RunId)
    requires Readable(snapshots) && limit >= 1 && i < j < |pages| <= |snapshots|
    requires forall i: nat | i < |pages| :: PageAt(snapshots, limit, None, pages, i)
    requires Listed(pages[i], r) && Listed(pages[j], r)
    ensures Replaced(snapshots[i], snapshots[j], r)
  {
    hide KeyLess, PageAt, Listed, Readable;
    RowsDiffer(snapshots, limit, pages, i, j, r);
    KeyLessIrreflexive(KeyOf(snapshots[i].metas[r]));
  }

  lemma OvertakenListed(snapshots: seq<Db>, limit: nat, pages: seq<seq<RunMeta>>, r: RunId)
    requires Steady(snapshots) && limit >= 1 && |pages| <= |snapshots| && Ended(snapshots, limit, None, pages)
    requires forall i: nat | i < |pages| :: PageAt(snapshots, limit, None, pages, i)
    ensures Overtaken(snapshots, pages, r) ==> Times(Together(pages), r) >= 2
  {
    hide PageAt, Listed, Ahead, Times, Together, Readable;
    Counted(snapshots, limit, pages, r);
    if Overtaken(snapshots, pages, r) {
      var i: nat, j: nat :|
        i < j < |pages| && Listed(pages[i], r) && Replaced(snapshots[i], snapshots[j], r)
          && Ahead(snapshots, None, pages, j, r);
      StaysFrom(snapshots, i, j, r);
      hide Steady, Replaced;
      var k := AheadIsListed(snapshots, limit, pages, j, r);
    }
  }

  lemma StaysFrom(snapshots: seq<Db>, i: nat, j: nat, r: RunId)
    requires Steady(snapshots) && i < j < |snapshots| && Replaced(snapshots[i], snapshots[j], r)
    ensures forall a, b | j <= a < b < |snapshots| ::
      r in snapshots[b].metas && !Replaced(snapshots[a], snapshots[b], r)
  {
    forall a, b | j <= a < b < |snapshots| ensures r in snapshots[b].metas && !Replaced(snapshots[a], snapshots[b], r) {
      assert !Replaced(snapshots[j], snapshots[b], r);
      if j < a { assert !Replaced(snapshots[j], snapshots[a], r); }
    }
  }

  lemma MissedExactly(snapshots: seq<Db>, limit: nat, pages: seq<seq<RunMeta>>, r: RunId)
    requires Steady(snapshots) && limit >= 1 && |pages| <= |snapshots| && Ended(snapshots, limit, None, pages)
    requires forall i: nat | i < |pages| :: PageAt(snapshots, limit, None, pages, i)
    requires r in snapshots[0].metas
    ensures Times(Together(pages), r) == 0 <==> PulledBack(snapshots, pages, r)
  {
    hide PageAt, Listed, Ahead, Times, Together, PulledBack, Steady, Ended;
    assert |pages| > 0 by { EndedSome(snapshots, limit, pages); }
    SteadyReadable(snapshots);
    Counted(snapshots, limit, pages, r);
    AllAhead(snapshots, pages, r);
    ListedOrPulledBack(snapshots, limit, pages, 0, r);
    if PulledBack(snapshots, pages, r) {
      forall i: nat | i < |pages| ensures !Listed(pages[i], r) { PulledBackIsMissed(snapshots, limit, pages, r, i); }
    }
  }

  lemma SteadyReadable(snapshots: seq<Db>)
    requires Steady(snapshots)
    ensures Readable(snapshots)
  {
  }

  lemma EndedSome(snapshots: seq<Db>, limit: nat, pages: seq<seq<RunMeta>>)
    requires limit >= 1 && |pages| <= |snapshots| && Ended(snapshots, limit, None, pages)
    ensures |pages| > 0
  {
    hide PageAfter;
  }

  lemma AllAhead(snapshots: seq<Db>, pages: seq<seq<RunMeta>>, r: RunId)
    requires 0 < |pages| <= |snapshots| && r in snapshots[0].metas
    ensures Ahead(snapshots, None, pages, 0, r)
  {
  }

  // ---- When creation times do not go back ----

  /** The row of a run keeps its key or gets a later one. */
  ghost predicate Advances(a: Db, b: Db)
  {
    forall r | r in a.metas && r in b.metas ::
      KeyOf(b.metas[r]) == KeyOf(a.metas[r]) || KeyLess(KeyOf(a.metas[r]), KeyOf(b.metas[r]))
  }

  lemma NonePulledBack(snapshots: seq<Db>, pages: seq<seq<RunMeta>>, r: RunId)
    requires |pages| <= |snapshots| && forall j | 0 <= j < |snapshots| - 1 :: Advances(snapshots[j], snapshots[j + 1])
    ensures !PulledBack(snapshots, pages, r)
  {
    hide KeyLess, KeyFor;
    if PulledBack(snapshots, pages, r) {
      var j: nat :|
        j + 1 < |pages| && r in snapshots[j].metas && Beyond(KeyFor(None, pages, j + 1), KeyOf(snapshots[j].metas[r]))
        && Replaced(snapshots[j], snapshots[j + 1], r) && !Ahead(snapshots, None, pages, j + 1, r);
      var was, now := KeyOf(snapshots[j].metas[r]), KeyOf(snapshots[j + 1].metas[r]);
      assert Advances(snapshots[j], snapshots[j + 1]);
      if was != now && KeyFor(None, pages, j + 1).Some? {
        KeyLessTransitive(KeyFor(None, pages, j + 1).value, was, now);
      }
    }
  }
}
