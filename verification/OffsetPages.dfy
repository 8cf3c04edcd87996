/** Offset pages over a fixed list, as an import is paged. */
module OffsetPages {
  import opened RunsList
  import opened StepModel
  import opened Wrappers

  /** findIndex of the cursor's row, or the length. */
  function RowIndex(ordered: seq<RunMeta>, k: Key): (i: nat)
    ensures i <= |ordered| && (i < |ordered| ==> KeyOf(ordered[i]) == k)
  {
    if |ordered| == 0 || KeyOf(ordered[0]) == k then 0 else 1 + RowIndex(ordered[1..], k)
  }

  function PageFrom(ordered: seq<RunMeta>, limit: nat, start: nat): Page
    requires limit >= 1 && start <= |ordered|
  {
    var slice := Take(ordered[start..], limit + 1);
    var items := Take(slice, limit);
    Page(items, if |slice| > limit then Some(EncodeCursor(KeyOf(items[|items| - 1]))) else None)
  }

  function OffsetPage(ordered: seq<RunMeta>, limit: nat, cursor: Option<string>): Result<Page>
    requires limit >= 1
  {
    if cursor.None? || cursor.value == "" then Ok(PageFrom(ordered, limit, 0))
    else match DecodeCursor(cursor.value)
      case None => Err(InvalidCursor)
      case Some(k) =>
        var i := RowIndex(ordered, k);
        if i == |ordered| then Err(CursorNotFound) else Ok(PageFrom(ordered, limit, i + 1))
  }

  /** A cursor that does not decode is an error, and so is one whose row the list does not have. */
  lemma OffsetCursorUsed(ordered: seq<RunMeta>, limit: nat, cursor: string)
    requires limit >= 1 && cursor != ""
    ensures DecodeCursor(cursor) == None <==> OffsetPage(ordered, limit, Some(cursor)) == Err(InvalidCursor)
    ensures DecodeCursor(cursor).Some? && (forall m | m in ordered :: KeyOf(m) != DecodeCursor(cursor).value)
      <==> OffsetPage(ordered, limit, Some(cursor)) == Err(CursorNotFound)
  {
    hide PageFrom, DecodeCursor;
    if DecodeCursor(cursor).Some? { FoundRow(ordered, DecodeCursor(cursor).value); }
  }

  lemma {:induction false} FoundRow(ordered: seq<RunMeta>, k: Key)
    ensures RowIndex(ordered, k) < |ordered| <==> exists m | m in ordered :: KeyOf(m) == k
  {
    if |ordered| > 0 {
      FoundRow(ordered[1..], k);
      assert ordered == [ordered[0]] + ordered[1..];
      if KeyOf(ordered[0]) == k { assert ordered[0] in ordered; }
    }
  }

  function OffsetWalk(ordered: seq<RunMeta>, limit: nat, cursor: Option<string>, requests: nat): Walked
    requires limit >= 1
    decreases requests
  {
    if requests == 0 then Walked([], false, false)
    else match OffsetPage(ordered, limit, cursor)
      case Err(_) => Walked([], false, true)
      case Ok(page) =>
        if page.nextCursor.None? then Walked(page.items, true, false)
        else
          var rest := OffsetWalk(ordered, limit, page.nextCursor, requests - 1);
          rest.(items := page.items + rest.items)
  }

  ghost predicate DistinctKeys(ordered: seq<RunMeta>)
  {
    forall i, j | 0 <= i < j < |ordered| :: KeyOf(ordered[i]) != KeyOf(ordered[j])
  }

  lemma {:induction false} RowIndexOf(ordered: seq<RunMeta>, i: nat)
    requires DistinctKeys(ordered) && i < |ordered|
    ensures RowIndex(ordered, KeyOf(ordered[i])) == i
  {
    if i > 0 {
      assert KeyOf(ordered[0]) != KeyOf(ordered[i]);
      assert ordered[1..][i - 1] == ordered[i];
      RowIndexOf(ordered[1..], i - 1);
    }
  }

  /** The cursor of the row before `start`. */
  function CursorBefore(ordered: seq<RunMeta>, start: nat): Option<string>
    requires start <= |ordered|
  {
    if start == 0 then None else Some(EncodeCursor(KeyOf(ordered[start - 1])))
  }

  lemma OffsetOfCursor(ordered: seq<RunMeta>, limit: nat, start: nat)
    requires limit >= 1 && start <= |ordered| && DistinctKeys(ordered)
      && (start > 0 ==> Listable(KeyOf(ordered[start - 1])))
    ensures OffsetPage(ordered, limit, CursorBefore(ordered, start)) == Ok(PageFrom(ordered, limit, start))
  {
    hide PageFrom, DecodeCursor;
    if start > 0 {
      CursorRoundTrip(KeyOf(ordered[start - 1]));
      RowIndexOf(ordered, start - 1);
    }
  }

  /** From `start` on, every row that ends a page, other than the last page, has a cursor that decodes to it. */
  predicate EndsListable(ordered: seq<RunMeta>, limit: nat, start: nat)
    requires limit >= 1
    decreases |ordered| - start
  {
    start + limit < |ordered| ==>
      Listable(KeyOf(ordered[start + limit - 1])) && EndsListable(ordered, limit, start + limit)
  }

  lemma OffsetStep(ordered: seq<RunMeta>, limit: nat, start: nat, requests: nat)
    requires limit >= 1 && start <= |ordered| && DistinctKeys(ordered) && requests > 0
    requires start > 0 ==> Listable(KeyOf(ordered[start - 1]))
    ensures OffsetWalk(ordered, limit, CursorBefore(ordered, start), requests) ==
      if start + limit >= |ordered| then Walked(ordered[start..], true, false)
      else
        var rest := OffsetWalk(ordered, limit, CursorBefore(ordered, start + limit), requests - 1);
        rest.(items := ordered[start..start + limit] + rest.items)
  {
    hide OffsetPage, EncodeCursor, Listable, DistinctKeys, PageFrom;
    OffsetOfCursor(ordered, limit, start);
    PageFromExact(ordered, limit, start);
  }

  lemma OffsetFirst(ordered: seq<RunMeta>, limit: nat, cursor: Option<string>, requests: nat)
    requires limit >= 1
    ensures var w := OffsetWalk(ordered, limit, cursor, requests);
      w.done ==>
        requests > 0 && OffsetPage(ordered, limit, cursor).Ok?
        && OffsetPage(ordered, limit, cursor).value.items <= w.items
        && (OffsetPage(ordered, limit, cursor).value.items == [] ==> w.items == [])
  {
    hide OffsetPage;
    if requests > 0 && OffsetPage(ordered, limit, cursor).Ok? {
      NextNeedsItems(ordered, limit, cursor);
    }
  }

  lemma NextNeedsItems(ordered: seq<RunMeta>, limit: nat, cursor: Option<string>)
    requires limit >= 1 && OffsetPage(ordered, limit, cursor).Ok?
    ensures OffsetPage(ordered, limit, cursor).value.items == []
      ==> OffsetPage(ordered, limit, cursor).value.nextCursor.None?
  {
  }

  /** A cursor that does not decode to its row leads, if anywhere, to some other place of the list. */
  lemma WrongPage(ordered: seq<RunMeta>, limit: nat, start: nat)
    requires limit >= 1 && 0 < start < |ordered| && DistinctKeys(ordered) && !Listable(KeyOf(ordered[start - 1]))
    ensures var page := OffsetPage(ordered, limit, CursorBefore(ordered, start));
      page.Ok? && page.value.items != [] ==> page.value.items[0] != ordered[start]
  {
    hide Listable, EncodeCursor, DecodeCursor, PageFrom;
    var k := KeyOf(ordered[start - 1]);
    var cursor := CursorBefore(ordered, start);
    CursorRoundTrip(k);
    CursorNotEmpty(k);
    if OffsetPage(ordered, limit, cursor).Ok? {
      var i := RowIndex(ordered, DecodeCursor(cursor.value).value);
      PageStartsAt(ordered, limit, i + 1);
    }
  }

  /** What follows such a cursor is not the rest of the list. */
  lemma WrongTurn(ordered: seq<RunMeta>, limit: nat, start: nat, requests: nat)
    requires limit >= 1 && 0 < start < |ordered| && DistinctKeys(ordered) && !Listable(KeyOf(ordered[start - 1]))
    ensures OffsetWalk(ordered, limit, CursorBefore(ordered, start), requests) != Walked(ordered[start..], true, false)
  {
    hide OffsetWalk, OffsetPage, Listable, CursorBefore, DistinctKeys;
    WrongPage(ordered, limit, start);
    OffsetFirst(ordered, limit, CursorBefore(ordered, start), requests);
  }

  lemma CursorNotEmpty(k: Key)
    ensures EncodeCursor(k) != ""
  {
  }

  lemma PageStartsAt(ordered: seq<RunMeta>, limit: nat, start: nat)
    requires limit >= 1 && start <= |ordered|
    ensures var items := PageFrom(ordered, limit, start).items;
      if start == |ordered| then items == [] else |items| > 0 && items[0] == ordered[start]
  {
    PageFromExact(ordered, limit, start);
  }

  /** Following the cursors over a list ends and the pages put together are the list, exactly when every
      row that ends a page, other than the last page, has a cursor that decodes to it. */
  lemma {:induction false} OffsetPagination(ordered: seq<RunMeta>, limit: nat, start: nat, requests: nat)
    requires limit >= 1 && start <= |ordered| && DistinctKeys(ordered) && requests > |ordered| - start
    requires start > 0 ==> Listable(KeyOf(ordered[start - 1]))
    ensures OffsetWalk(ordered, limit, CursorBefore(ordered, start), requests) == Walked(ordered[start..], true, false)
      <==> EndsListable(ordered, limit, start)
    decreases requests
  {
    hide OffsetWalk, EncodeCursor, Listable, DistinctKeys, CursorBefore;
    OffsetStep(ordered, limit, start, requests);
    var end := start + limit;
    if end < |ordered| {
      assert ordered[start..] == ordered[start..end] + ordered[end..];
      var rest := OffsetWalk(ordered, limit, CursorBefore(ordered, end), requests - 1);
      if ordered[start..end] + rest.items == ordered[start..] {
        assert rest.items == (ordered[start..end] + rest.items)[limit..] == ordered[end..];
      }
      if Listable(KeyOf(ordered[end - 1])) {
        OffsetPagination(ordered, limit, end, requests - 1);
      } else {
        WrongTurn(ordered, limit, end, requests - 1);
      }
    }
  }

  lemma PageFromExact(ordered: seq<RunMeta>, limit: nat, start: nat)
    requires limit >= 1 && start <= |ordered|
    ensures PageFrom(ordered, limit, start) ==
      if start + limit >= |ordered| then Page(ordered[start..], None)
      else Page(ordered[start..start + limit], CursorBefore(ordered, start + limit))
  {
    hide EncodeCursor;
    var rest := ordered[start..];
    if |rest| > limit {
      assert Take(Take(rest, limit + 1), limit) == rest[..limit] == ordered[start..start + limit];
    }
  }
}
