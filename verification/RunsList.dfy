/** Listing runs page by page: keyset pages over the live store, offset pages over an import. */
module RunsList {
  import opened Journal
  import opened Ordering
  import opened Source
  import opened StepModel
  import opened Text
  import opened Wrappers

  // ---- Cursors ----

  const NUL := '\0'

  datatype Key = Key(createdAt: string, runId: RunId)

  function KeyOf(m: RunMeta): Key { Key(m.createdAt, m.runId) }

  predicate NulFree(s: string) { forall i | 0 <= i < |s| :: s[i] != NUL }

  /** The text a cursor carries; base64url on top of it is a bijection and is not modelled. */
  function EncodeCursor(k: Key): string { k.createdAt + [NUL] + k.runId }

  /** indexOf("\0"), or the length when there is none. */
  function NulIndex(s: string): (i: nat)
    ensures i <= |s| && NulFree(s[..i]) && (i < |s| ==> s[i] == NUL)
  {
    if |s| == 0 || s[0] == NUL then 0
    else
      var j := NulIndex(s[1..]);
      assert s[..j + 1] == [s[0]] + s[1..][..j];
      j + 1
  }

  function DecodeCursor(raw: string): Option<Key>
  {
    var i := NulIndex(raw);
    if i == |raw| || i == 0 || i == |raw| - 1 then None else Some(Key(raw[..i], raw[i + 1..]))
  }

  /** A row whose cursor can be followed. */
  predicate Listable(k: Key) { k.createdAt != "" && NulFree(k.createdAt) && k.runId != "" }

  lemma {:induction false} FirstNul(s: string, n: nat)
    requires n < |s| && s[n] == NUL && NulFree(s[..n])
    ensures NulIndex(s) == n
  {
    if n > 0 {
      assert s[..n][0] == s[0];
      assert s[1..][..n - 1] == s[..n][1..];
      FirstNul(s[1..], n - 1);
    }
  }

  /** A cursor decodes to the row it was made from exactly when the creation time is a non-empty text
      without NUL and the run id is not empty. */
  lemma CursorRoundTrip(k: Key)
    ensures DecodeCursor(EncodeCursor(k)) == Some(k) <==> Listable(k)
    ensures EncodeCursor(k) == k.createdAt + "\0" + k.runId
  {
    var raw := EncodeCursor(k);
    var n := |k.createdAt|;
    if NulFree(k.createdAt) {
      assert raw[..n] == k.createdAt && raw[n + 1..] == k.runId;
      FirstNul(raw, n);
    }
  }

  /** An import gives an undated run the empty creation time: a page that ends there has a cursor
      that the next request rejects. */
  lemma UndatedCursor(r: RunId)
    ensures DecodeCursor(EncodeCursor(Key("", r))) == None
  {
    var raw := EncodeCursor(Key("", r));
    assert raw[0] == NUL;
    FirstNul(raw, 0);
  }

  // ---- Query parameters ----

  const DEFAULT_LIMIT: nat := 50
  const MAX_LIMIT: nat := 500

  datatype Query = Everything | Paged(limit: nat, cursor: Option<string>)

  /** `number` is Number(): None for a text that is not an integer. An accepted page limit is
      always between 1 and 500, and a cursor is never empty. */
  function ParseQuery(limitParam: Option<string>, cursorParam: Option<string>,
                      number: string -> Option<int>): (q: Result<Query>)
    ensures q.Ok? && q.value.Everything? <==> limitParam.None? && cursorParam.None?
    ensures q.Err? <==>
      limitParam.Some? && limitParam.value != ""
      && (number(limitParam.value).None? || number(limitParam.value).value < 1)
    ensures q.Ok? && q.value.Paged?
      ==> 1 <= q.value.limit <= MAX_LIMIT && (q.value.cursor.Some? ==> q.value.cursor.value != "")
  {
    if limitParam.None? && cursorParam.None? then Ok(Everything)
    else
      var text := if cursorParam.Some? then Trim(cursorParam.value) else "";
      var cursor := if text == "" then None else Some(text);
      if limitParam.None? || limitParam.value == "" then Ok(Paged(DEFAULT_LIMIT, cursor))
      else match number(limitParam.value)
        case None => Err(InvalidLimit)
        case Some(n) => if n < 1 then Err(InvalidLimit) else Ok(Paged(if n < MAX_LIMIT then n else MAX_LIMIT, cursor))
  }

  /** The limit and the cursor are the ones asked for: no limit means 50, more than 500 means 500, and a
      cursor is trimmed and left out when nothing is left of it. */
  lemma QueryAsked(limitParam: Option<string>, cursorParam: Option<string>, number: string -> Option<int>)
    requires ParseQuery(limitParam, cursorParam, number).Ok?
    requires ParseQuery(limitParam, cursorParam, number).value.Paged?
    ensures var q := ParseQuery(limitParam, cursorParam, number).value;
      && (q.cursor.Some? <==> cursorParam.Some? && Trim(cursorParam.value) != "")
      && (q.cursor.Some? ==> q.cursor.value == Trim(cursorParam.value))
      && (if limitParam.None? || limitParam.value == "" then q.limit == 50
          else if number(limitParam.value).value > 500 then q.limit == 500
          else q.limit == number(limitParam.value).value)
  {
    hide Trim;
  }

  // ---- Keyset pages over the live store ----

  predicate KeyLess(a: Key, b: Key)
  {
    Less(a.createdAt, b.createdAt) || (a.createdAt == b.createdAt && Less(a.runId, b.runId))
  }

  lemma KeyLessTransitive(a: Key, b: Key, c: Key)
    requires KeyLess(a, b) && KeyLess(b, c)
    ensures KeyLess(a, c)
  {
    if Less(a.createdAt, b.createdAt) && Less(b.createdAt, c.createdAt) {
      LessTransitive(a.createdAt, b.createdAt, c.createdAt);
    }
    if Less(a.runId, b.runId) && Less(b.runId, c.runId) { LessTransitive(a.runId, b.runId, c.runId); }
  }

  lemma KeyLessIrreflexive(a: Key)
    ensures !KeyLess(a, a)
  {
    LessIrreflexive(a.createdAt);
    LessIrreflexive(a.runId);
  }

  predicate Beyond(from: Option<Key>, k: Key) { from.None? || KeyLess(from.value, k) }

  /** WHERE created_at > ? OR (created_at = ? AND run_id > ?) */
  function After(db: Db, from: Option<Key>): (S: set<RunId>)
    ensures S <= db.metas.Keys
  {
    set r | r in db.metas && Beyond(from, KeyOf(db.metas[r]))
  }

  datatype Page = Page(items: seq<RunMeta>, nextCursor: Option<string>)

  function Take<T>(s: seq<T>, n: nat): seq<T> { if |s| <= n then s else s[..n] }

  /** The page after a key: one row more than asked for is fetched, to know whether there are more. */
  function PageAfter(db: Db, limit: nat, from: Option<Key>): Page
    requires limit >= 1
  {
    OrderedExact(db, After(db, from));
    var rows := Take(Ordered(db, After(db, from)), limit + 1);
    var hasMore := |rows| > limit;
    var items := MetasOf(db, Take(rows, limit));
    Page(items, if hasMore then Some(EncodeCursor(KeyOf(items[|items| - 1]))) else None)
  }

  function ListRunMetaPage(db: Db, limit: nat, cursor: Option<string>): Result<Page>
    requires limit >= 1
  {
    if cursor.None? || cursor.value == "" then Ok(PageAfter(db, limit, None))
    else match DecodeCursor(cursor.value)
      case None => Err(InvalidCursor)
      case Some(k) => Ok(PageAfter(db, limit, Some(k)))
  }

  /** No cursor, or an empty one, asks for the first page; one that does not decode is an error. */
  lemma CursorUsed(db: Db, limit: nat, cursor: Option<string>)
    requires limit >= 1
    ensures cursor.None? || cursor.value == "" ==> ListRunMetaPage(db, limit, cursor) == Ok(PageAfter(db, limit, None))
    ensures cursor.Some? && cursor.value != "" && DecodeCursor(cursor.value) == None ==>
      ListRunMetaPage(db, limit, cursor) == Err(InvalidCursor)
    ensures cursor.Some? && cursor.value != "" && DecodeCursor(cursor.value).Some? ==>
      ListRunMetaPage(db, limit, cursor) == Ok(PageAfter(db, limit, DecodeCursor(cursor.value)))
  {
    hide PageAfter, DecodeCursor;
  }

  ghost predicate AscendingKeys(items: seq<RunMeta>)
  {
    forall i, j | 0 <= i < j < |items| :: KeyLess(KeyOf(items[i]), KeyOf(items[j]))
  }

  /** A page shows the first rows beyond the key, in order. */
  lemma PageRows(db: Db, limit: nat, from: Option<Key>)
    requires limit >= 1
    ensures var ids, page := Ordered(db, After(db, from)), PageAfter(db, limit, from);
      && (forall r :: r in ids <==> r in After(db, from)) && Ascending(ids, ByCreation(db.metas))
      && |page.items| == (if |ids| <= limit then |ids| else limit)
      && (forall i | 0 <= i < |page.items| :: page.items[i] == db.metas[ids[i]])
      && page.nextCursor == if |ids| <= limit then None else Some(EncodeCursor(KeyOf(page.items[limit - 1])))
  {
    hide Ordered, After, EncodeCursor;
    OrderedExact(db, After(db, from));
    var ids := Ordered(db, After(db, from));
    assert Take(Take(ids, limit + 1), limit) == Take(ids, limit);
  }

  /** The rows of a page: in order, beyond the key, and none skipped. */
  lemma PageExact(db: Db, limit: nat, from: Option<Key>)
    requires ValidDb(db) && limit >= 1
    ensures var page := PageAfter(db, limit, from);
      && AscendingKeys(page.items)
      && (forall m | m in page.items :: m.runId in db.metas && db.metas[m.runId] == m && Beyond(from, KeyOf(m)))
      && (page.nextCursor.Some?
         ==> |page.items| == limit && page.nextCursor == Some(EncodeCursor(KeyOf(page.items[limit - 1]))))
      && (forall r | r in After(db, from) ::
            db.metas[r] in page.items
            || (page.nextCursor.Some? && KeyLess(KeyOf(page.items[limit - 1]), KeyOf(db.metas[r]))))
  {
    hide Ordered, Beyond, KeyLess, EncodeCursor, PageAfter;
    PageRows(db, limit, from);
    var S, ids, page := After(db, from), Ordered(db, After(db, from)), PageAfter(db, limit, from);
    forall i, j | 0 <= i < j < |ids| ensures KeyLess(KeyOf(db.metas[ids[i]]), KeyOf(db.metas[ids[j]])) {
      IdsAscend(db, ids, i, j);
    }
    hide Ascending;
    forall m | m in page.items ensures m.runId in db.metas && db.metas[m.runId] == m && Beyond(from, KeyOf(m)) {
      var i :| 0 <= i < |page.items| && page.items[i] == m;
      assert ids[i] in S;
    }
    forall r | r in S
      ensures db.metas[r] in page.items
        || (page.nextCursor.Some? && KeyLess(KeyOf(page.items[limit - 1]), KeyOf(db.metas[r])))
    {
      var i :| 0 <= i < |ids| && ids[i] == r;
      if i < |page.items| { assert page.items[i] == db.metas[r]; }
    }
  }

  lemma IdsAscend(db: Db, ids: seq<RunId>, i: int, j: int)
    requires ValidDb(db) && Ascending(ids, ByCreation(db.metas)) && 0 <= i < j < |ids|
      && forall r | r in ids :: r in db.metas
    ensures KeyLess(KeyOf(db.metas[ids[i]]), KeyOf(db.metas[ids[j]]))
  {
    assert ByCreation(db.metas)(ids[i], ids[j]);
    assert ids[i] in ids && ids[j] in ids;
  }

  // ---- Following the cursors ----

  datatype Walked = Walked(items: seq<RunMeta>, done: bool, failed: bool)

  /** One request per snapshot of the store, each with the cursor of the page before, until a page
      has none. */
  function Walk(snapshots: seq<Db>, limit: nat, cursor: Option<string>): Walked
    requires limit >= 1
  {
    if |snapshots| == 0 then Walked([], false, false)
    else match ListRunMetaPage(snapshots[0], limit, cursor)
      case Err(_) => Walked([], false, true)
      case Ok(page) =>
        if page.nextCursor.None? then Walked(page.items, true, false)
        else
          var rest := Walk(snapshots[1..], limit, page.nextCursor);
          rest.(items := page.items + rest.items)
  }

  function CursorOf(from: Option<Key>): Option<string>
  {
    match from case None => None case Some(k) => Some(EncodeCursor(k))
  }

  lemma PageOfCursor(db: Db, limit: nat, from: Option<Key>)
    requires limit >= 1 && (from.Some? ==> Listable(from.value))
    ensures ListRunMetaPage(db, limit, CursorOf(from)) == Ok(PageAfter(db, limit, from))
  {
    hide PageAfter, DecodeCursor;
    if from.Some? { CursorRoundTrip(from.value); }
  }

  lemma WalkStep(snapshots: seq<Db>, limit: nat, from: Option<Key>)
    requires limit >= 1 && |snapshots| > 0 && (from.Some? ==> Listable(from.value))
    ensures var page := PageAfter(snapshots[0], limit, from);
      Walk(snapshots, limit, CursorOf(from)) ==
        if page.nextCursor.None? then Walked(page.items, true, false)
        else var rest := Walk(snapshots[1..], limit, page.nextCursor); rest.(items := page.items + rest.items)
  {
    PageOfCursor(snapshots[0], limit, from);
    hide PageAfter, ListRunMetaPage, Listable, EncodeCursor;
  }

  // ---- A store that does not change ----

  function Same(db: Db, n: nat): (snapshots: seq<Db>)
    ensures |snapshots| == n && forall i | 0 <= i < n :: snapshots[i] == db
  {
    seq(n, i => db)
  }

  predicate AllListable(db: Db) { forall r | r in db.metas :: Listable(KeyOf(db.metas[r])) }

  lemma AscendingJoin(a: seq<RunMeta>, b: seq<RunMeta>)
    requires AscendingKeys(a) && AscendingKeys(b) && |a| > 0
    requires forall m | m in b :: KeyLess(KeyOf(a[|a| - 1]), KeyOf(m))
    ensures AscendingKeys(a + b)
  {
    hide KeyLess;
    forall i, j | 0 <= i < j < |a + b| ensures KeyLess(KeyOf((a + b)[i]), KeyOf((a + b)[j])) {
      if i < |a| <= j {
        assert b[j - |a|] in b;
        if i < |a| - 1 { KeyLessTransitive(KeyOf(a[i]), KeyOf(a[|a| - 1]), KeyOf(b[j - |a|])); }
      }
    }
  }

  lemma FewerAfter(db: Db, from: Option<Key>, k: Key, r: RunId)
    requires r in After(db, from) && KeyOf(db.metas[r]) == k && (from.Some? ==> KeyLess(from.value, k))
    ensures |After(db, Some(k))| < |After(db, from)|
  {
    hide KeyLess;
    KeyLessIrreflexive(k);
    forall x | x in After(db, Some(k)) ensures x in After(db, from) {
      if from.Some? { KeyLessTransitive(from.value, k, KeyOf(db.metas[x])); }
    }
    SubsetSize(After(db, Some(k)), After(db, from) - {r});
  }

  /** Every page of a store that does not change leaves fewer rows beyond the cursor. */
  lemma {:induction false} StaticWalk(db: Db, limit: nat, from: Option<Key>, n: nat)
    requires ValidDb(db) && limit >= 1 && AllListable(db)
    requires n > |After(db, from)| && (from.Some? ==> Listable(from.value))
    ensures var w := Walk(Same(db, n), limit, CursorOf(from));
      && w.done && !w.failed && AscendingKeys(w.items)
      && (forall m | m in w.items :: m.runId in db.metas && db.metas[m.runId] == m && Beyond(from, KeyOf(m)))
      && (forall r | r in After(db, from) :: db.metas[r] in w.items)
    decreases n
  {
    hide PageAfter, KeyLess, EncodeCursor, Listable, After, ValidDb, AscendingKeys, Walk;
    WalkStep(Same(db, n), limit, from);
    PageExact(db, limit, from);
    assert Same(db, n)[0] == db && Same(db, n)[1..] == Same(db, n - 1);
    var page := PageAfter(db, limit, from);
    if page.nextCursor.Some? {
      var last := page.items[limit - 1];
      assert last in page.items;
      InAfter(db, from, last.runId);
      FewerAfter(db, from, KeyOf(last), last.runId);
      StaticWalk(db, limit, Some(KeyOf(last)), n - 1);
      var rest := Walk(Same(db, n - 1), limit, page.nextCursor);
      AscendingJoin(page.items, rest.items);
      forall m | m in rest.items ensures Beyond(from, KeyOf(m)) {
        if from.Some? { KeyLessTransitive(from.value, KeyOf(last), KeyOf(m)); }
      }
      forall r | r in After(db, from) ensures db.metas[r] in page.items + rest.items {
        if db.metas[r] !in page.items { BeyondLast(db, from, KeyOf(last), r); }
      }
    }
  }

  lemma BeyondLast(db: Db, from: Option<Key>, k: Key, r: RunId)
    requires r in After(db, from) && KeyLess(k, KeyOf(db.metas[r]))
    ensures r in After(db, Some(k))
  {
  }

  lemma InAfter(db: Db, from: Option<Key>, r: RunId)
    requires r in db.metas && Beyond(from, KeyOf(db.metas[r]))
    ensures r in After(db, from)
  {
  }

  /** The list without pages: allRunIds, each with its metadata. */
  function Unpaginated(db: Db): seq<RunMeta>
  {
    AllIds(db);
    MetasOf(db, AllRunIds(db))
  }

  /** Rows of the store in key order, all of them, are the list without pages. */
  lemma AllInOrder(db: Db, items: seq<RunMeta>)
    requires AscendingKeys(items) && (forall m | m in items :: m.runId in db.metas && db.metas[m.runId] == m)
    requires forall r | r in db.metas :: db.metas[r] in items && db.metas[r].runId == r
    ensures items == Unpaginated(db)
  {
    hide KeyLess, AllRunIds, Ordered, MetaBefore;
    AllIds(db);
    ByCreationTotal(db.metas, db.metas.Keys);
    var ids, all := RunIds(items), AllRunIds(db);
    forall i, j | 0 <= i < j < |ids| ensures ByCreation(db.metas)(ids[i], ids[j]) {
      assert items[i] in items && items[j] in items;
      KeysCompare(db, items[i], items[j]);
    }
    forall r ensures r in ids <==> r in db.metas.Keys {
      if r in ids { var i :| 0 <= i < |ids| && ids[i] == r; assert items[i] in items; }
      if r in db.metas {
        var i :| 0 <= i < |items| && items[i] == db.metas[r];
        assert ids[i] == r;
      }
    }
    hide Ascending;
    AscendingUnique(ids, all, db.metas.Keys, ByCreation(db.metas));
    forall i | 0 <= i < |items| ensures items[i] == Unpaginated(db)[i] {
      assert items[i] in items && all[i] == items[i].runId;
    }
    assert items == Unpaginated(db);
  }

  /** Over a store that does not change, following the cursors ends, and the pages put together are
      the unpaginated list, for every page size. */
  lemma StaticPagination(db: Db, limit: nat, n: nat)
    requires ValidDb(db) && limit >= 1 && AllListable(db) && n > |db.metas|
    ensures Walk(Same(db, n), limit, None) == Walked(Unpaginated(db), true, false)
  {
    hide Walk, Listable, KeyLess, Unpaginated, AscendingKeys, After;
    AllAfter(db);
    StaticWalk(db, limit, None, n);
    AllInOrder(db, Walk(Same(db, n), limit, None).items);
  }

  lemma AllAfter(db: Db)
    ensures After(db, None) == db.metas.Keys
  {
  }

  lemma AllIds(db: Db)
    ensures forall r :: r in AllRunIds(db) <==> r in db.metas
    ensures Ascending(AllRunIds(db), ByCreation(db.metas))
  {
    OrderedExact(db, db.metas.Keys);
  }

  lemma KeysCompare(db: Db, a: RunMeta, b: RunMeta)
    requires a.runId in db.metas && db.metas[a.runId] == a && b.runId in db.metas && db.metas[b.runId] == b
    requires KeyLess(KeyOf(a), KeyOf(b))
    ensures ByCreation(db.metas)(a.runId, b.runId)
  {
  }
}
