/** Paging through the runs of an import: its list has every run once, so its cursors can be followed. */
module ImportListing {
  import opened Import
  import opened OffsetPages
  import opened Ordering
  import opened RunsList
  import opened Source
  import opened StepModel
  import opened Wrappers

  // ---- An import has one row per run ----

  ghost predicate DistinctRuns(table: seq<RunMeta>)
  {
    forall i, j | 0 <= i < j < |table| :: table[i].runId != table[j].runId
  }

  ghost predicate Has(table: seq<RunMeta>, r: RunId) { exists m | m in table :: m.runId == r }

  lemma {:induction false} MetaInHas(table: seq<RunMeta>, r: RunId)
    ensures MetaIn(table, r).Some? <==> Has(table, r)
  {
    if |table| > 0 {
      MetaInHas(table[1..], r);
      assert table == [table[0]] + table[1..];
    }
  }

  lemma DistinctCons(m: RunMeta, rest: seq<RunMeta>)
    requires DistinctRuns(rest) && !Has(rest, m.runId)
    ensures DistinctRuns([m] + rest)
  {
    var all := [m] + rest;
    forall i, j | 0 <= i < j < |all| ensures all[i].runId != all[j].runId { assert rest[j - 1] in rest; }
  }

  lemma DistinctHead(table: seq<RunMeta>)
    requires DistinctRuns(table) && |table| > 0
    ensures DistinctRuns(table[1..]) && !Has(table[1..], table[0].runId) && table == [table[0]] + table[1..]
  {
    forall m | m in table[1..] ensures m.runId != table[0].runId {
      var i :| 0 <= i < |table[1..]| && table[1..][i] == m;
      assert table[i + 1] == m;
    }
  }

  lemma {:induction false} UpsertKeepsDistinct(table: seq<RunMeta>, m: RunMeta)
    requires DistinctRuns(table)
    ensures DistinctRuns(Upsert(table, m))
    ensures forall r :: Has(Upsert(table, m), r) <==> Has(table, r) || r == m.runId
  {
    if |table| == 0 {
      assert m in [m];
    } else {
      DistinctHead(table);
      var rest := table[1..];
      if table[0].runId == m.runId {
        DistinctCons(m, rest);
        HasCons(m, rest);
      } else {
        UpsertKeepsDistinct(rest, m);
        DistinctCons(table[0], Upsert(rest, m));
        HasCons(table[0], Upsert(rest, m));
      }
      HasCons(table[0], rest);
    }
  }

  lemma HasCons(m: RunMeta, rest: seq<RunMeta>)
    ensures forall r :: Has([m] + rest, r) <==> r == m.runId || Has(rest, r)
  {
    forall r ensures Has([m] + rest, r) <==> r == m.runId || Has(rest, r) {
      assert m in [m] + rest && forall x | x in rest :: x in [m] + rest;
    }
  }

  lemma {:induction false} UpsertAllDistinct(table: seq<RunMeta>, metas: seq<RunMeta>)
    requires DistinctRuns(table)
    ensures DistinctRuns(UpsertAll(table, metas))
    decreases |metas|
  {
    if |metas| > 0 {
      UpsertKeepsDistinct(table, metas[0]);
      UpsertAllDistinct(Upsert(table, metas[0]), metas[1..]);
    }
  }

  lemma DistinctSnoc(table: seq<RunMeta>, m: RunMeta)
    requires DistinctRuns(table) && !Has(table, m.runId)
    ensures DistinctRuns(table + [m])
  {
    forall i | 0 <= i < |table| ensures table[i].runId != m.runId { assert table[i] in table; }
  }

  lemma {:induction false} SynthesizedDistinct(table: seq<RunMeta>, runs: seq<RunId>, steps: seq<Entry>)
    requires DistinctRuns(table)
    ensures DistinctRuns(Synthesized(table, runs, steps))
    decreases |runs|
  {
    hide Group, MetaIn;
    if |runs| > 0 {
      var r := runs[0];
      MetaInHas(table, r);
      var m := RootMeta(r, Group(steps, StepRun, SeqBefore, r));
      if MetaIn(table, r).None? { DistinctSnoc(table, m); }
      SynthesizedDistinct(if MetaIn(table, r).Some? then table else table + [m], runs[1..], steps);
    }
  }

  // ---- Sorting keeps it so ----

  lemma {:induction false} InsertDistinct(m: RunMeta, s: seq<RunMeta>)
    requires DistinctRuns(s) && !Has(s, m.runId)
    ensures DistinctRuns(InsertSorted(m, s, CreatedBefore))
  {
    if |s| == 0 || CreatedBefore(m, s[0]) {
      DistinctCons(m, s);
    } else {
      DistinctHead(s);
      assert !Has(s[1..], m.runId) by { HasCons(s[0], s[1..]); }
      InsertDistinct(m, s[1..]);
      InsertSortedElements(m, s[1..], CreatedBefore);
      var rest := InsertSorted(m, s[1..], CreatedBefore);
      forall x | x in rest ensures x.runId != s[0].runId {
        assert x in multiset(s[1..]) + multiset{m};
        assert x in s[1..] || x == m;
        assert s[0] in s;
      }
      DistinctCons(s[0], rest);
    }
  }

  lemma {:induction false} SortDistinct(s: seq<RunMeta>)
    requires DistinctRuns(s)
    ensures DistinctRuns(StableSort(s, CreatedBefore))
  {
    if |s| > 0 {
      var front, last := s[..|s| - 1], s[|s| - 1];
      SortDistinct(front);
      StableSortElements(front, CreatedBefore);
      forall x | x in StableSort(front, CreatedBefore) ensures x.runId != last.runId {
        assert x in multiset(front);
        var i :| 0 <= i < |front| && front[i] == x;
        assert s[i] == x;
      }
      InsertDistinct(last, StableSort(front, CreatedBefore));
    }
  }

  // ---- The list that is paged ----

  /** allRunIds, each with its metadata where there is some. */
  function Listed(src: JournalSource, ids: seq<RunId>): seq<RunMeta>
  {
    if |ids| == 0 then []
    else (match src.runMeta(ids[0]) case Some(m) => [m] case None => []) + Listed(src, ids[1..])
  }

  lemma {:induction false} MetaInDistinct(table: seq<RunMeta>, m: RunMeta)
    requires DistinctRuns(table) && m in table
    ensures MetaIn(table, m.runId) == Some(m)
  {
    DistinctHead(table);
    if m != table[0] { MetaInDistinct(table[1..], m); }
  }

  lemma {:induction false} ListedAll(j: Imported, rows: seq<RunMeta>)
    requires DistinctRuns(MetaTable(j)) && forall m | m in rows :: m in MetaTable(j)
    ensures Listed(ImportedSource(j), RunIds(rows)) == rows
  {
    hide MetaTable, MetaIn;
    if |rows| > 0 {
      MetaInDistinct(MetaTable(j), rows[0]);
      assert forall m | m in rows[1..] :: m in rows;
      ListedAll(j, rows[1..]);
      assert RunIds(rows)[1..] == RunIds(rows[1..]);
    }
  }

  /** An import lists each of its runs once, and following the cursors over its list ends and gives
      all of it, exactly when every row that ends a page, other than the last page, is dated, free of
      NUL in its date, and named; `requests` is any number large enough. */
  lemma ImportPagination(j: Imported, limit: nat, requests: nat)
    requires limit >= 1 && requests > |MetaTable(j)|
    ensures var src := ImportedSource(j);
      var all := Listed(src, src.allRunIds);
      && DistinctRuns(all) && multiset(all) == multiset(MetaTable(j))
      && (OffsetWalk(all, limit, None, requests) == Walked(all, true, false) <==> EndsListable(all, limit, 0))
  {
    hide Upsert, Synthesized, StableSort, OffsetWalk, EndsListable, FirstSeen;
    UpsertAllDistinct([], j.metas);
    SynthesizedDistinct(UpsertAll([], j.metas), FirstSeen(j.steps, StepRun), j.steps);
    var table := MetaTable(j);
    var all := StableSort(table, CreatedBefore);
    SortDistinct(table);
    StableSortElements(table, CreatedBefore);
    assert |all| == |multiset(all)| == |multiset(table)| == |table|;
    forall m | m in all ensures m in table { assert m in multiset(table); }
    ListedAll(j, all);
    assert DistinctKeys(all);
    OffsetPagination(all, limit, 0, requests);
    assert all[0..] == all;
  }
}
