/** Hydrating an in-memory journal from portable text. */
module Import {
  import opened EffectSink
  import opened Json
  import opened Ordering
  import opened Portable
  import opened Source
  import opened StepModel
  import opened Text
  import opened Wrappers

  datatype Imported = Imported(steps: seq<Entry>, metas: seq<RunMeta>, effects: seq<EffectRow>)

  // ---- Parsing ----

  function Pick<T>(recs: seq<Record>, f: Record -> Option<T>): seq<T>
  {
    if |recs| == 0 then [] else (match f(recs[0]) case Some(x) => [x] case None => []) + Pick(recs[1..], f)
  }

  function StepOf(rec: Record): Option<Entry> { if rec.StepRecord? then Some(rec.entry) else None }

  function MetaOf(rec: Record): Option<RunMeta> { if rec.MetaRecord? then Some(rec.meta) else None }

  function RowOf(rec: Record): Option<EffectRow> { if rec.EffectRecord? then Some(rec.row) else None }

  function StepsIn(recs: seq<Record>): seq<Entry> { Pick(recs, StepOf) }

  function MetasIn(recs: seq<Record>): seq<RunMeta> { Pick(recs, MetaOf) }

  function EffectsIn(recs: seq<Record>): seq<EffectRow> { Pick(recs, RowOf) }

  function Collect(recs: seq<Record>): Imported { Imported(StepsIn(recs), MetasIn(recs), EffectsIn(recs)) }

  /** The records of some lines, or the error of the first bad line. */
  function ReadLines(lines: seq<string>): Result<seq<Record>>
  {
    if |lines| == 0 then Ok([])
    else match ReadLine(lines[0])
      case Err(e) => Err(e)
      case Ok(rec) =>
        match ReadLines(lines[1..])
        case Err(e) => Err(e)
        case Ok(recs) => Ok((if rec.Some? then [rec.value] else []) + recs)
  }

  /** Reading fails exactly when some line is bad, with the error of the first bad one; and otherwise a line's
      record, if it has one, comes after those of the lines before it. */
  lemma {:induction false} ReadLinesExactly(lines: seq<string>)
    ensures ReadLines(lines).Err? <==> exists i :: 0 <= i < |lines| && ReadLine(lines[i]).Err?
    ensures forall i | 0 <= i < |lines| && ReadLine(lines[i]).Err?
      && (forall j | 0 <= j < i :: ReadLine(lines[j]).Ok?) ::
      ReadLines(lines) == Err(ReadLine(lines[i]).error)
    ensures ReadLines(lines).Ok? && |lines| > 0 ==>
      var last := ReadLine(lines[|lines| - 1]);
      && last.Ok? && ReadLines(lines[..|lines| - 1]).Ok?
      && ReadLines(lines).value == ReadLines(lines[..|lines| - 1]).value + if last.value.Some?
         then [last.value.value] else []
  {
    hide ReadLine;
    if |lines| > 0 {
      var rest := lines[1..];
      ReadLinesExactly(rest);
      assert forall i | 0 < i < |lines| :: lines[i] == rest[i - 1];
      assert forall i | 0 <= i < |rest| :: rest[i] == lines[i + 1];
      if |rest| > 0 {
        assert lines[..|lines| - 1][1..] == rest[..|rest| - 1];
      } else {
        assert lines[..0] == [] && rest == [];
      }
    }
  }

  function Preceded(recs: seq<Record>, rest: Result<seq<Record>>): Result<seq<Record>>
  {
    match rest case Ok(more) => Ok(recs + more) case Err(e) => Err(e)
  }

  lemma {:induction false} PickAppend<T>(a: seq<Record>, b: seq<Record>, f: Record -> Option<T>)
    ensures Pick(a + b, f) == Pick(a, f) + Pick(b, f)
  {
    if |a| == 0 {
      assert a + b == b;
    } else {
      assert (a + b)[1..] == a[1..] + b && (a + b)[0] == a[0];
      PickAppend(a[1..], b, f);
      Ordering.Regroup(match f(a[0]) case Some(x) => [x] case None => [], Pick(a[1..], f), Pick(b, f));
    }
  }

  lemma CollectAppend(a: seq<Record>, b: seq<Record>)
    ensures StepsIn(a + b) == StepsIn(a) + StepsIn(b)
    ensures MetasIn(a + b) == MetasIn(a) + MetasIn(b)
    ensures EffectsIn(a + b) == EffectsIn(a) + EffectsIn(b)
  {
    hide Pick;
    PickAppend(a, b, StepOf);
    PickAppend(a, b, MetaOf);
    PickAppend(a, b, RowOf);
  }

  lemma PickOne<T>(rec: Record, f: Record -> Option<T>)
    ensures Pick([rec], f) == match f(rec) case Some(x) => [x] case None => []
  {
    assert [rec][1..] == [];
  }

  lemma CollectOne(rec: Record)
    ensures StepsIn([rec]) == if rec.StepRecord? then [rec.entry] else []
    ensures MetasIn([rec]) == if rec.MetaRecord? then [rec.meta] else []
    ensures EffectsIn([rec]) == if rec.EffectRecord? then [rec.row] else []
  {
    PickOne(rec, StepOf);
    PickOne(rec, MetaOf);
    PickOne(rec, RowOf);
  }

  method ParseExport(text: string) returns (r: Result<Imported>)
    ensures match ReadLines(Split(text))
      case Ok(recs) => r == Ok(Collect(recs))
      case Err(e) => r == Err(e)
  {
    hide ReadLine, Split, StepsIn, MetasIn, EffectsIn;
    var steps, metas, effects := [], [], [];
    var lines := Split(text);
    ghost var recs: seq<Record> := [];
    CollectNone();
    assert ReadLines(lines) == Preceded(recs, ReadLines(lines)) by {
      if ReadLines(lines).Ok? { assert recs + ReadLines(lines).value == ReadLines(lines).value; }
    }
    for i := 0 to |lines|
      invariant Imported(steps, metas, effects) == Collect(recs)
      invariant ReadLines(lines) == Preceded(recs, ReadLines(lines[i..]))
    {
      assert lines[i..][0] == lines[i] && lines[i..][1..] == lines[i + 1..];
      var read := ReadLine(lines[i]);
      if read.Err? { return Err(read.error); }
      if read.value.Some? {
        var rec := read.value.value;
        CollectAppend(recs, [rec]);
        CollectOne(rec);
        match rec {
          case MetaRecord(m) => metas := metas + [m];
          case StepRecord(e) => steps := steps + [e];
          case EffectRecord(row) => effects := effects + [row];
        }
        ghost var before := recs;
        recs := recs + [rec];
        if ReadLines(lines[i + 1..]).Ok? { Ordering.Regroup(before, [rec], ReadLines(lines[i + 1..]).value); }
      } else if ReadLines(lines[i + 1..]).Ok? {
        assert [] + ReadLines(lines[i + 1..]).value == ReadLines(lines[i + 1..]).value;
      }
    }
    assert ReadLines(lines[|lines|..]) == Ok([]) && recs + [] == recs;
    r := Ok(Imported(steps, metas, effects));
  }

  lemma CollectNone()
    ensures Collect([]) == Imported([], [], [])
  {
  }

  // ---- Grouping by run ----

  function OfRun<T>(runOf: T -> RunId, r: RunId): T -> bool { (x: T) => runOf(x) == r }

  /** The runs of some items, in order of first appearance. */
  function FirstSeen<T>(items: seq<T>, runOf: T -> RunId): seq<RunId>
  {
    if |items| == 0 then []
    else
      var front, r := FirstSeen(items[..|items| - 1], runOf), runOf(items[|items| - 1]);
      if r in front then front else front + [r]
  }

  function Group<T>(items: seq<T>, runOf: T -> RunId, lt: (T, T) -> bool, r: RunId): seq<T>
  {
    StableSort(Filter(items, OfRun(runOf, r)), lt)
  }

  /** What the grouping loop holds after some items. */
  ghost predicate Grouped<T>(items: seq<T>, runOf: T -> RunId, runs: seq<RunId>, byRun: map<RunId, seq<T>>)
  {
    && runs == FirstSeen(items, runOf) && NoDuplicates(runs)
    && (forall r :: r in byRun <==> r in runs)
    && (forall r :: (if r in byRun then byRun[r] else []) == Filter(items, OfRun(runOf, r)))
  }

  lemma FilterNext<T>(items: seq<T>, x: T, keep: T -> bool)
    ensures Filter(items + [x], keep) == Filter(items, keep) + if keep(x) then [x] else []
  {
    FilterAppend(items, [x], keep);
    assert [x][1..] == [];
  }

  lemma FirstSeenNext<T>(items: seq<T>, x: T, runOf: T -> RunId)
    ensures FirstSeen(items + [x], runOf) == FirstSeen(items, runOf) + if runOf(x) in FirstSeen(items, runOf)
      then [] else [runOf(x)]
  {
    assert (items + [x])[..|items|] == items;
  }

  lemma GroupedNext<T>(items: seq<T>, x: T, runOf: T -> RunId, runs: seq<RunId>, byRun: map<RunId, seq<T>>)
    requires Grouped(items, runOf, runs, byRun)
    ensures var r := runOf(x);
      Grouped(items + [x], runOf, if r in byRun then runs else runs + [r],
        byRun[r := (if r in byRun then byRun[r] else []) + [x]])
  {
    hide Filter, FirstSeen;
    FirstSeenNext(items, x, runOf);
    forall q ensures Filter(items + [x], OfRun(runOf, q)) == Filter(items, OfRun(runOf, q)) + if runOf(x) == q
      then [x] else [] {
      FilterNext(items, x, OfRun(runOf, q));
    }
  }

  /** The loop that collects items per run. */
  method Collected<T>(items: seq<T>, runOf: T -> RunId) returns (runs: seq<RunId>, byRun: map<RunId, seq<T>>)
    ensures Grouped(items, runOf, runs, byRun)
  {
    hide Grouped, Filter, FirstSeen;
    runs, byRun := [], map[];
    GroupedNone(runOf);
    for i := 0 to |items|
      invariant Grouped(items[..i], runOf, runs, byRun)
    {
      assert items[..i + 1] == items[..i] + [items[i]];
      GroupedNext(items[..i], items[i], runOf, runs, byRun);
      var r := runOf(items[i]);
      var arr := if r in byRun then byRun[r] else [];
      runs := if r in byRun then runs else runs + [r];
      byRun := byRun[r := arr + [items[i]]];
    }
    assert items[..|items|] == items;
  }

  /** Items per run, then each collection sorted. */
  method GroupByRun<T>(items: seq<T>, runOf: T -> RunId,
                       lt: (T, T) -> bool) returns (runs: seq<RunId>, byRun: map<RunId, seq<T>>)
    ensures runs == FirstSeen(items, runOf)
    ensures forall r :: r in byRun <==> r in runs
    ensures forall r :: (if r in byRun then byRun[r] else []) == Group(items, runOf, lt, r)
  {
    hide StableSort, Filter, FirstSeen;
    runs, byRun := Collected(items, runOf);
    byRun := SortEach(runs, byRun, lt);
    SortNothing(lt);
  }

  method SortEach<T>(runs: seq<RunId>, byRun: map<RunId, seq<T>>, lt: (T, T) -> bool)
    returns (sorted: map<RunId, seq<T>>)
    requires NoDuplicates(runs) && forall r :: r in byRun <==> r in runs
    ensures sorted.Keys == byRun.Keys && forall r | r in byRun :: sorted[r] == StableSort(byRun[r], lt)
  {
    hide StableSort;
    sorted := byRun;
    for i := 0 to |runs|
      invariant sorted.Keys == byRun.Keys
      invariant forall j | 0 <= j < i :: runs[j] in sorted && sorted[runs[j]] == StableSort(byRun[runs[j]], lt)
      invariant forall j | i <= j < |runs| :: runs[j] in sorted && sorted[runs[j]] == byRun[runs[j]]
    {
      assert runs[i] in runs;
      sorted := sorted[runs[i] := StableSort(sorted[runs[i]], lt)];
    }
  }

  lemma GroupedNone<T>(runOf: T -> RunId)
    ensures Grouped([], runOf, [], map[])
  {
  }

  lemma SortNothing<T>(lt: (T, T) -> bool)
    ensures StableSort([], lt) == []
  {
  }

  // ---- The source ----

  function StepRun(e: Entry): RunId { e.runId }

  function RowRun(row: EffectRow): RunId { row.runId }

  predicate SeqBefore(a: Entry, b: Entry) { a.seqNo < b.seqNo }

  predicate IdBefore(a: EffectRow, b: EffectRow) { a.id < b.id }

  predicate CreatedBefore(a: RunMeta, b: RunMeta) { Less(a.createdAt, b.createdAt) }

  /** Map.set: a run that is already in the table keeps its place. */
  function Upsert(table: seq<RunMeta>, m: RunMeta): seq<RunMeta>
  {
    if |table| == 0 then [m]
    else if table[0].runId == m.runId then [m] + table[1..]
    else [table[0]] + Upsert(table[1..], m)
  }

  function UpsertAll(table: seq<RunMeta>, metas: seq<RunMeta>): seq<RunMeta>
    decreases |metas|
  {
    if |metas| == 0 then table else UpsertAll(Upsert(table, metas[0]), metas[1..])
  }

  function MetaIn(table: seq<RunMeta>, r: RunId): Option<RunMeta>
  {
    if |table| == 0 then None else if table[0].runId == r then Some(table[0]) else MetaIn(table[1..], r)
  }

  /** The root metadata of a run that has steps but no metadata line. */
  function RootMeta(r: RunId, entries: seq<Entry>): RunMeta
  {
    RunMeta(r, None, None, "main", if |entries| > 0 then entries[0].recordedAt else "")
  }

  function Synthesized(table: seq<RunMeta>, runs: seq<RunId>, steps: seq<Entry>): seq<RunMeta>
    decreases |runs|
  {
    if |runs| == 0 then table
    else
      var r := runs[0];
      Synthesized(if MetaIn(table, r).Some? then table else table + [RootMeta(r, Group(steps, StepRun, SeqBefore, r))],
        runs[1..], steps)
  }

  function MetaTable(j: Imported): seq<RunMeta>
  {
    Synthesized(UpsertAll([], j.metas), FirstSeen(j.steps, StepRun), j.steps)
  }

  function ChildrenOf(table: seq<RunMeta>, p: RunId): seq<RunMeta>
  {
    StableSort(Filter(table, (m: RunMeta) => m.parentRun == Some(p)), CreatedBefore)
  }

  function ImportedSource(j: Imported): JournalSource
  {
    JournalSource(
      (r: RunId) => Group(j.steps, StepRun, SeqBefore, r),
      (r: RunId) => MetaIn(MetaTable(j), r),
      (r: RunId) => ChildrenOf(MetaTable(j), r),
      (r: RunId) => Group(j.effects, RowRun, IdBefore, r),
      RunIds(StableSort(MetaTable(j), CreatedBefore)))
  }

  /** Two sources that answer every question alike. */
  ghost predicate SameAnswers(a: JournalSource, b: JournalSource)
  {
    && (forall r ::
          && a.trajectory(r) == b.trajectory(r) && a.runMeta(r) == b.runMeta(r)
          && a.childRuns(r) == b.childRuns(r) && a.effectsFor(r) == b.effectsFor(r))
    && a.allRunIds == b.allRunIds
  }

  method ImportJournalSource(text: string) returns (r: Result<JournalSource>)
    ensures match ReadLines(Split(text))
      case Ok(recs) => r.Ok? && SameAnswers(r.value, ImportedSource(Collect(recs)))
      case Err(e) => r == Err(e)
  {
    hide ReadLines, Split, Collect, Group, FirstSeen, StableSort, Filter, Upsert, MetaIn;
    var parsed := ParseExport(text);
    if parsed.Err? { return Err(parsed.error); }
    var j := parsed.value;
    var runs, stepsByRun := GroupByRun(j.steps, StepRun, SeqBefore);
    var table: seq<RunMeta> := [];
    for i := 0 to |j.metas|
      invariant UpsertAll(table, j.metas[i..]) == UpsertAll([], j.metas)
    {
      assert j.metas[i..][0] == j.metas[i] && j.metas[i..][1..] == j.metas[i + 1..];
      table := Upsert(table, j.metas[i]);
    }
    for i := 0 to |runs|
      invariant Synthesized(table, runs[i..], j.steps) == MetaTable(j)
    {
      assert runs[i..][0] == runs[i] && runs[i..][1..] == runs[i + 1..];
      if MetaIn(table, runs[i]).None? {
        assert runs[i] in runs;
        table := table + [RootMeta(runs[i], stepsByRun[runs[i]])];
      }
    }
    var rowRuns, effectsByRun := GroupByRun(j.effects, RowRun, IdBefore);
    var metas := table;
    r := Ok(JournalSource(
      (r: RunId) => if r in stepsByRun then stepsByRun[r] else [],
      (r: RunId) => MetaIn(metas, r),
      (r: RunId) => ChildrenOf(metas, r),
      (r: RunId) => if r in effectsByRun then effectsByRun[r] else [],
      RunIds(StableSort(metas, CreatedBefore))));
  }

  // ---- Repeated metadata ----

  lemma {:induction false} UpsertFinds(table: seq<RunMeta>, m: RunMeta, r: RunId)
    ensures MetaIn(Upsert(table, m), r) == if r == m.runId then Some(m) else MetaIn(table, r)
  {
    if |table| == 0 {
      assert [m][1..] == [];
    } else if table[0].runId == m.runId {
      assert ([m] + table[1..])[1..] == table[1..];
    } else {
      UpsertFinds(table[1..], m, r);
      assert ([table[0]] + Upsert(table[1..], m))[1..] == Upsert(table[1..], m);
    }
  }

  lemma IdsOfFront(m: RunMeta, rest: seq<RunMeta>)
    ensures RunIds([m] + rest) == [m.runId] + RunIds(rest)
  {
  }

  lemma {:induction false} UpsertIds(table: seq<RunMeta>, m: RunMeta)
    ensures RunIds(Upsert(table, m)) == RunIds(table) + if m.runId in RunIds(table) then [] else [m.runId]
  {
    hide RunIds;
    if |table| == 0 {
      IdsOfFront(m, []);
      NoIds();
    } else {
      var first, rest := table[0], table[1..];
      assert table == [first] + rest;
      IdsOfFront(first, rest);
      if first.runId == m.runId {
        IdsOfFront(m, rest);
        assert [m.runId] + RunIds(rest) + [] == [m.runId] + RunIds(rest);
      } else {
        IdsOfFront(first, Upsert(rest, m));
        UpsertIds(rest, m);
        var added := if m.runId in RunIds(rest) then [] else [m.runId];
        assert [first.runId] + (RunIds(rest) + added) == [first.runId] + RunIds(rest) + added;
      }
    }
  }

  lemma NoIds()
    ensures RunIds([]) == []
  {
  }

  /** Metadata given more than once: the last of it counts, in the place of the first. */
  lemma {:induction false} LastMetaWins(metas: seq<RunMeta>, i: nat, r: RunId)
    requires i < |metas| && metas[i].runId == r && forall j | i < j < |metas| :: metas[j].runId != r
    ensures MetaIn(UpsertAll([], metas), r) == Some(metas[i])
  {
    var front, last := metas[..|metas| - 1], metas[|metas| - 1];
    UpsertAllNext([], front, last);
    assert metas == front + [last];
    hide Upsert, MetaIn, UpsertAll;
    UpsertFinds(UpsertAll([], front), last, r);
    if i < |front| { LastMetaWins(front, i, r); }
  }

  lemma {:induction false} FirstMetaPlaces(metas: seq<RunMeta>)
    ensures RunIds(UpsertAll([], metas)) == FirstSeen(metas, (m: RunMeta) => m.runId)
  {
    if |metas| > 0 {
      var front, last := metas[..|metas| - 1], metas[|metas| - 1];
      UpsertAllNext([], front, last);
      assert metas == front + [last];
      hide Upsert, UpsertAll;
      FirstMetaPlaces(front);
      UpsertIds(UpsertAll([], front), last);
      var ids := FirstSeen(front, (m: RunMeta) => m.runId);
      assert ids + [] == ids;
    }
  }

  lemma {:induction false} UpsertAllNext(table: seq<RunMeta>, metas: seq<RunMeta>, m: RunMeta)
    ensures UpsertAll(table, metas + [m]) == Upsert(UpsertAll(table, metas), m)
    decreases |metas|
  {
    hide Upsert;
    if |metas| == 0 {
      assert [] + [m] == [m] && [m][1..] == [];
      assert UpsertAll(Upsert(table, m), []) == Upsert(table, m);
    } else {
      assert (metas + [m])[1..] == metas[1..] + [m] && (metas + [m])[0] == metas[0];
      UpsertAllNext(Upsert(table, metas[0]), metas[1..], m);
    }
  }
}
