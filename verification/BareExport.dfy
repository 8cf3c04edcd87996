/** The untagged form of an export, one bare journal entry a line, and the lines an import passes over. */
module BareExport {
  import opened Idempotency
  import opened Import
  import opened Journal
  import opened Json
  import opened Bundle
  import opened Ordering
  import opened Portable
  import opened Protocol
  import opened ProtocolInvariant
  import opened ProtocolSafety
  import opened RoundTrip
  import opened StepModel
  import opened Text
  import opened Workflow
  import opened Wrappers

  // ---- One line ----

  const BARE_KEYS := ["schema", "runId", "seq", "stepName", "kind", "idemKey", "output", "sideEffect", "seededFrom",
    "recordedAt"]

  /** JSON.stringify(entry) */
  function BareLine(e: Entry): string
  {
    Print(JObj(BareFields(e)))
  }

  function BareFields(e: Entry): seq<(string, Json)>
  {
    Zip(BARE_KEYS, [JNum(1), JStr(e.runId), JNum(e.seqNo), JStr(e.stepName), JStr(e.kind), JStr(e.idemKey), e.output,
                    JBool(e.sideEffect), OrNull(e.seededFrom), JStr(e.recordedAt)])
  }

  lemma BareKeysDistinct()
    ensures Distinct(BARE_KEYS) && forall i | 0 <= i < |BARE_KEYS| :: BARE_KEYS[i] != "record"
  {
  }

  lemma BareHydrates(e: Entry)
    requires IsKeyText(e.idemKey)
    ensures Get(BareFields(e), "record") == None && HydrateStep(BareFields(e)) == Some(e)
  {
    hide Get, Zip, Distinct, IsKeyText;
    BareKeysDistinct();
    var values := [JNum(1), JStr(e.runId), JNum(e.seqNo), JStr(e.stepName), JStr(e.kind), JStr(e.idemKey), e.output,
                   JBool(e.sideEffect), OrNull(e.seededFrom), JStr(e.recordedAt)];
    NoField(BARE_KEYS, values, "record");
    ReadField(BARE_KEYS, values, 1, "runId");
    ReadField(BARE_KEYS, values, 2, "seq");
    ReadField(BARE_KEYS, values, 3, "stepName");
    ReadField(BARE_KEYS, values, 4, "kind");
    ReadField(BARE_KEYS, values, 5, "idemKey");
    ReadField(BARE_KEYS, values, 6, "output");
    ReadField(BARE_KEYS, values, 7, "sideEffect");
    ReadField(BARE_KEYS, values, 8, "seededFrom");
    ReadField(BARE_KEYS, values, 9, "recordedAt");
  }

  /** A bare entry is read back from its line. */
  lemma BareLineRoundTrip(e: Entry)
    requires IsKeyText(e.idemKey)
    ensures ReadLine(BareLine(e)) == Ok(Some(StepRecord(e))) && NoNewline(BareLine(e)) && BareLine(e) != ""
  {
    TrimObject(BareFields(e));
    ParsePrint(JObj(BareFields(e)));
    PrintOneLine(JObj(BareFields(e)));
    hide Print, BareFields, Trim, Parse, HydrateStep, Get, IsKeyText;
    BareHydrates(e);
  }

  /** Lines of white space, and objects with a tag the format does not know, are passed over; what is not a
      JSON object is an error. */
  lemma OtherLines(line: string)
    ensures Trim(line) == "" ==> ReadLine(line) == Ok(None)
    ensures Trim(line) != "" && !(Parse(Trim(line)).Some? && Parse(Trim(line)).value.JObj?) ==>
      ReadLine(line) == Err(InvalidLine)
    ensures Trim(line) != "" && Parse(Trim(line)).Some? && Parse(Trim(line)).value.JObj? ==>
      var tag := Get(Parse(Trim(line)).value.fields, "record");
      tag.Some? && tag.value !in {JStr("run_meta"), JStr("step"), JStr("effect")} ==> ReadLine(line) == Ok(None)
  {
    hide Parse, Trim, Get, HydrateMeta, HydrateStep, HydrateEffect;
  }

  lemma {:induction false} SpaceIsBlank(line: string)
    requires forall i | 0 <= i < |line| :: IsSpace(line[i])
    ensures Trim(line) == ""
  {
    if |line| > 0 { SpaceIsBlank(line[1..]); }
  }

  // ---- A run ----

  function BareLines(entries: seq<Entry>): (lines: seq<string>)
    ensures |lines| == |entries| && forall i | 0 <= i < |entries| :: lines[i] == BareLine(entries[i])
  {
    seq(|entries|, i requires 0 <= i < |entries| => BareLine(entries[i]))
  }

  /** The export of a run without metadata. */
  function BareText(entries: seq<Entry>): string { Join(BareLines(entries)) }

  predicate KeysReadable(entries: seq<Entry>) { forall e | e in entries :: IsKeyText(e.idemKey) }

  lemma {:induction false} ReadBareLines(entries: seq<Entry>)
    requires KeysReadable(entries)
    ensures ReadLines(BareLines(entries)) == Ok(StepRecords(entries))
    ensures forall i | 0 <= i < |entries| :: NoNewline(BareLines(entries)[i])
  {
    hide BareLine, ReadLine, IsKeyText;
    if |entries| > 0 {
      assert entries[0] in entries && forall e | e in entries[1..] :: e in entries;
      BareLineRoundTrip(entries[0]);
      ReadBareLines(entries[1..]);
      assert BareLines(entries)[1..] == BareLines(entries[1..]);
      assert [StepRecord(entries[0])] + StepRecords(entries[1..]) == StepRecords(entries);
      forall i | 0 <= i < |entries| ensures NoNewline(BareLines(entries)[i]) {
        if i > 0 { assert BareLines(entries)[i] == BareLines(entries[1..])[i - 1]; }
      }
    }
  }

  lemma ReadBareText(entries: seq<Entry>)
    requires KeysReadable(entries)
    ensures ReadLines(Split(BareText(entries))) == Ok(StepRecords(entries))
  {
    hide ReadLines, Split, BareLine;
    ReadBareLines(entries);
    if |entries| == 0 {
      assert BareLines(entries) == [] && StepRecords(entries) == [];
      ReadNothing();
    } else {
      SplitJoin(BareLines(entries));
    }
  }

  lemma {:induction false} OneRun(entries: seq<Entry>, r: RunId)
    requires forall e | e in entries :: e.runId == r
    ensures FirstSeen(entries, StepRun) == if |entries| > 0 then [r] else []
  {
    if |entries| > 0 {
      var front := entries[..|entries| - 1];
      assert forall e | e in front :: e in entries;
      assert entries[|entries| - 1] in entries;
      OneRun(front, r);
    }
  }

  /** The source an import makes of the steps of one run: its trajectory, and a root row dated by its
      first step. */
  lemma BareSource(entries: seq<Entry>, r: RunId)
    requires (forall e | e in entries :: e.runId == r) && NoDescent(entries, SeqBefore)
    ensures var src := ImportedSource(Imported(entries, [], []));
      && src.trajectory(r) == entries && (forall x | x != r :: src.trajectory(x) == [])
      && (forall x :: src.effectsFor(x) == [] && src.childRuns(x) == [])
      && src.allRunIds == (if |entries| > 0 then [r] else [])
      && (forall x :: src.runMeta(x) ==
            if |entries| > 0 && x == r then Some(RunMeta(r, None, None, "main", entries[0].recordedAt)) else None)
  {
    hide NoDescent;
    var j := Imported(entries, [], []);
    FilterAll(entries, OfRun(StepRun, r));
    StableSortSorted(entries, SeqBefore);
    forall x | x != r ensures Group(entries, StepRun, SeqBefore, x) == [] { FilterNone(entries, OfRun(StepRun, x)); }
    OneRun(entries, r);
    hide Filter, FirstSeen;
    BareTable(entries, r);
    var table := MetaTable(j);
    if |entries| > 0 {
      SortOne(table[0], CreatedBefore);
      MetaInOne(table[0]);
    }
    forall x ensures ChildrenOf(table, x) == [] { FilterNone(table, (m: RunMeta) => m.parentRun == Some(x)); }
    EffectsOfNone();
  }

  lemma BareTable(entries: seq<Entry>, r: RunId)
    requires FirstSeen(entries, StepRun) == if |entries| > 0 then [r] else []
    requires Group(entries, StepRun, SeqBefore, r) == entries
    ensures MetaTable(Imported(entries, [], [])) ==
      if |entries| > 0 then [RunMeta(r, None, None, "main", entries[0].recordedAt)] else []
  {
    hide FirstSeen, Group;
    if |entries| > 0 {
      assert [r][1..] == [];
      assert UpsertAll([], []) == [];
      assert MetaIn([], r) == None;
      var m := RunMeta(r, None, None, "main", entries[0].recordedAt);
      var none: seq<RunMeta> := [];
      assert none + [m] == [m];
      assert Synthesized([m], [], entries) == [m];
      assert Synthesized([], [r], entries) == Synthesized(none + [m], [r][1..], entries);
    }
  }

  lemma SortOne<T>(x: T, lt: (T, T) -> bool)
    ensures StableSort([x], lt) == [x]
  {
    assert [x][..0] == [];
  }

  lemma MetaInOne(m: RunMeta)
    ensures forall x :: MetaIn([m], x) == if x == m.runId then Some(m) else None
  {
    assert [m][1..] == [];
  }

  lemma EffectsOfNone()
    ensures forall x :: Group([], RowRun, IdBefore, x) == []
  {
  }

  /** In every reachable state: importing a run's bare export gives back its live trajectory, with a made-up
      root of branch "main" created at its first step, and nothing else. */
  lemma BareImport(flow: RunId -> Flow, schedule: seq<Action>, r: RunId)
    ensures var t := Trajectory(Exec(Init(flow), schedule).core.db, r);
      var recs := ReadLines(Split(BareText(t)));
      && recs.Ok?
      && var src := ImportedSource(Collect(recs.value));
      && src.trajectory(r) == t && (forall x | x != r :: src.trajectory(x) == [])
      && (forall x :: src.effectsFor(x) == [] && src.childRuns(x) == [])
      && src.allRunIds == (if |t| > 0 then [r] else [])
      && (forall x :: src.runMeta(x) ==
            if |t| > 0 && x == r then Some(RunMeta(r, None, None, "main", t[0].recordedAt)) else None)
  {
    hide Exec, Trajectory, ImportedSource, Collect, ReadLines, Split, BareText, NoDescent;
    Invariant(flow, schedule);
    var c := Exec(Init(flow), schedule).core;
    LiveEntries(c, r);
    var t := Trajectory(c.db, r);
    ReadBareText(t);
    StepsCollected(t);
    BareSource(t, r);
  }

  lemma LiveEntries(c: Core, r: RunId)
    requires CoreOk(c)
    ensures var t := Trajectory(c.db, r);
      KeysReadable(t) && (forall e | e in t :: e.runId == r) && NoDescent(t, SeqBefore)
  {
    ValidCore(c);
    hide MetasOk, RowsOk, NativeOk, HasPrefix, IsSafe;
    TrajectoryExact(c.db, r);
    hide Trajectory;
    forall e | e in Trajectory(c.db, r) ensures IsKeyText(e.idemKey) {
      assert EntryOk(c, e.runId, e.seqNo);
    }
  }
}
