/** A bundle that was exported, read back: which journal the import rebuilds. */
module RoundTrip {
  import opened Bundle
  import opened Descendants
  import opened EffectSink
  import opened Idempotency
  import opened Import
  import opened Journal
  import opened Json
  import opened Lineage
  import opened Ordering
  import opened Portable
  import opened Source
  import opened StepModel
  import opened Text
  import opened Wrappers

  // ---- Records survive the text ----

  predicate AllReadable(recs: seq<Record>) { forall rec | rec in recs :: Readable(rec) }

  function ReceivedAll(recs: seq<Record>): (back: seq<Record>)
    requires AllExportable(recs)
    ensures |back| == |recs|
    ensures forall i | 0 <= i < |recs| :: Exportable(recs[i]) && back[i] == Received(recs[i])
  {
    if |recs| == 0 then []
    else
      ExportableAppend([recs[0]], recs[1..]);
      assert recs == [recs[0]] + recs[1..];
      [Received(recs[0])] + ReceivedAll(recs[1..])
  }

  lemma {:induction false} ReadEach(recs: seq<Record>)
    requires AllExportable(recs) && AllReadable(recs)
    ensures ReadLines(Lines(recs)) == Ok(ReceivedAll(recs))
    ensures forall i | 0 <= i < |recs| :: NoNewline(Lines(recs)[i]) && Lines(recs)[i] != ""
  {
    hide Exportable, Readable, Line, Received, ReadLine;
    if |recs| > 0 {
      assert recs[0] in recs && forall rec | rec in recs[1..] :: rec in recs;
      LineRoundTrip(recs[0]);
      ReadEach(recs[1..]);
      assert Lines(recs)[1..] == Lines(recs[1..]);
      forall i | 0 <= i < |recs| ensures NoNewline(Lines(recs)[i]) && Lines(recs)[i] != "" {
        if i > 0 { assert Lines(recs)[i] == Lines(recs[1..])[i - 1]; }
      }
    }
  }

  lemma ReadNothing()
    ensures ReadLines(Split("")) == Ok([])
  {
    assert Split("") == [""];
    assert ReadLine("") == Ok(None) by { assert Trim("") == ""; }
    assert [""][0] == "" && [""][1..] == [];
    assert ReadLines([""][1..]) == Ok([]);
    var none: seq<Record> := [];
    assert ReadLines([""]) == Ok(none + none) && none + none == none;
  }

  /** The text of any exportable records is read back as those records, with effect payloads rewritten. */
  lemma ReadBack(recs: seq<Record>)
    requires AllExportable(recs) && AllReadable(recs)
    ensures ReadLines(Split(Join(Lines(recs)))) == Ok(ReceivedAll(recs))
  {
    hide Exportable, Readable, Line, Received, ReadLines, Split, Join;
    if |recs| == 0 {
      assert Join(Lines(recs)) == "" by { EmptyText(recs); }
      ReadNothing();
    } else {
      ReadEach(recs);
      SplitJoin(Lines(recs));
    }
  }

  // ---- What the records of a bundle hold ----

  function Concat<T>(order: seq<RunId>, f: RunId -> seq<T>): seq<T>
  {
    if |order| == 0 then [] else f(order[0]) + Concat(order[1..], f)
  }

  function ReceivedRow(row: EffectRow): EffectRow
    requires Parse(row.payload).Some?
  {
    row.(payload := Rewritten(Parse(row.payload).value))
  }

  predicate AllParse(rows: seq<EffectRow>) { forall row | row in rows :: Parse(row.payload).Some? }

  function ReceivedRows(rows: seq<EffectRow>): (back: seq<EffectRow>)
    requires AllParse(rows)
    ensures |back| == |rows| && forall i | 0 <= i < |rows| ::
      Parse(rows[i].payload).Some? && back[i] == ReceivedRow(rows[i])
  {
    if |rows| == 0 then []
    else
      assert rows[0] in rows && forall row | row in rows[1..] :: row in rows;
      [ReceivedRow(rows[0])] + ReceivedRows(rows[1..])
  }

  /** The rows of a run as an import reads them. */
  function RowsBack(sink: seq<EffectRow>, r: RunId): seq<EffectRow>
  {
    if AllParse(EffectsFor(sink, r)) then ReceivedRows(EffectsFor(sink, r)) else []
  }

  lemma ReceivedAppend(a: seq<Record>, b: seq<Record>)
    requires AllExportable(a + b)
    ensures AllExportable(a) && AllExportable(b) && ReceivedAll(a + b) == ReceivedAll(a) + ReceivedAll(b)
  {
    hide Received, Exportable;
    ExportableAppend(a, b);
    var whole, parts := ReceivedAll(a + b), ReceivedAll(a) + ReceivedAll(b);
    forall i | 0 <= i < |whole| ensures whole[i] == parts[i] {
      if i >= |a| { assert (a + b)[i] == b[i - |a|]; }
    }
  }

  lemma StepsOnly(entries: seq<Entry>)
    ensures AllExportable(StepRecords(entries)) && ReceivedAll(StepRecords(entries)) == StepRecords(entries)
    ensures Collect(StepRecords(entries)) == Imported(entries, [], [])
  {
    var recs := StepRecords(entries);
    forall i | 0 <= i < |recs| ensures Exportable(recs[i]) && Received(recs[i]) == recs[i] {
      StepExportable(entries[i]);
    }
    hide Exportable, Received;
    assert ReceivedAll(recs) == recs;
    StepsCollected(entries);
  }

  lemma {:induction false} StepsCollected(entries: seq<Entry>)
    ensures Collect(StepRecords(entries)) == Imported(entries, [], [])
  {
    if |entries| > 0 {
      StepsCollected(entries[1..]);
      assert StepRecords(entries)[1..] == StepRecords(entries[1..]);
    }
  }

  lemma RowsExportable(rows: seq<EffectRow>)
    ensures AllExportable(EffectRecords(rows)) <==> AllParse(rows)
  {
    var recs := EffectRecords(rows);
    forall i | 0 <= i < |rows| ensures Exportable(recs[i]) <==> Parse(rows[i].payload).Some? {
      EffectExportable(rows[i]);
    }
    hide Exportable, Parse;
    if AllExportable(recs) {
      forall row | row in rows ensures Parse(row.payload).Some? {
        var i :| 0 <= i < |rows| && rows[i] == row;
        assert recs[i] in recs;
      }
    }
  }

  lemma RowsOnly(rows: seq<EffectRow>)
    requires AllParse(rows)
    ensures AllExportable(EffectRecords(rows)) && ReceivedAll(EffectRecords(rows)) == EffectRecords(ReceivedRows(rows))
    ensures Collect(EffectRecords(ReceivedRows(rows))) == Imported([], [], ReceivedRows(rows))
  {
    RowsExportable(rows);
    var recs := EffectRecords(rows);
    forall i | 0 <= i < |recs| ensures Exportable(recs[i]) && Received(recs[i]) == EffectRecord(ReceivedRow(rows[i])) {
      assert recs[i] in recs && rows[i] in rows;
    }
    hide Exportable, Received;
    assert ReceivedAll(recs) == EffectRecords(ReceivedRows(rows));
    RowsCollected(ReceivedRows(rows));
  }

  lemma {:induction false} RowsCollected(rows: seq<EffectRow>)
    ensures Collect(EffectRecords(rows)) == Imported([], [], rows)
  {
    if |rows| > 0 {
      RowsCollected(rows[1..]);
      assert EffectRecords(rows)[1..] == EffectRecords(rows[1..]);
    }
  }

  lemma MetaOnly(meta: Option<RunMeta>)
    ensures AllExportable(MetaRecords(meta)) && ReceivedAll(MetaRecords(meta)) == MetaRecords(meta)
    ensures Collect(MetaRecords(meta)) == Imported([], if meta.Some? then [meta.value] else [], [])
  {
    if meta.Some? {
      MetaExportable(meta.value);
      CollectOne(MetaRecord(meta.value));
    }
  }

  /** One run's records, read back, hold its metadata, its steps and its rewritten rows. */
  lemma RunReceived(src: JournalSource, r: RunId)
    requires AllExportable(RunRecords(src, r))
    ensures AllParse(src.effectsFor(r))
    ensures ReceivedAll(RunRecords(src, r))
      == MetaRecords(src.runMeta(r)) + StepRecords(src.trajectory(r)) + EffectRecords(ReceivedRows(src.effectsFor(r)))
    ensures Collect(ReceivedAll(RunRecords(src, r)))
      == Imported(src.trajectory(r), if src.runMeta(r).Some? then [src.runMeta(r).value] else [],
        ReceivedRows(src.effectsFor(r)))
  {
    hide Exportable, Received, AllParse, ReceivedAll, ReceivedRow, StepsIn, MetasIn, EffectsIn;
    var ms, ss, rs := MetaRecords(src.runMeta(r)), StepRecords(src.trajectory(r)), EffectRecords(src.effectsFor(r));
    ExportableAppend(ms + ss, rs);
    RowsExportable(src.effectsFor(r));
    MetaOnly(src.runMeta(r));
    StepsOnly(src.trajectory(r));
    RowsOnly(src.effectsFor(r));
    ReceivedAppend(ms + ss, rs);
    ReceivedAppend(ms, ss);
    CollectAppend(ms + ss, EffectRecords(ReceivedRows(src.effectsFor(r))));
    CollectAppend(ms, ss);
  }
}
