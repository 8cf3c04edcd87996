/** In every state the protocol reaches, exports are portable: any run of any fork tree replays
    offline as it does live, and a re-export reproduces the text. */
module ReachableExport {
  import opened Bundle
  import opened Descendants
  import opened EffectSink
  import opened Fixpoint
  import opened Journal
  import opened Json
  import opened Lineage
  import opened Offline
  import opened OfflineTheorems
  import opened Portable
  import opened Protocol
  import opened ProtocolInvariant
  import opened ProtocolSafety
  import opened Replay
  import opened RoundTrip
  import opened Source
  import opened StepModel
  import opened Workflow
  import opened Wrappers

  lemma CoreSound(c: Core)
    requires CoreOk(c)
    ensures Sound(c.db, c.sink)
  {
    hide Ranked, NativeOk, MetaOk, KeysUnique;
    forall p | p in c.db.steps ensures c.db.steps[p].runId == p.0 && c.db.steps[p].seqNo == p.1 {
      assert EntryOk(c, p.0, p.1);
    }
    forall p | p in c.db.steps ensures Idempotency.IsKeyText(c.db.steps[p].idemKey) { assert EntryOk(c, p.0, p.1); }
    forall r | r in c.db.metas ensures c.db.metas[r].runId == r { MetaNamed(c, r); }
  }

  lemma MetaNamed(c: Core, r: RunId)
    requires MetasOk(c) && r in c.db.metas
    ensures c.db.metas[r].runId == r
  {
    assert MetaOk(c, r);
  }

  /** Every payload the workflows fire is the text of an object. */
  lemma PayloadIsObject(c: Core, row: EffectRow)
    requires RowsOk(c) && row in c.sink
    ensures Parse(row.payload).Some? && Parse(row.payload).value.JObj?
  {
    hide Print, Parse, NativeIfPresent, HasPrefix;
    var i :| 0 <= i < |c.sink| && c.sink[i] == row;
    assert RowOk(c, i);
    ParsePrint(Payload(c.flow(row.runId), Outs(c.db, row.runId, ToolSeq(c.flow(row.runId)) - 1)));
  }

  lemma CoreExportable(c: Core, root: RunId)
    requires CoreOk(c) && Sound(c.db, c.sink)
    ensures AllExportable(LiveRecords(c.db, c.sink, root)) && NoText(LiveRecords(c.db, c.sink, root))
  {
    hide CoreOk, BundleRecords, Parse, Bundled, Forest, Payload, Print, Outs;
    CoreRows(c);
    hide RowsOk;
    var recs := LiveRecords(c.db, c.sink, root);
    EffectsFromSink(c.db, c.sink, Bundled(c.db, c.sink, root));
    forall rec | rec in recs ensures Exportable(rec) && !HoldsText(rec) {
      if rec.EffectRecord? { PayloadIsObject(c, rec.row); }
    }
  }

  lemma CoreRows(c: Core)
    requires CoreOk(c)
    ensures RowsOk(c)
  {
  }

  lemma StepsHaveMeta(c: Core, r: RunId)
    requires CoreOk(c)
    ensures r in c.db.metas || |Trajectory(c.db, r)| == 0
  {
    hide Trajectory, MetasOk, RowsOk, KeysUnique, Forest, NativeOk, FitsTable;
    NoRows(c.db, r);
    if k: nat :| (r, k) in c.db.steps { assert EntryOk(c, r, k); }
  }

  lemma CoreOffline(c: Core, root: RunId, date: DateParser, d: RunId)
    requires CoreOk(c)
    ensures Sound(c.db, c.sink) && AllExportable(LiveRecords(c.db, c.sink, root))
    ensures d in Bundled(c.db, c.sink, root) ==>
      Reconstruct(Reimported(c.db, c.sink, root), date, d) == Reconstruct(Live(c.db, c.sink), date, d)
    ensures ExportText(BundleRecords(Reimported(c.db, c.sink, root), BundledAgain(c.db, c.sink, root)))
      == Ok(BundleText(c.db, c.sink, root))
  {
    hide CoreOk, AllExportable, Bundled, BundledAgain, Reimported, Trajectory, Reconstruct;
    hide BundleRecords, BundleText, NoText, Parse, Forest, EffectsFor;
    CoreSound(c);
    CoreExportable(c, root);
    StepsHaveMeta(c, root);
    ReexportFixpoint(c.db, c.sink, root);
    if d in Bundled(c.db, c.sink, root) {
      StepsHaveMeta(c, d);
      OfflineReplay(c.db, c.sink, root, date, d);
      CorePayloads(c, d);
    }
  }

  lemma CorePayloads(c: Core, d: RunId)
    requires CoreOk(c) && AllParse(EffectsFor(c.sink, d))
    ensures PayloadsSurvive(c.sink, d)
  {
    hide CoreOk, Parse, RowOk;
    CoreRows(c);
    Ordering.FilterMembers(c.sink, (row: EffectRow) => row.runId == d);
    hide EffectsFor;
    forall row | row in EffectsFor(c.sink, d) ensures !Ambiguous(Parse(row.payload).value) {
      assert row in c.sink by { FromSink(c.sink, d, row); }
      PayloadIsObject(c, row);
    }
  }

  lemma FromSink(sink: seq<EffectRow>, d: RunId, row: EffectRow)
    requires row in EffectsFor(sink, d)
    ensures row in sink
  {
    Ordering.FilterMembers(sink, (row: EffectRow) => row.runId == d);
  }

  /** Whatever the schedule of workers, crashes, forks and inputs: the bundle of any root can be
      exported and imported, every run in it replays the same, and the re-export is the same text. */
  lemma PortableAlways(flow: RunId -> Flow, schedule: seq<Action>, root: RunId, date: DateParser, d: RunId)
    ensures var c := Exec(Init(flow), schedule).core;
      && Sound(c.db, c.sink) && AllExportable(LiveRecords(c.db, c.sink, root))
      && (d in Bundled(c.db, c.sink, root) ==>
            Reconstruct(Reimported(c.db, c.sink, root), date, d) == Reconstruct(Live(c.db, c.sink), date, d))
      && ExportText(BundleRecords(Reimported(c.db, c.sink, root), BundledAgain(c.db, c.sink, root)))
         == Ok(BundleText(c.db, c.sink, root))
  {
    hide Exec, CoreOk, Sound, AllExportable, Bundled, BundledAgain;
    hide Reimported, Reconstruct, BundleRecords, BundleText, EffectsFor;
    Invariant(flow, schedule);
    CoreOffline(Exec(Init(flow), schedule).core, root, date, d);
  }
}
