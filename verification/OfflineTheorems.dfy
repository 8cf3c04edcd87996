/** Replay from an exported bundle equals live replay, exporting the import gives the same text
    back, and every state the protocol reaches satisfies what that takes. */
module OfflineTheorems {
  import opened Bundle
  import opened Descendants
  import opened EffectSink
  import opened Import
  import opened Journal
  import opened Json
  import opened Offline
  import opened Portable
  import opened Replay
  import opened RoundTrip
  import opened Source
  import opened StepModel
  import opened Text
  import opened Wrappers

  /** The text of root's bundle. */
  function BundleText(db: Db, sink: seq<EffectRow>, root: RunId): string
    requires ValidDb(db) && AllExportable(LiveRecords(db, sink, root))
  {
    Join(Lines(LiveRecords(db, sink, root)))
  }

  /** The source an import of root's bundle answers from. */
  function Reimported(db: Db, sink: seq<EffectRow>, root: RunId): JournalSource
    requires ValidDb(db) && AllExportable(LiveRecords(db, sink, root))
  {
    ImportedSource(Back(db, sink, root))
  }

  // ---- The bundle can be read ----

  lemma {:induction false} LiveReadable(db: Db, sink: seq<EffectRow>, order: seq<RunId>)
    requires Sound(db, sink)
    ensures AllReadable(BundleRecords(Live(db, sink), order))
  {
    hide Trajectory, EffectsFor, RunRecords, Readable;
    if |order| > 0 {
      LiveReadable(db, sink, order[1..]);
      RunReadable(db, sink, order[0]);
    }
  }

  lemma RunReadable(db: Db, sink: seq<EffectRow>, r: RunId)
    requires Sound(db, sink)
    ensures AllReadable(RunRecords(Live(db, sink), r))
  {
    TrajectoryExact(db, r);
    hide Trajectory, EffectsFor;
    forall rec | rec in RunRecords(Live(db, sink), r) ensures Readable(rec) {
      if rec.StepRecord? { assert rec.entry in Trajectory(db, r); }
    }
  }

  /** Whatever can be exported can be imported, and parses to the records that went out. */
  lemma BundleReadBack(db: Db, sink: seq<EffectRow>, root: RunId)
    requires Sound(db, sink) && AllExportable(LiveRecords(db, sink, root))
    ensures ReadLines(Split(BundleText(db, sink, root))) == Ok(ReceivedAll(LiveRecords(db, sink, root)))
  {
    hide ReadLines, Split, Join, Bundled, Trajectory, BundleRecords, AllReadable;
    LiveReadable(db, sink, Bundled(db, sink, root));
    ReadBack(LiveRecords(db, sink, root));
  }

  // ---- Offline replay ----

  /** No effect of the run has a string payload that is JSON text itself. */
  predicate PayloadsSurvive(sink: seq<EffectRow>, r: RunId)
    requires AllParse(EffectsFor(sink, r))
  {
    forall row | row in EffectsFor(sink, r) :: !Ambiguous(Parse(row.payload).value)
  }

  lemma ViewsAgree(rows: seq<EffectRow>)
    requires AllParse(rows)
    ensures EffectViews(ReceivedRows(rows)) == EffectViews(rows) <==> forall row | row in rows ::
      !Ambiguous(Parse(row.payload).value)
  {
    hide Parse, Rewritten, Ambiguous;
    var back := ReceivedRows(rows);
    forall i | 0 <= i < |rows|
      ensures EffectView(back[i]) == EffectView(rows[i]) <==> !Ambiguous(Parse(rows[i].payload).value) {
      assert rows[i] in rows;
      PayloadSurvives(Parse(rows[i].payload).value);
      SafeParseOf(rows[i].payload);
    }
    if EffectViews(back) == EffectViews(rows) {
      forall row | row in rows ensures !Ambiguous(Parse(row.payload).value) {
        var i :| 0 <= i < |rows| && rows[i] == row;
        assert EffectViews(back)[i] == EffectViews(rows)[i];
      }
    }
  }

  lemma SafeParseOf(text: string)
    requires Parse(text).Some?
    ensures SafeParse(text) == Parse(text).value
  {
  }

  /** For every run of the bundle: same steps, same forks, and the effects as rewritten. */
  lemma ImportAnswers(db: Db, sink: seq<EffectRow>, root: RunId, d: RunId)
    requires Sound(db, sink) && AllExportable(LiveRecords(db, sink, root)) && d in Bundled(db, sink, root)
    ensures AllParse(EffectsFor(sink, d))
    ensures var src := Reimported(db, sink, root);
      && src.trajectory(d) == Trajectory(db, d)
      && src.childRuns(d) == ChildRuns(db, d)
      && src.effectsFor(d) == ReceivedRows(EffectsFor(sink, d))
      && src.runMeta(d) == MetaBack(db, d)
  {
    BundleCollected(db, sink, Bundled(db, sink, root));
    hide Trajectory, Bundled, AllExportable, Back, ChildRuns, MetaTable;
    hide Group, ReceivedRows, EffectsFor, AllParse, MetaBack;
    ImportedRuns(db, sink, root, d);
    ImportedChildren(db, sink, root, d);
    var extra := ImportedTable(db, sink, root);
  }

  /** Replay of any run of the tree from the exported text alone is replay from the live stores,
      exactly when the run has metadata (or no steps to make some up for) and its payloads survive. */
  lemma OfflineReplay(db: Db, sink: seq<EffectRow>, root: RunId, date: DateParser, d: RunId)
    requires Sound(db, sink) && AllExportable(LiveRecords(db, sink, root)) && d in Bundled(db, sink, root)
    ensures ReadLines(Split(BundleText(db, sink, root))) == Ok(ReceivedAll(LiveRecords(db, sink, root)))
    ensures AllParse(EffectsFor(sink, d))
    ensures Reconstruct(Reimported(db, sink, root), date, d) == Reconstruct(Live(db, sink), date, d)
      <==> (d in db.metas || |Trajectory(db, d)| == 0) && PayloadsSurvive(sink, d)
  {
    hide ReadLines, Split, BundleText, Trajectory, Bundled, AllExportable, Reimported;
    hide ChildRuns, EffectsFor, Sound, Elapsed, TotalElapsed, Ambiguous;
    BundleReadBack(db, sink, root);
    ImportAnswers(db, sink, root, d);
    ViewsAgree(EffectsFor(sink, d));
  }
}
