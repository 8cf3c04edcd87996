/** Exporting an imported bundle again: when the text comes out unchanged. */
module Fixpoint {
  import opened Bundle
  import opened Descendants
  import opened EffectSink
  import opened Import
  import opened Journal
  import opened Json
  import opened Lineage
  import opened Offline
  import opened OfflineTheorems
  import opened Ordering
  import opened Portable
  import opened RoundTrip
  import opened Source
  import opened StepModel
  import opened Text
  import opened Wrappers

  // ---- One line ----

  /** An effect whose payload is a JSON string: the import keeps the string's own text as the payload. */
  predicate HoldsText(rec: Record)
    requires Exportable(rec)
  {
    rec.EffectRecord? && Parse(rec.row.payload).value.JStr?
  }

  lemma RewrittenParse(j: Json)
    ensures Parse(Rewritten(j)) == Some(j) <==> !j.JStr?
  {
    match j
    case JStr(s) => if Parse(s).Some? { ParsedStringShorter(s); }
    case JNull => ParsePrint(JNull);
    case _ => ParsePrint(j);
  }

  lemma SamePayload(row: EffectRow, row': EffectRow)
    requires Parse(row.payload).Some? && Parse(row'.payload).Some?
    requires Line(EffectRecord(row)) == Line(EffectRecord(row'))
    ensures Parse(row.payload) == Parse(row'.payload)
  {
    PrintInjective(JObj(Fields(EffectRecord(row))), JObj(Fields(EffectRecord(row'))));
    hide Print, Get, Zip, Parse, Distinct;
    EffectKeysDistinct();
    var a, b := EffectValues(row, Parse(row.payload).value), EffectValues(row', Parse(row'.payload).value);
    ReadField(EFFECT_KEYS, a, 6, "payload");
    ReadField(EFFECT_KEYS, b, 6, "payload");
  }

  /** A received record is written as the line it came from exactly when its payload is not a string. */
  lemma SameLine(rec: Record)
    requires Exportable(rec)
    ensures Exportable(Received(rec)) && Line(Received(rec)) == Line(rec) <==> !HoldsText(rec)
  {
    hide Parse, Print, Zip, Rewritten;
    if rec.EffectRecord? {
      var j := Parse(rec.row.payload).value;
      var back := rec.row.(payload := Rewritten(j));
      RewrittenParse(j);
      if Exportable(Received(rec)) && Line(Received(rec)) == Line(rec) { SamePayload(rec.row, back); }
    }
  }

  // ---- Whole texts ----

  lemma LineIsOneLine(rec: Record)
    requires Exportable(rec)
    ensures NoNewline(Line(rec))
  {
    PrintOneLine(JObj(Fields(rec)));
  }

  /** The text determines the lines. */
  lemma TextDecides(a: seq<Record>, b: seq<Record>)
    requires AllExportable(a) && AllExportable(b) && Join(Lines(a)) == Join(Lines(b))
    ensures Lines(a) == Lines(b)
  {
    hide Line, Exportable, Join, Split;
    EmptyText(a);
    EmptyText(b);
    if |a| > 0 {
      forall i | 0 <= i < |a| ensures NoNewline(Lines(a)[i]) { assert a[i] in a; LineIsOneLine(a[i]); }
      forall i | 0 <= i < |b| ensures NoNewline(Lines(b)[i]) { assert b[i] in b; LineIsOneLine(b[i]); }
      SplitJoin(Lines(a));
      SplitJoin(Lines(b));
    } else {
      assert Lines(a) == Lines(b);
    }
  }

  lemma LongerText(a: seq<Record>, b: seq<Record>)
    requires AllExportable(a) && AllExportable(b) && |a| != |b|
    ensures Join(Lines(a)) != Join(Lines(b))
  {
    hide Line, Exportable, Join;
    if Join(Lines(a)) == Join(Lines(b)) { TextDecides(a, b); }
  }

  predicate NoText(recs: seq<Record>)
    requires AllExportable(recs)
  {
    forall i | 0 <= i < |recs| :: assert recs[i] in recs; !HoldsText(recs[i])
  }

  /** Records written again after being read give the same text exactly when no payload is a string. */
  lemma TextAgain(recs: seq<Record>)
    requires AllExportable(recs)
    ensures ExportText(ReceivedAll(recs)) == Ok(Join(Lines(recs))) <==> NoText(recs)
  {
    hide Line, Exportable, Join, Received, HoldsText;
    var back := ReceivedAll(recs);
    forall i | 0 <= i < |recs|
      ensures Exportable(recs[i])
      ensures Exportable(back[i]) && Line(back[i]) == Line(recs[i]) <==> !HoldsText(recs[i])
    {
      assert recs[i] in recs;
      SameLine(recs[i]);
    }
    if NoText(recs) {
      forall rec | rec in back ensures Exportable(rec) { var i :| 0 <= i < |back| && back[i] == rec; }
      assert Lines(back) == Lines(recs);
    }
    if ExportText(back) == Ok(Join(Lines(recs))) {
      TextDecides(back, recs);
      forall i | 0 <= i < |recs| ensures !HoldsText(recs[i]) {
        assert back[i] in back;
        assert Lines(back)[i] == Lines(recs)[i];
      }
    }
  }

  // ---- The import is visited like the live store ----

  lemma {:induction false} MetaListRuns(db: Db, order: seq<RunId>)
    requires ValidDb(db)
    ensures forall m | m in MetaList(db, order) :: m.runId in db.metas
  {
    if |order| > 0 { MetaListRuns(db, order[1..]); }
  }

  lemma ReimportedWithin(db: Db, sink: seq<EffectRow>, root: RunId)
    requires Sound(db, sink) && AllExportable(LiveRecords(db, sink, root))
    ensures Within(Reimported(db, sink, root), Runs(db, root))
  {
    hide Bundled, AllExportable, Back, MetaTable, StableSort, Filter, Forest;
    var extra := ImportedTable(db, sink, root);
    var metas, table := MetaList(db, Bundled(db, sink, root)), MetaTable(Back(db, sink, root));
    MetaListRuns(db, Bundled(db, sink, root));
    forall p, m | m in ChildrenOf(table, p) ensures m.runId in Runs(db, root) {
      StableSortElements(Filter(table, (m: RunMeta) => m.parentRun == Some(p)), CreatedBefore);
      FilterMembers(table, (m: RunMeta) => m.parentRun == Some(p));
      assert m in multiset(Filter(table, (m: RunMeta) => m.parentRun == Some(p)));
      assert m in table && m.parentRun == Some(p);
      assert m in metas;
    }
  }

  /** The runs an export of the import visits. */
  function BundledAgain(db: Db, sink: seq<EffectRow>, root: RunId): seq<RunId>
    requires Sound(db, sink) && AllExportable(LiveRecords(db, sink, root))
  {
    ReimportedWithin(db, sink, root);
    Visit(Reimported(db, sink, root), root, {}, Runs(db, root)).order
  }

  lemma SameVisit(db: Db, sink: seq<EffectRow>, root: RunId)
    requires Sound(db, sink) && AllExportable(LiveRecords(db, sink, root))
    ensures BundledAgain(db, sink, root) == Bundled(db, sink, root)
  {
    hide Visit, ChildRuns, Reimported, AllExportable, Forest, BundleRecords;
    LiveWithin(db, sink, root);
    ReimportedWithin(db, sink, root);
    forall d | d in Bundled(db, sink, root)
      ensures Reimported(db, sink, root).childRuns(d) == Live(db, sink).childRuns(d)
    {
      ImportAnswers(db, sink, root, d);
    }
    VisitAgree(Live(db, sink), Reimported(db, sink, root), root, {}, Runs(db, root));
  }

  // ---- What is exported again ----

  lemma RunAgain(db: Db, sink: seq<EffectRow>, root: RunId, d: RunId)
    requires Sound(db, sink) && AllExportable(LiveRecords(db, sink, root)) && d in Bundled(db, sink, root)
    requires AllExportable(RunRecords(Live(db, sink), d))
    ensures RunRecords(Reimported(db, sink, root), d)
      == (if d in db.metas then [] else MetaRecords(MetaBack(db, d))) + ReceivedAll(RunRecords(Live(db, sink), d))
  {
    hide Bundled, AllExportable, Reimported, ReceivedAll, Trajectory;
    hide EffectsFor, AllParse, ReceivedRows, Forest, BundleRecords;
    ImportAnswers(db, sink, root, d);
    RunReceived(Live(db, sink), d);
  }

  lemma {:induction false} RunsAgain(db: Db, sink: seq<EffectRow>, root: RunId, order: seq<RunId>)
    requires Sound(db, sink) && AllExportable(LiveRecords(db, sink, root))
    requires forall d | d in order :: d in Bundled(db, sink, root) && d in db.metas
    requires AllExportable(BundleRecords(Live(db, sink), order))
    ensures BundleRecords(Reimported(db, sink, root), order) == ReceivedAll(BundleRecords(Live(db, sink), order))
  {
    hide Bundled, AllExportable, Reimported, RunRecords, ReceivedAll, Sound;
    var src := Live(db, sink);
    if |order| == 0 {
      ReceivedNone();
    } else {
      assert order == [order[0]] + order[1..];
      BundleSplit(src, [order[0]], order[1..]);
      BundleOne(src, order[0]);
      RunAgain(db, sink, root, order[0]);
      RunsAgain(db, sink, root, order[1..]);
      ReceivedAppend(RunRecords(src, order[0]), BundleRecords(src, order[1..]));
    }
  }

  lemma OnlyRootLacksMeta(db: Db, sink: seq<EffectRow>, root: RunId)
    requires ValidDb(db)
    ensures var order := Bundled(db, sink, root);
      |order| > 0 && order[0] == root && forall d | d in order[1..] :: d in db.metas
  {
    hide Visit, VisitAll, ChildRuns;
    LiveWithin(db, sink, root);
    VisitUnfold(Live(db, sink), root, {}, Runs(db, root));
    BundledExactly(db, sink, root);
    var order := Bundled(db, sink, root);
    forall d | d in order[1..] ensures d in db.metas {
      var i :| 0 <= i < |order[1..]| && order[1..][i] == d;
      assert order[i + 1] == d && d in order && order[0] != d;
      var n: nat :| Up(db.metas, d, n) == Some(root);
    }
  }

  /** The records exported again: metadata made up for a root that had none, then what was received. */
  lemma RecordsAgain(db: Db, sink: seq<EffectRow>, root: RunId)
    requires Sound(db, sink) && AllExportable(LiveRecords(db, sink, root))
    ensures BundleRecords(Reimported(db, sink, root), Bundled(db, sink, root))
      == (if root in db.metas then [] else MetaRecords(MetaBack(db, root))) + ReceivedAll(LiveRecords(db, sink, root))
  {
    hide Bundled, AllExportable, Reimported, RunRecords, ReceivedAll, Forest, MetaBack, BundleRecords;
    var order, src, back := Bundled(db, sink, root), Live(db, sink), Reimported(db, sink, root);
    OnlyRootLacksMeta(db, sink, root);
    var rest := order[1..];
    assert order == [root] + rest;
    BundleSplit(src, [root], rest);
    BundleSplit(back, [root], rest);
    BundleOne(src, root);
    BundleOne(back, root);
    RunAgain(db, sink, root, root);
    RunsAgain(db, sink, root, rest);
    ReceivedAppend(RunRecords(src, root), BundleRecords(src, rest));
    var extra := if root in db.metas then [] else MetaRecords(MetaBack(db, root));
    Ordering.Regroup(extra, ReceivedAll(RunRecords(src, root)), ReceivedAll(BundleRecords(src, rest)));
  }

  /** The bundle exported from the import is the bundle that was imported, character for character,
      exactly when the root has metadata (or no steps) and no payload of the tree is a string. */
  lemma ReexportFixpoint(db: Db, sink: seq<EffectRow>, root: RunId)
    requires Sound(db, sink) && AllExportable(LiveRecords(db, sink, root))
    ensures ExportText(BundleRecords(Reimported(db, sink, root), BundledAgain(db, sink, root)))
      == Ok(BundleText(db, sink, root))
      <==> (root in db.metas || |Trajectory(db, root)| == 0) && NoText(LiveRecords(db, sink, root))
  {
    hide Bundled, BundledAgain, AllExportable, Reimported, ReceivedAll, Trajectory, BundleRecords, Join, NoText, Forest;
    SameVisit(db, sink, root);
    RecordsAgain(db, sink, root);
    var recs := LiveRecords(db, sink, root);
    TextAgain(recs);
    if root !in db.metas && |Trajectory(db, root)| > 0 {
      var extra := MetaRecord(RootMeta(root, Trajectory(db, root)));
      var again := [extra] + ReceivedAll(recs);
      if AllExportable(again) { LongerText(again, recs); }
    } else {
      assert [] + ReceivedAll(recs) == ReceivedAll(recs);
    }
  }
}
