/** Exporting a run, and a run with its whole fork tree, as portable lines. */
module Bundle {
  import opened EffectSink
  import opened Journal
  import opened Json
  import Ordering
  import opened Portable
  import S = Source
  import opened StepModel
  import opened Text
  import opened Wrappers

  function StepRecords(entries: seq<Entry>): (recs: seq<Record>)
    ensures |recs| == |entries| && forall i | 0 <= i < |entries| :: recs[i] == StepRecord(entries[i])
  {
    seq(|entries|, i requires 0 <= i < |entries| => StepRecord(entries[i]))
  }

  function EffectRecords(rows: seq<EffectRow>): (recs: seq<Record>)
    ensures |recs| == |rows| && forall i | 0 <= i < |rows| :: recs[i] == EffectRecord(rows[i])
  {
    seq(|rows|, i requires 0 <= i < |rows| => EffectRecord(rows[i]))
  }

  function MetaRecords(meta: Option<RunMeta>): seq<Record> { if meta.Some? then [MetaRecord(meta.value)] else [] }

  /** What one run contributes: its metadata, its steps and its effects, in this order. */
  function RunRecords(src: S.JournalSource, r: RunId): seq<Record>
  {
    MetaRecords(src.runMeta(r)) + StepRecords(src.trajectory(r)) + EffectRecords(src.effectsFor(r))
  }

  function BundleRecords(src: S.JournalSource, order: seq<RunId>): seq<Record>
  {
    if |order| == 0 then [] else RunRecords(src, order[0]) + BundleRecords(src, order[1..])
  }

  predicate AllExportable(recs: seq<Record>) { forall rec | rec in recs :: Exportable(rec) }

  function Lines(recs: seq<Record>): (lines: seq<string>)
    requires AllExportable(recs)
    ensures |lines| == |recs| && forall i | 0 <= i < |recs| :: lines[i] == Line(recs[i])
  {
    seq(|recs|, i requires 0 <= i < |recs| => assert recs[i] in recs; Line(recs[i]))
  }

  /** The portable text of some records; a payload that is not JSON makes the export throw. */
  function ExportText(recs: seq<Record>): Result<string>
  {
    if AllExportable(recs) then Ok(Join(Lines(recs))) else Err(InvalidPayload)
  }

  /** An export is refused exactly when the payload of some effect in it is not JSON. */
  lemma ExportRefusedExactly(recs: seq<Record>)
    ensures ExportText(recs) == Err(InvalidPayload) <==>
      exists rec | rec in recs :: rec.EffectRecord? && Parse(rec.row.payload).None?
    ensures ExportText(recs).Err? ==> ExportText(recs) == Err(InvalidPayload)
  {
    hide Parse, Lines, Join;
  }

  /** The records of a run: its metadata first, if it has some, then its steps, then its effects, each in the
      order the source gives them. */
  lemma RecordsInOrder(src: S.JournalSource, r: RunId)
    ensures var recs, t, rows := RunRecords(src, r), src.trajectory(r), src.effectsFor(r);
      var start := if src.runMeta(r).Some? then 1 else 0;
      && |recs| == start + |t| + |rows|
      && (start == 1 ==> recs[0] == MetaRecord(src.runMeta(r).value))
      && (forall i | 0 <= i < |t| :: recs[start + i] == StepRecord(t[i]))
      && (forall i | 0 <= i < |rows| :: recs[start + |t| + i] == EffectRecord(rows[i]))
  {
  }

  // ---- One run ----

  lemma LinesAppend(a: seq<Record>, rec: Record)
    requires AllExportable(a) && Exportable(rec)
    ensures AllExportable(a + [rec]) && Lines(a + [rec]) == Lines(a) + [Line(rec)]
  {
    hide Line, Exportable;
  }

  method ExportJsonl(src: S.JournalSource, r: RunId) returns (text: Result<string>)
    ensures text == ExportText(RunRecords(src, r))
  {
    hide Line, Exportable, Join;
    var lines: seq<string> := [];
    ghost var recs: seq<Record> := [];
    var meta := src.runMeta(r);
    if meta.Some? {
      assert Exportable(MetaRecord(meta.value)) by { MetaExportable(meta.value); }
      LinesAppend(recs, MetaRecord(meta.value));
      lines := lines + [Line(MetaRecord(meta.value))];
      recs := recs + [MetaRecord(meta.value)];
    }
    var entries := src.trajectory(r);
    for i := 0 to |entries|
      invariant AllExportable(recs) && lines == Lines(recs)
      invariant recs == MetaRecords(meta) + StepRecords(entries)[..i]
    {
      StepExportable(entries[i]);
      LinesAppend(recs, StepRecord(entries[i]));
      lines := lines + [Line(StepRecord(entries[i]))];
      recs := recs + [StepRecord(entries[i])];
    }
    var rows := src.effectsFor(r);
    for i := 0 to |rows|
      invariant AllExportable(recs) && lines == Lines(recs)
      invariant recs == MetaRecords(meta) + StepRecords(entries) + EffectRecords(rows)[..i]
    {
      EffectExportable(rows[i]);
      if Parse(rows[i].payload).None? {
        assert EffectRecords(rows)[i] in RunRecords(src, r);
        return Err(InvalidPayload);
      }
      LinesAppend(recs, EffectRecord(rows[i]));
      lines := lines + [Line(EffectRecord(rows[i]))];
      recs := recs + [EffectRecord(rows[i])];
    }
    assert recs == RunRecords(src, r);
    text := Ok(Join(lines));
  }

  lemma MetaExportable(m: RunMeta)
    ensures Exportable(MetaRecord(m))
  {
  }

  lemma StepExportable(e: Entry)
    ensures Exportable(StepRecord(e))
  {
  }

  lemma EffectExportable(row: EffectRow)
    ensures Exportable(EffectRecord(row)) <==> Parse(row.payload).Some?
  {
  }

  // ---- A run and its forks ----

  lemma {:induction false} BundleAppend(src: S.JournalSource, a: seq<RunId>, b: seq<RunId>)
    ensures BundleRecords(src, a + b) == BundleRecords(src, a) + BundleRecords(src, b)
  {
    hide RunRecords;
    if |a| == 0 {
      assert a + b == b;
    } else {
      assert (a + b)[1..] == a[1..] + b && (a + b)[0] == a[0];
      BundleAppend(src, a[1..], b);
    }
  }

  lemma BundleOne(src: S.JournalSource, r: RunId)
    ensures BundleRecords(src, [r]) == RunRecords(src, r)
  {
    assert BundleRecords(src, [r][1..]) == [];
  }

  lemma ExportableAppend(a: seq<Record>, b: seq<Record>)
    ensures AllExportable(a + b) <==> AllExportable(a) && AllExportable(b)
  {
    hide Exportable;
    if AllExportable(a + b) {
      forall rec | rec in a || rec in b ensures Exportable(rec) { assert rec in a + b; }
    }
  }

  /** The texts of several runs, joined, are the joined lines of all of them. */
  ghost predicate Joined(out: seq<string>, recs: seq<Record>)
  {
    AllExportable(recs) && Join(out) == Join(Lines(recs)) && (|out| == 0 <==> |recs| == 0)
  }

  lemma LineNotEmpty(rec: Record)
    requires Exportable(rec)
    ensures Line(rec) != ""
  {
    PrintFirst(JObj(Fields(rec)));
  }

  /** A run's text is empty exactly when it has no records. */
  lemma EmptyText(recs: seq<Record>)
    requires AllExportable(recs)
    ensures Join(Lines(recs)) == "" <==> |recs| == 0
  {
    hide Line, Exportable;
    if |recs| > 0 {
      assert recs[0] in recs;
      LineNotEmpty(recs[0]);
    }
  }

  lemma JoinedAppend(out: seq<string>, recs: seq<Record>, more: seq<Record>)
    requires Joined(out, recs) && AllExportable(more) && |more| > 0
    ensures Joined(out + [Join(Lines(more))], recs + more)
  {
    hide Line, Exportable;
    ExportableAppend(recs, more);
    var body := Join(Lines(more));
    assert Lines(recs + more) == Lines(recs) + Lines(more);
    if |recs| == 0 {
      assert recs + more == more && out + [body] == [body];
    } else {
      JoinAppend(out, [body]);
      JoinAppend(Lines(recs), Lines(more));
    }
  }

  /** The recursive visit of an export, which marks the runs it has seen and collects their texts. */
  class Exporter {
    var seen: set<RunId>
    var out: seq<string>
    ghost var recs: seq<Record>

    ghost predicate Valid()
      reads this
    {
      Joined(out, recs)
    }

    constructor ()
      ensures Valid() && seen == {} && recs == []
    {
      seen, out, recs := {}, [], [];
      new;
      assert Lines([]) == [];
    }

    /** One run's text, unless it is empty; an unreadable payload throws. */
    method Push(src: S.JournalSource, r: RunId) returns (ok: bool)
      requires Valid()
      modifies this`out, this`recs
      ensures Valid() && (ok <==> AllExportable(RunRecords(src, r)))
      ensures ok ==> recs == old(recs) + RunRecords(src, r)
    {
      hide RunRecords, Exportable, Line, Join;
      var body := ExportJsonl(src, r);
      if body.Err? { return false; }
      EmptyText(RunRecords(src, r));
      if body.value != "" {
        JoinedAppend(out, recs, RunRecords(src, r));
        out := out + [body.value];
        recs := recs + RunRecords(src, r);
      } else {
        assert recs + RunRecords(src, r) == recs;
      }
      ok := true;
    }

    method Visit(src: S.JournalSource, r: RunId, ghost universe: set<RunId>) returns (ok: bool)
      requires Valid() && S.Within(src, universe) && r in universe
      modifies this
      ensures Valid()
      ensures var v := S.Visit(src, r, old(seen), universe);
        && (ok <==> AllExportable(BundleRecords(src, v.order)))
        && (ok ==> seen == v.seen && recs == old(recs) + BundleRecords(src, v.order))
      decreases |universe - seen|, 0
    {
      hide S.Visit, S.VisitAll, RunRecords, BundleRecords, AllExportable, Joined;
      if r in seen {
        S.VisitSeen(src, r, seen, universe);
        BundleNone(src);
        return true;
      }
      S.VisitUnfold(src, r, seen, universe);
      assert universe - (seen + {r}) == (universe - seen) - {r};
      seen := seen + {r};
      BundleSplit(src, [r], S.VisitAll(src, src.childRuns(r), seen, universe).order);
      BundleOne(src, r);
      ok := Push(src, r);
      if ok {
        ok := VisitChildren(src, src.childRuns(r), universe);
      }
    }

    /** The loop of Visit over a run's children. */
    method VisitChildren(src: S.JournalSource, children: seq<RunMeta>, ghost universe: set<RunId>) returns (ok: bool)
      requires Valid() && S.Within(src, universe) && forall m | m in children :: m.runId in universe
      modifies this
      ensures Valid()
      ensures var v := S.VisitAll(src, children, old(seen), universe);
        && (ok <==> AllExportable(BundleRecords(src, v.order)))
        && (ok ==> seen == v.seen && recs == old(recs) + BundleRecords(src, v.order))
      decreases |universe - seen|, 1
    {
      hide S.Visit, S.VisitAll, BundleRecords, AllExportable, Joined;
      ghost var start, own := seen, recs;
      ghost var all := S.VisitAll(src, children, seen, universe);
      ghost var done: seq<RunId> := [];
      BundleNone(src);
      for i := 0 to |children|
        invariant Valid() && start <= seen
        invariant AllExportable(BundleRecords(src, done)) && recs == own + BundleRecords(src, done)
        invariant Rest(src, children, i, seen, universe, done, all)
      {
        RestStep(src, children, i, seen, universe, done, all);
        ghost var first := S.Visit(src, children[i].runId, seen, universe);
        S.SmallerRest(universe, start, seen);
        ok := Visit(src, children[i].runId, universe);
        if !ok { return; }
        done := done + first.order;
      }
      RestDone(src, children, seen, universe, done, all);
      ok := true;
    }
  }

  /** The visit of all the children is what was done for the first i and what is left for the others. */
  ghost predicate Rest(src: S.JournalSource, children: seq<RunMeta>, i: nat, seen: set<RunId>, universe: set<RunId>,
                       done: seq<RunId>, all: S.Visited)
    requires S.Within(src, universe) && (forall m | m in children :: m.runId in universe) && i <= |children|
  {
    var rest := S.VisitAll(src, children[i..], seen, universe);
    all == S.Visited(done + rest.order, rest.seen)
  }

  lemma RestStep(src: S.JournalSource, children: seq<RunMeta>, i: nat, seen: set<RunId>, universe: set<RunId>,
                 done: seq<RunId>, all: S.Visited)
    requires S.Within(src, universe) && (forall m | m in children :: m.runId in universe) && i < |children|
    requires Rest(src, children, i, seen, universe, done, all)
    ensures var first := S.Visit(src, children[i].runId, seen, universe);
      && Rest(src, children, i + 1, first.seen, universe, done + first.order, all)
      && BundleRecords(src, done + first.order) == BundleRecords(src, done) + BundleRecords(src, first.order)
      && (AllExportable(BundleRecords(src, done)) ==>
            (AllExportable(BundleRecords(src, done + first.order)) <==> AllExportable(BundleRecords(src, first.order)))
            && (AllExportable(BundleRecords(src, all.order)) ==> AllExportable(BundleRecords(src, first.order))))
  {
    hide S.Visit, S.VisitAll, BundleRecords, AllExportable;
    assert children[i..][0] == children[i] && children[i..][1..] == children[i + 1..];
    S.VisitAllUnfold(src, children[i..], seen, universe);
    var first := S.Visit(src, children[i].runId, seen, universe);
    var rest := S.VisitAll(src, children[i + 1..], first.seen, universe);
    Ordering.Regroup(done, first.order, rest.order);
    BundleSplit(src, done, first.order);
    BundleSplit(src, done + first.order, rest.order);
  }

  lemma RestDone(src: S.JournalSource, children: seq<RunMeta>, seen: set<RunId>, universe: set<RunId>,
                 done: seq<RunId>, all: S.Visited)
    requires S.Within(src, universe) && (forall m | m in children :: m.runId in universe)
    requires Rest(src, children, |children|, seen, universe, done, all)
    ensures all == S.Visited(done, seen)
  {
    S.VisitAllNone(src, seen, universe);
    assert children[|children|..] == [];
  }

  lemma BundleNone(src: S.JournalSource)
    ensures BundleRecords(src, []) == [] && AllExportable(BundleRecords(src, []))
  {
  }

  lemma BundleSplit(src: S.JournalSource, a: seq<RunId>, b: seq<RunId>)
    ensures BundleRecords(src, a + b) == BundleRecords(src, a) + BundleRecords(src, b)
    ensures AllExportable(BundleRecords(src, a + b))
      <==> AllExportable(BundleRecords(src, a)) && AllExportable(BundleRecords(src, b))
  {
    BundleAppend(src, a, b);
    ExportableAppend(BundleRecords(src, a), BundleRecords(src, b));
  }

  /** The bundle of a run is the lines of every record of every run the visit meets, in its order. */
  method ExportBundle(src: S.JournalSource, root: RunId, ghost universe: set<RunId>) returns (text: Result<string>)
    requires S.Within(src, universe) && root in universe
    ensures text == ExportText(BundleRecords(src, S.Visit(src, root, {}, universe).order))
  {
    hide S.Visit, Line, Exportable, Join, BundleRecords;
    var exporter := new Exporter();
    var ok := exporter.Visit(src, root, universe);
    if !ok { return Err(InvalidPayload); }
    text := Ok(Join(exporter.out));
    assert exporter.recs == BundleRecords(src, S.Visit(src, root, {}, universe).order);
  }
}
