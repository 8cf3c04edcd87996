/** Reconstructing a run from its journal, travelling back in it, and comparing two reconstructions. */
module Replay {
  import opened Json
  import opened Ordering
  import opened Portable
  import opened Source
  import opened StepModel
  import opened Text
  import opened Wrappers

  datatype ReplayEffect = ReplayEffect(id: nat, stepName: string, idemKey: string, firedAt: string, payload: Json)

  datatype ReplayStep = ReplayStep(
    seqNo: nat, stepName: string, kind: string, output: Json, sideEffect: bool, seeded: bool, seededFrom: Option<RunId>,
    idemKey: string, recordedAt: string, elapsedFromPrev: Option<int>, effects: seq<ReplayEffect>)

  /** Where another run forked off. */
  datatype DivergencePoint = DivergencePoint(seqNo: nat, forkRunId: RunId, forkTrajectory: string)

  datatype ReplayedRun = ReplayedRun(
    runId: RunId, trajectory: string, meta: Option<RunMeta>, steps: seq<ReplayStep>, totalElapsed: int,
    outcome: Json, effects: seq<ReplayEffect>, divergencePoints: seq<DivergencePoint>)

  /** Date.parse; None for a text that is not a date. */
  type DateParser = string -> Option<int>

  function Elapsed(date: DateParser, prev: string, cur: string): Option<int>
  {
    if date(prev).None? || date(cur).None? then None else Some(date(cur).value - date(prev).value)
  }

  function EffectView(row: EffectRow): ReplayEffect
  {
    ReplayEffect(row.id, row.stepName, row.idemKey, row.firedAt, SafeParse(row.payload))
  }

  function EffectViews(rows: seq<EffectRow>): (views: seq<ReplayEffect>)
    ensures |views| == |rows| && forall i | 0 <= i < |rows| :: views[i] == EffectView(rows[i])
  {
    seq(|rows|, i requires 0 <= i < |rows| => EffectView(rows[i]))
  }

  function EffectsAtStep(effects: seq<ReplayEffect>, stepName: string): seq<ReplayEffect>
  {
    Filter(effects, (e: ReplayEffect) => e.stepName == stepName)
  }

  function StepView(date: DateParser, entries: seq<Entry>, i: nat, effects: seq<ReplayEffect>): ReplayStep
    requires i < |entries|
  {
    var e := entries[i];
    ReplayStep(e.seqNo, e.stepName, e.kind, e.output, e.sideEffect, e.seededFrom.Some?, e.seededFrom, e.idemKey,
      e.recordedAt, if i > 0 then Elapsed(date, entries[i - 1].recordedAt, e.recordedAt) else None,
               EffectsAtStep(effects, e.stepName))
  }

  function StepViews(date: DateParser, entries: seq<Entry>, effects: seq<ReplayEffect>): (views: seq<ReplayStep>)
    ensures |views| == |entries| && forall i | 0 <= i < |entries| :: views[i] == StepView(date, entries, i, effects)
  {
    seq(|entries|, i requires 0 <= i < |entries| => StepView(date, entries, i, effects))
  }

  function TotalElapsed(date: DateParser, entries: seq<Entry>): int
  {
    if |entries| < 2 then 0
    else match Elapsed(date, entries[0].recordedAt, entries[|entries| - 1].recordedAt)
      case Some(ms) => ms
      case None => 0
  }

  predicate PointBefore(a: DivergencePoint, b: DivergencePoint)
  {
    a.seqNo < b.seqNo || (a.seqNo == b.seqNo && Less(a.forkRunId, b.forkRunId))
  }

  function Points(children: seq<RunMeta>): seq<DivergencePoint>
  {
    if |children| == 0 then []
    else (match children[0].forkedAtSeq
          case Some(k) => [DivergencePoint(k, children[0].runId, children[0].trajectory)]
          case None => []) + Points(children[1..])
  }

  function DivergencePoints(src: JournalSource, r: RunId): seq<DivergencePoint>
  {
    StableSort(Points(src.childRuns(r)), PointBefore)
  }

  lemma PointsStrict()
    ensures Strict(PointBefore)
  {
    forall a ensures !PointBefore(a, a) { LessIrreflexive(a.forkRunId); }
    forall a, b, c | PointBefore(a, b) && PointBefore(b, c) ensures PointBefore(a, c) {
      if Less(a.forkRunId, b.forkRunId) && Less(b.forkRunId, c.forkRunId) {
        LessTransitive(a.forkRunId, b.forkRunId, c.forkRunId);
      }
    }
  }

  /** Some listed fork branched off at the point d. */
  predicate ForkedAt(children: seq<RunMeta>, d: DivergencePoint)
  {
    exists m | m in children ::
      m.forkedAtSeq == Some(d.seqNo) && m.runId == d.forkRunId && m.trajectory == d.forkTrajectory
  }

  lemma {:induction false} PointsMembers(children: seq<RunMeta>, d: DivergencePoint)
    ensures d in Points(children) <==> ForkedAt(children, d)
  {
    if |children| > 0 {
      PointsMembers(children[1..], d);
      assert children == [children[0]] + children[1..];
    }
  }

  /** The divergence points of a run are its direct forks with a fork point, in order of that point,
      then of run id. */
  lemma DivergencePointsExact(src: JournalSource, r: RunId)
    ensures NoDescent(DivergencePoints(src, r), PointBefore)
    ensures forall d :: d in DivergencePoints(src, r) <==> ForkedAt(src.childRuns(r), d)
  {
    hide StableSort, Points, ForkedAt;
    var points := Points(src.childRuns(r));
    PointsStrict();
    StableSortOrdered(points, PointBefore);
    StableSortElements(points, PointBefore);
    forall d ensures d in DivergencePoints(src, r) <==> d in points {
      assert d in multiset(points) <==> d in points;
      assert d in multiset(DivergencePoints(src, r)) <==> d in DivergencePoints(src, r);
    }
    forall d { PointsMembers(src.childRuns(r), d); }
  }

  function LastOutput(entries: seq<Entry>): Json
  {
    if |entries| > 0 then entries[|entries| - 1].output else JNull
  }

  function Reconstruct(src: JournalSource, date: DateParser, r: RunId): ReplayedRun
  {
    var entries := src.trajectory(r);
    var effects := EffectViews(src.effectsFor(r));
    var meta := src.runMeta(r);
    ReplayedRun(r, if meta.Some? then meta.value.trajectory else "main", meta, StepViews(date, entries, effects),
                TotalElapsed(date, entries), LastOutput(entries), effects, DivergencePoints(src, r))
  }

  /** The time from one recording to another; None where one of them is no date. */
  predicate Between(date: DateParser, earlier: string, later: string, ms: Option<int>)
  {
    if date(earlier).Some? && date(later).Some? then ms == Some(date(later).value - date(earlier).value) else ms.None?
  }

  /** What a replayed step tells of the entry it stands for, and of the one before. */
  ghost predicate Shows(s: ReplayStep, t: seq<Entry>, i: nat, date: DateParser)
    requires i < |t|
  {
    && s.seqNo == t[i].seqNo && s.stepName == t[i].stepName && s.kind == t[i].kind && s.output == t[i].output
    && s.sideEffect == t[i].sideEffect && s.idemKey == t[i].idemKey && s.recordedAt == t[i].recordedAt
    && s.seededFrom == t[i].seededFrom && (s.seeded <==> t[i].seededFrom != None)
    && if i == 0 then s.elapsedFromPrev.None?
       else Between(date, t[i - 1].recordedAt, t[i].recordedAt, s.elapsedFromPrev)
  }

  /** What a replayed effect tells of its row; a payload that is not JSON stays the text it is. */
  predicate Tells(e: ReplayEffect, row: EffectRow)
  {
    && e.id == row.id && e.stepName == row.stepName && e.idemKey == row.idemKey && e.firedAt == row.firedAt
    && e.payload == if Parse(row.payload).Some? then Parse(row.payload).value else JStr(row.payload)
  }

  /** A reconstruction is the journal's: its steps are the entries of the trajectory field by field, each with
      the run's effects of that step name; its effects are the run's rows; its label, outcome and times are
      the metadata's, the last entry's and the recordings'. */
  lemma ReconstructExactly(src: JournalSource, date: DateParser, r: RunId)
    ensures var t, rows, run := src.trajectory(r), src.effectsFor(r), Reconstruct(src, date, r);
      && run.runId == r && run.meta == src.runMeta(r)
      && run.trajectory == (if src.runMeta(r).Some? then src.runMeta(r).value.trajectory else "main")
      && |run.steps| == |t| && (forall i | 0 <= i < |t| :: Shows(run.steps[i], t, i, date))
      && |run.effects| == |rows| && (forall i | 0 <= i < |rows| :: Tells(run.effects[i], rows[i]))
      && (forall i | 0 <= i < |t| ::
            run.steps[i].effects == Filter(run.effects, (e: ReplayEffect) => e.stepName == t[i].stepName))
      && run.outcome == (if |t| == 0 then JNull else t[|t| - 1].output)
      && run.totalElapsed == TimeSpan(date, t)
  {
    hide Parse, DivergencePoints, Filter, StepView, EffectView, TimeSpan, TotalElapsed, Shows, Tells;
    var t, rows, run := src.trajectory(r), src.effectsFor(r), Reconstruct(src, date, r);
    forall i | 0 <= i < |t|
      ensures Shows(run.steps[i], t, i, date)
      ensures run.steps[i].effects == Filter(run.effects, (e: ReplayEffect) => e.stepName == t[i].stepName)
    {
      StepShows(date, t, i, run.effects);
    }
    forall i | 0 <= i < |rows| ensures Tells(run.effects[i], rows[i]) { RowTells(rows[i]); }
    SpanTotal(date, t);
  }

  /** From the first recording to the last, where both are dates. */
  function TimeSpan(date: DateParser, t: seq<Entry>): int
  {
    if |t| >= 2 && date(t[0].recordedAt).Some? && date(t[|t| - 1].recordedAt).Some?
    then date(t[|t| - 1].recordedAt).value - date(t[0].recordedAt).value
    else 0
  }

  lemma SpanTotal(date: DateParser, t: seq<Entry>)
    ensures TotalElapsed(date, t) == TimeSpan(date, t)
  {
  }

  lemma RowTells(row: EffectRow)
    ensures Tells(EffectView(row), row)
  {
    hide Parse;
  }

  lemma StepShows(date: DateParser, t: seq<Entry>, i: nat, effects: seq<ReplayEffect>)
    requires i < |t|
    ensures Shows(StepView(date, t, i, effects), t, i, date)
    ensures StepView(date, t, i, effects).effects ==
      Filter(effects, (e: ReplayEffect) => e.stepName == t[i].stepName)
  {
    hide Filter;
    SameFilter(effects, t[i].stepName);
  }

  lemma SameFilter(effects: seq<ReplayEffect>, name: string)
    ensures EffectsAtStep(effects, name) == Filter(effects, (e: ReplayEffect) => e.stepName == name)
  {
  }

  // ---- Time travel ----

  datatype StateAsOf = StateAsOf(
    runId: RunId, n: nat, maxSeq: nat, steps: seq<ReplayStep>, currentOutput: Json, effects: seq<ReplayEffect>,
    divergedSoFar: seq<DivergencePoint>)

  function MaxSeq(steps: seq<ReplayStep>): nat { if |steps| > 0 then steps[|steps| - 1].seqNo else 0 }

  function StepsThrough(steps: seq<ReplayStep>, n: nat): seq<ReplayStep>
  {
    Filter(steps, (s: ReplayStep) => s.seqNo <= n)
  }

  predicate NamesStep(steps: seq<ReplayStep>, name: string)
  {
    exists s | s in steps :: s.stepName == name
  }

  /** find(s => s.seq === n)?.output ?? null */
  function OutputOf(steps: seq<ReplayStep>, n: nat): Json
  {
    if |steps| == 0 then JNull else if steps[0].seqNo == n then steps[0].output else OutputOf(steps[1..], n)
  }

  function StateAt(src: JournalSource, date: DateParser, r: RunId, n: int): Result<StateAsOf>
  {
    var full := Reconstruct(src, date, r);
    if n < 1 || n > MaxSeq(full.steps) then Err(StepOutOfRange)
    else
      var steps := StepsThrough(full.steps, n);
      Ok(StateAsOf(r, n, MaxSeq(full.steps), steps, OutputOf(steps, n),
                   Filter(full.effects, (e: ReplayEffect) => NamesStep(steps, e.stepName)),
                   Filter(full.divergencePoints, (d: DivergencePoint) => d.seqNo <= n)))
  }

  /** Time travel is refused exactly outside 1 through the last step. */
  lemma RefusedExactly(src: JournalSource, date: DateParser, r: RunId, n: int)
    ensures var t := src.trajectory(r);
      && (StateAt(src, date, r, n).Err? <==> n < 1 || |t| == 0 || n > t[|t| - 1].seqNo)
      && (StateAt(src, date, r, n).Ok? ==> |t| > 0 && StateAt(src, date, r, n).value.maxSeq == t[|t| - 1].seqNo)
  {
    LastStep(src, date, r);
    hide Reconstruct, Filter, OutputOf, NamesStep, MaxSeq;
  }

  lemma LastStep(src: JournalSource, date: DateParser, r: RunId)
    ensures var t := src.trajectory(r);
      MaxSeq(Reconstruct(src, date, r).steps) == if |t| > 0 then t[|t| - 1].seqNo else 0
  {
    hide EffectViews, DivergencePoints, TotalElapsed, LastOutput, Filter, Elapsed;
    var t := src.trajectory(r);
    if |t| > 0 { assert StepView(date, t, |t| - 1, EffectViews(src.effectsFor(r))).seqNo == t[|t| - 1].seqNo; }
  }

  /** Otherwise it shows the steps with seq up to n, the output of step n, the effects of those steps by name,
      and the forks that had branched off by then. */
  lemma StateAtExactly(src: JournalSource, date: DateParser, r: RunId, n: int)
    requires StateAt(src, date, r, n).Ok?
    ensures var run, back := Reconstruct(src, date, r), StateAt(src, date, r, n).value;
      && back.runId == r && back.n == n
      && (forall s :: s in back.steps <==> s in run.steps && s.seqNo <= n)
      && IsOutputOf(run.steps, n, back.currentOutput)
      && (forall e :: e in back.effects <==> e in run.effects && NamesStep(back.steps, e.stepName))
      && (forall d :: d in back.divergedSoFar <==> ForkedAt(src.childRuns(r), d) && d.seqNo <= n)
      && NoDescent(back.divergedSoFar, PointBefore)
  {
    hide Points, StableSort, Filter, ForkedAt, NamesStep, MaxSeq, OutputOf, PointBefore, NoDescent;
    var run, back := Reconstruct(src, date, r), StateAt(src, date, r, n).value;
    SamePoints(src, date, r);
    hide Reconstruct, DivergencePoints;
    FilterMembers(run.steps, (s: ReplayStep) => s.seqNo <= n);
    FilterMembers(run.effects, (e: ReplayEffect) => NamesStep(back.steps, e.stepName));
    FilterMembers(run.divergencePoints, (d: DivergencePoint) => d.seqNo <= n);
    DivergencePointsExact(src, r);
    FilterNoDescent(run.divergencePoints, (d: DivergencePoint) => d.seqNo <= n, PointBefore);
    OutputOfExact(back.steps, n);
  }

  /** The output of some step with seq n, or null when there is none. */
  ghost predicate IsOutputOf(steps: seq<ReplayStep>, n: nat, output: Json)
  {
    if exists s | s in steps :: s.seqNo == n then exists s | s in steps :: s.seqNo == n && s.output == output
    else output == JNull
  }

  lemma {:induction false} OutputOfExact(steps: seq<ReplayStep>, n: nat)
    ensures IsOutputOf(steps, n, OutputOf(steps, n))
  {
    if |steps| > 0 {
      OutputOfExact(steps[1..], n);
      assert steps == [steps[0]] + steps[1..];
    }
  }

  lemma SamePoints(src: JournalSource, date: DateParser, r: RunId)
    ensures Reconstruct(src, date, r).divergencePoints == DivergencePoints(src, r)
  {
    hide DivergencePoints, EffectViews, StepViews;
  }
}
