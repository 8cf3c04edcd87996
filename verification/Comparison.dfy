/** Comparing two reconstructions of a run. */
module Comparison {
  import opened EffectText
  import opened Json
  import opened Ordering
  import opened Replay
  import opened Source
  import opened StepModel
  import opened Text
  import opened Wrappers

  /** What a comparison looks at in a step. */
  predicate SameReplayStep(a: ReplayStep, b: ReplayStep)
  {
    a.seqNo == b.seqNo && a.stepName == b.stepName && a.kind == b.kind && a.output == b.output && a.idemKey == b.idemKey
  }

  /** The same steps, and the same effects whatever their ids and order. */
  ghost predicate Matches(a: ReplayedRun, b: ReplayedRun)
  {
    && |a.steps| == |b.steps|
    && (forall i | 0 <= i < |a.steps| :: SameReplayStep(a.steps[i], b.steps[i]))
    && multiset(Fired(a.effects)) == multiset(Fired(b.effects))
  }

  datatype Difference =
    | StepCountDiffers
    | OnOneSideOnly(i: nat)
    | SeqMismatch(i: nat)
    | NameMismatch(i: nat)
    | KindMismatch(i: nat)
    | OutputMismatch(i: nat)
    | KeyMismatch(i: nat)
    | EffectsDiffer

  /** The differences there are between two reconstructions. */
  ghost predicate IsDifference(a: ReplayedRun, b: ReplayedRun, d: Difference)
  {
    match d
    case StepCountDiffers => |a.steps| != |b.steps|
    case OnOneSideOnly(i) => (i < |a.steps|) != (i < |b.steps|)
    case SeqMismatch(i) => i < |a.steps| && i < |b.steps| && a.steps[i].seqNo != b.steps[i].seqNo
    case NameMismatch(i) => i < |a.steps| && i < |b.steps| && a.steps[i].stepName != b.steps[i].stepName
    case KindMismatch(i) => i < |a.steps| && i < |b.steps| && a.steps[i].kind != b.steps[i].kind
    case OutputMismatch(i) => i < |a.steps| && i < |b.steps| && a.steps[i].output != b.steps[i].output
    case KeyMismatch(i) => i < |a.steps| && i < |b.steps| && a.steps[i].idemKey != b.steps[i].idemKey
    case EffectsDiffer => multiset(Fired(a.effects)) != multiset(Fired(b.effects))
  }

  /** The index a difference was reported at; the effects come after every step. */
  predicate ReportedBefore(d: Difference, n: nat)
  {
    match d
    case StepCountDiffers => true
    case EffectsDiffer => false
    case _ => d.i < n
  }

  function StepDifferences(x: ReplayStep, y: ReplayStep, i: nat): seq<Difference>
  {
    (if x.seqNo != y.seqNo then [SeqMismatch(i)] else [])
    + (if x.stepName != y.stepName then [NameMismatch(i)] else [])
    + (if x.kind != y.kind then [KindMismatch(i)] else [])
    + (if Print(x.output) != Print(y.output) then [OutputMismatch(i)] else [])
    + (if x.idemKey != y.idemKey then [KeyMismatch(i)] else [])
  }

  lemma StepDifferencesExact(a: ReplayedRun, b: ReplayedRun, i: nat)
    requires i < |a.steps| && i < |b.steps|
    ensures forall d ::
      (d in StepDifferences(a.steps[i], b.steps[i], i)) <==>
        IsDifference(a, b, d) && ReportedBefore(d, i + 1) && !ReportedBefore(d, i)
  {
    if Print(a.steps[i].output) == Print(b.steps[i].output) { PrintInjective(a.steps[i].output, b.steps[i].output); }
    hide Print;
  }

  lemma NoDifference(a: ReplayedRun, b: ReplayedRun)
    ensures Matches(a, b) <==> forall d :: !IsDifference(a, b, d)
  {
    if forall d :: !IsDifference(a, b, d) {
      assert !IsDifference(a, b, StepCountDiffers) && !IsDifference(a, b, EffectsDiffer);
      forall i | 0 <= i < |a.steps| ensures SameReplayStep(a.steps[i], b.steps[i]) {
        assert !IsDifference(a, b, SeqMismatch(i)) && !IsDifference(a, b, NameMismatch(i))
          && !IsDifference(a, b, KindMismatch(i));
        assert !IsDifference(a, b, OutputMismatch(i)) && !IsDifference(a, b, KeyMismatch(i));
      }
    }
  }

  /** Sound and complete: every difference there is is reported, nothing else is, and the two are
      called identical exactly when they match. */
  method AssertReplayMatches(a: ReplayedRun, b: ReplayedRun) returns (identical: bool, differences: seq<Difference>)
    ensures forall d :: d in differences <==> IsDifference(a, b, d)
    ensures identical <==> Matches(a, b)
  {
    hide Matches, StepDifferences, SortedText, Fired;
    differences := if |a.steps| != |b.steps| then [StepCountDiffers] else [];
    var n := if |a.steps| < |b.steps| then |b.steps| else |a.steps|;
    for i := 0 to n
      invariant forall d :: d in differences <==> IsDifference(a, b, d) && ReportedBefore(d, i)
    {
      if i >= |a.steps| || i >= |b.steps| {
        differences := differences + [OnOneSideOnly(i)];
      } else {
        StepDifferencesExact(a, b, i);
        differences := differences + StepDifferences(a.steps[i], b.steps[i], i);
      }
    }
    SortedTextDecides(a.effects, b.effects);
    if SortedText(a.effects) != SortedText(b.effects) { differences := differences + [EffectsDiffer]; }
    NoDifference(a, b);
    identical := |differences| == 0;
    if |differences| > 0 { assert differences[0] in differences; }
  }
}
