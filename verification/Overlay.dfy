/** Queued offline decisions shown as recorded input steps, without touching the journal. */
module Overlay {
  import opened Idempotency
  import opened Import
  import opened Journal
  import opened Json
  import opened Ordering
  import opened StepModel
  import opened Workflow
  import opened Wrappers

  /** A row of pending_hitl. */
  datatype Pending = Pending(decision: string, createdAt: string, flushedAt: Option<string>)

  const INPUT_STEP := "hitl-input"

  predicate HasKind(t: seq<Entry>, kind: string) { exists e | e in t :: e.kind == kind }

  /** The seq of the first pause. */
  function PauseSeq(t: seq<Entry>): nat
    requires HasKind(t, HITL_PAUSE)
  {
    if t[0].kind == HITL_PAUSE then t[0].seqNo else PauseSeq(t[1..])
  }

  function Synthetic(t: seq<Entry>, queued: Pending, key: string): Entry
    requires HasKind(t, HITL_PAUSE)
  {
    Entry(t[0].runId, PauseSeq(t) + 1, INPUT_STEP, HITL_INPUT, key, JStr(queued.decision), false, None,
      queued.createdAt)
  }

  /** Nothing is added unless a decision is queued for a run that is paused. */
  predicate Extends(t: seq<Entry>, queued: Option<Pending>)
  {
    queued.Some? && !HasKind(t, HITL_INPUT) && HasKind(t, HITL_PAUSE)
  }

  /** A run id that is not fit for a key makes the overlay throw. */
  function OverlayTrajectory(t: seq<Entry>, queued: Option<Pending>): Result<seq<Entry>>
  {
    if !Extends(t, queued) then Ok(t)
    else match DeriveKey(t[0].runId, INPUT_STEP)
      case Err(e) => Err(e)
      case Ok(key) => Ok(StableSort(t + [Synthetic(t, queued.value, key)], SeqBefore))
  }

  lemma SeqStrict()
    ensures Strict(SeqBefore)
  {
  }

  lemma InMultiset(s: seq<Entry>, t: seq<Entry>, e: Entry)
    requires multiset(s) == multiset(t)
    ensures e in s <==> e in t
  {
    assert e in s <==> e in multiset(s);
    assert e in t <==> e in multiset(t);
  }

  /** The overlay adds one entry at most, an input step right after the pause, and the result is in order. */
  lemma OverlayAdds(t: seq<Entry>, queued: Option<Pending>)
    requires OverlayTrajectory(t, queued).Ok? && Extends(t, queued)
    ensures var o := OverlayTrajectory(t, queued).value;
      && NoDescent(o, SeqBefore)
      && exists e: Entry ::
           && e.kind == HITL_INPUT && e.seqNo == PauseSeq(t) + 1 && e.output == JStr(queued.value.decision)
           && multiset(o) == multiset(t) + multiset{e}
  {
    hide StableSort;
    var e := Synthetic(t, queued.value, DeriveKey(t[0].runId, INPUT_STEP).value);
    SeqStrict();
    StableSortOrdered(t + [e], SeqBefore);
    StableSortElements(t + [e], SeqBefore);
    assert multiset(t + [e]) == multiset(t) + multiset{e};
  }

  lemma KindAfter(t: seq<Entry>, queued: Option<Pending>, kind: string)
    requires OverlayTrajectory(t, queued).Ok? && Extends(t, queued)
    ensures HasKind(OverlayTrajectory(t, queued).value, kind) <==> kind == HITL_INPUT || HasKind(t, kind)
  {
    hide StableSort;
    var e := Synthetic(t, queued.value, DeriveKey(t[0].runId, INPUT_STEP).value);
    var o := OverlayTrajectory(t, queued).value;
    StableSortElements(t + [e], SeqBefore);
    forall x ensures x in o <==> x in t || x == e { InMultiset(o, t + [e], x); }
    if HasKind(o, kind) { var x :| x in o && x.kind == kind; }
  }

  /** Overlaying again changes nothing, and once a decision shows no other can replace it. */
  lemma OverlayIdempotent(t: seq<Entry>, queued: Option<Pending>, again: Option<Pending>)
    requires OverlayTrajectory(t, queued).Ok? && (again == queued || Extends(t, queued))
    ensures var o := OverlayTrajectory(t, queued).value; OverlayTrajectory(o, again) == Ok(o)
  {
    hide StableSort;
    if Extends(t, queued) { KindAfter(t, queued, HITL_INPUT); }
  }

  /** A queued decision makes a paused run read as resumed, and changes no other state. */
  lemma OverlayState(t: seq<Entry>, queued: Option<Pending>)
    requires OverlayTrajectory(t, queued).Ok?
    ensures HitlStateOf(OverlayTrajectory(t, queued).value)
      == if queued.Some? && HitlStateOf(t) == Paused then Resumed else HitlStateOf(t)
  {
    hide StableSort, OverlayTrajectory;
    StateOfKinds(t);
    if Extends(t, queued) {
      KindAfter(t, queued, HITL_INPUT);
      KindAfter(t, queued, HITL_PAUSE);
      StateOfKinds(OverlayTrajectory(t, queued).value);
    } else {
      Unextended(t, queued);
    }
  }

  lemma Unextended(t: seq<Entry>, queued: Option<Pending>)
    requires !Extends(t, queued)
    ensures OverlayTrajectory(t, queued) == Ok(t)
  {
  }

  lemma StateOfKinds(t: seq<Entry>)
    ensures HitlStateOf(t) == if !HasKind(t, HITL_PAUSE) then NoPause
      else if HasKind(t, HITL_INPUT) then Resumed else Paused
  {
  }

  /** Over a run that follows the human-in-the-loop table and stands at its pause, the overlay shows
      exactly the entry the input step would journal for the same decision at the same time. */
  lemma OverlayIsNative(t: seq<Entry>, queued: Pending, r: RunId)
    requires |t| == 2 && IsSafe(r)
      && forall i | 0 <= i < 2 :: t[i].runId == r && t[i].seqNo == i + 1 && t[i].kind == Spec(Hitl, i + 1).kind
    ensures OverlayTrajectory(t, Some(queued))
      == Ok(t + [NativeEntry(ArgsOf(Hitl, 3, r), r + ":" + Spec(Hitl, 3).name, JStr(queued.decision),
        queued.createdAt)])
  {
    StepNameSafe(Hitl, 3);
    assert t == [t[0], t[1]];
    assert HasKind(t, HITL_PAUSE) && !HasKind(t, HITL_INPUT) by { assert t[1] in t; }
    assert PauseSeq(t) == 2 by { assert t[1..] == [t[1]]; }
    DeriveSafe(r, INPUT_STEP);
    var all := t + [Synthetic(t, queued, r + ":" + INPUT_STEP)];
    hide StableSort;
    assert NoDescent(all, SeqBefore);
    StableSortSorted(all, SeqBefore);
  }
}
