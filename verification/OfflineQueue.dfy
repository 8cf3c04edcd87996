/** The queue of human decisions taken against an import, the handler in front of it, and its flush. */
module OfflineQueue {
  import opened Idempotency
  import opened Ordering
  import opened Overlay
  import opened StepModel
  import opened Text
  import opened Workflow
  import opened Wrappers

  // ---- Validation ----

  predicate IsIdStart(c: char) { 'a' <= c <= 'z' || 'A' <= c <= 'Z' || '0' <= c <= '9' }

  predicate IsIdChar(c: char) { IsIdStart(c) || c in {'.', '_', '-'} }

  /** A trimmed run id: a safe file-like name of 1 to 128 characters without "..". */
  predicate ValidRunId(t: string)
  {
    && 1 <= |t| <= 128 && IsIdStart(t[0]) && (forall i | 0 <= i < |t| :: IsIdChar(t[i]))
    && forall i | 0 <= i < |t| - 1 :: !(t[i] == '.' && t[i + 1] == '.')
  }

  predicate IsControl(c: char) { c < ' ' && c != '\t' && c != '\n' && c != '\r' }

  predicate ValidDecision(t: string) { 1 <= |t| <= 8192 && forall i | 0 <= i < |t| :: !IsControl(t[i]) }

  /** A valid run id is a colon-free component of a key, of 128 characters at most, that starts with a letter
      or a digit and has no two dots in a row. */
  lemma ValidRunIdExactly(t: string)
    ensures ValidRunId(t) <==>
      && IsSafe(t) && ColonFree(t) && |t| <= 128 && t[0] !in {'.', '_', '-'}
      && forall i, j | 0 <= i < j < |t| && j == i + 1 :: t[i] != '.' || t[j] != '.'
  {
    if ValidRunId(t) {
      forall i | 0 <= i < |t| ensures IsSafeChar(t[i]) && t[i] != ':' { assert IsIdChar(t[i]); }
    }
    if IsSafe(t) && ColonFree(t) {
      forall i | 0 <= i < |t| ensures IsIdChar(t[i]) { assert IsSafeChar(t[i]) && t[i] != ':'; }
    }
  }

  /** A valid decision has 1 to 8192 characters, none of them one of these control characters. */
  lemma ValidDecisionExactly(t: string)
    ensures ValidDecision(t) <==> 1 <= |t| <= 8192 && forall c | c in t ::
      !('\U{0000}' <= c <= '\U{0008}' || c == '\U{000B}' || c == '\U{000C}' || '\U{000E}' <= c <= '\U{001F}')
  {
    if ValidDecision(t) {
      forall c | c in t ensures !IsControl(c) { var i :| 0 <= i < |t| && t[i] == c; }
    }
    if !ValidDecision(t) && 1 <= |t| <= 8192 {
      var i :| 0 <= i < |t| && IsControl(t[i]);
      assert t[i] in t;
    }
  }

  lemma {:induction false} TrimEndShape(s: string)
    ensures var t := TrimEnd(s); t <= s && (|t| > 0 ==> !IsSpace(t[|t| - 1]))
  {
    if |s| > 0 && IsSpace(s[|s| - 1]) { TrimEndShape(s[..|s| - 1]); }
  }

  lemma {:induction false} TrimStartShape(s: string)
    ensures var t := TrimStart(s); |t| > 0 ==> !IsSpace(t[0])
  {
    if |s| > 0 && IsSpace(s[0]) { TrimStartShape(s[1..]); }
  }

  lemma TrimTwice(s: string)
    ensures Trim(Trim(s)) == Trim(s)
  {
    TrimStartShape(s);
    TrimEndShape(TrimStart(s));
  }

  // ---- The queue ----

  /** The primary key of a row: which import, which run. */
  datatype Slot = Slot(origin: string, runId: RunId)

  type Rows = map<Slot, Pending>

  /** Enqueue is an upsert: the last decision wins, and a flushed row becomes pending again. */
  function Enqueue(rows: Rows, origin: string, runId: RunId, decision: string, now: string): Option<Rows>
  {
    if !ValidRunId(Trim(runId)) || !ValidDecision(Trim(decision)) then None
    else Some(rows[Slot(origin, Trim(runId)) := Pending(Trim(decision), now, None)])
  }

  /** The row an overlay finds for a run: looked up by the id as given, flushed or not. */
  function QueuedFor(rows: Rows, origin: string, r: RunId): Option<Pending>
  {
    if Slot(origin, r) in rows then Some(rows[Slot(origin, r)]) else None
  }

  // ---- The handler, for an import ----

  datatype Submission = Submission(runId: RunId, decision: string, now: string, allowed: bool)

  datatype Response = BadRequest | TooManyRequests | ServerError | NoPauseHere | AlreadyRecorded | Accepted

  predicate Wellformed(q: Submission) { q.allowed && ValidRunId(Trim(q.runId)) && ValidDecision(Trim(q.decision)) }

  /** `journal` is the imported trajectory of each run, without the overlay. */
  function Respond(rows: Rows, journal: RunId -> seq<Entry>, origin: string, q: Submission): Response
  {
    if !ValidRunId(Trim(q.runId)) || !ValidDecision(Trim(q.decision)) then BadRequest
    else if !q.allowed then TooManyRequests
    else match OverlayTrajectory(journal(q.runId), QueuedFor(rows, origin, q.runId))
      case Err(_) => ServerError
      case Ok(t) =>
        match HitlStateOf(t)
        case NoPause => NoPauseHere
        case Resumed => AlreadyRecorded
        case Paused => Accepted
  }

  lemma DecisionTrimmed(q: Submission)
    ensures Trim(Trim(q.decision)) == Trim(q.decision)
  {
    TrimTwice(q.decision);
  }

  function Submit(rows: Rows, journal: RunId -> seq<Entry>, origin: string, q: Submission): Rows
  {
    DecisionTrimmed(q);
    if Respond(rows, journal, origin, q) == Accepted
      then Enqueue(rows, origin, q.runId, Trim(q.decision), q.now).value else rows
  }

  function SubmitAll(rows: Rows, journal: RunId -> seq<Entry>, origin: string, qs: seq<Submission>): Rows
    decreases |qs|
  {
    if |qs| == 0 then rows
    else SubmitAll(Submit(rows, journal, origin, qs[0]), journal, origin, qs[1..])
  }

  /** Row ids are trimmed. */
  ghost predicate TrimmedIds(rows: Rows) { forall k | k in rows :: Trim(k.runId) == k.runId }

  /** Another id of the import that trims to r and stands at a pause. */
  ghost predicate PausedTwin(journal: RunId -> seq<Entry>, r: RunId, twin: RunId)
  {
    twin != r && Trim(twin) == r && HitlStateOf(journal(twin)) == Paused
  }

  /** What is accepted: a decision for a paused run with no queued row under the id as given. */
  lemma AcceptedMeans(rows: Rows, journal: RunId -> seq<Entry>, origin: string, q: Submission)
    ensures Respond(rows, journal, origin, q) == Accepted
      ==> Slot(origin, q.runId) !in rows && HitlStateOf(journal(q.runId)) == Paused
    ensures Slot(origin, q.runId) !in rows && HitlStateOf(journal(q.runId)) == Paused && Wellformed(q)
      ==> Respond(rows, journal, origin, q) == Accepted
  {
    hide OverlayTrajectory, HitlStateOf, ValidRunId, ValidDecision, Trim;
    var queued := QueuedFor(rows, origin, q.runId);
    if OverlayTrajectory(journal(q.runId), queued).Ok? { OverlayState(journal(q.runId), queued); }
    if queued.None? { NoOverlay(journal(q.runId)); }
  }

  /** Every answer of the handler: a malformed submission, one too many, a run without a pause, one that has
      its decision in the import or in the queue, and a paused one. */
  lemma RespondExactly(rows: Rows, journal: RunId -> seq<Entry>, origin: string, q: Submission)
    ensures var response := Respond(rows, journal, origin, q);
      var state := HitlStateOf(journal(q.runId));
      var queued := Slot(origin, q.runId) in rows;
      && (response == BadRequest <==> !ValidRunId(Trim(q.runId)) || !ValidDecision(Trim(q.decision)))
      && (response == TooManyRequests <==> response != BadRequest && !q.allowed)
      && (Wellformed(q) && state == NoPause ==> response == NoPauseHere)
      && (Wellformed(q) && state == Resumed ==> response == AlreadyRecorded)
      && (Wellformed(q) && state == Paused && !queued ==> response == Accepted)
      && (Wellformed(q) && state == Paused && queued ==>
            response == if IsSafe(journal(q.runId)[0].runId) then AlreadyRecorded else ServerError)
  {
    hide ValidRunId, ValidDecision, Trim, HitlStateOf;
    var t, queued := journal(q.runId), QueuedFor(rows, origin, q.runId);
    StateOfKinds(t);
    assert KeyName(INPUT_STEP) by { HitlNamesSafe(); }
    if OverlayTrajectory(t, queued).Ok? { OverlayState(t, queued); }
    if queued.None? { NoOverlay(t); }
    hide StableSort, KeyName;
    if HitlStateOf(t) != Paused { Unextended(t, queued); }
  }

  lemma NoOverlay(t: seq<Entry>)
    ensures OverlayTrajectory(t, None) == Ok(t)
  {
  }

  lemma SubmitEffect(rows: Rows, journal: RunId -> seq<Entry>, origin: string, q: Submission)
    ensures Submit(rows, journal, origin, q)
      == if Respond(rows, journal, origin, q) == Accepted
        then rows[Slot(origin, Trim(q.runId)) := Pending(Trim(q.decision), q.now, None)] else rows
  {
    hide OverlayTrajectory, HitlStateOf, Trim;
    DecisionTrimmed(q);
  }

  /** While no twin of r stands at a pause, a row once queued for r is never overwritten. */
  lemma {:induction false} FirstDecisionKept(rows: Rows, journal: RunId -> seq<Entry>, origin: string, r: RunId,
                                             qs: seq<Submission>)
    requires Slot(origin, r) in rows && forall twin :: !PausedTwin(journal, r, twin)
    ensures Keeps(rows, journal, origin, r, qs)
    decreases |qs|
  {
    hide Submit, Respond, Trim, HitlStateOf;
    if |qs| > 0 {
      AcceptedMeans(rows, journal, origin, qs[0]);
      SubmitEffect(rows, journal, origin, qs[0]);
      assert !PausedTwin(journal, r, qs[0].runId);
      FirstDecisionKept(Submit(rows, journal, origin, qs[0]), journal, origin, r, qs[1..]);
    }
  }

  /** The decision of the first accepted submission for r. */
  function FirstAccepted(rows: Rows, journal: RunId -> seq<Entry>, origin: string, r: RunId,
                         qs: seq<Submission>): Option<string>
    decreases |qs|
  {
    if |qs| == 0 then None
    else if Respond(rows, journal, origin, qs[0]) == Accepted && Trim(qs[0].runId) == r then Some(Trim(qs[0].decision))
    else FirstAccepted(Submit(rows, journal, origin, qs[0]), journal, origin, r, qs[1..])
  }

  /** First decision wins: whatever is submitted, in whatever order, the queue ends up with the first
      accepted decision for the run. */
  lemma {:induction false} FirstDecisionWins(rows: Rows, journal: RunId -> seq<Entry>, origin: string, r: RunId,
                                             qs: seq<Submission>)
    requires Slot(origin, r) !in rows && forall twin :: !PausedTwin(journal, r, twin)
    ensures var first, after := FirstAccepted(rows, journal, origin, r, qs), SubmitAll(rows, journal, origin, qs);
      && (Slot(origin, r) in after <==> first.Some?)
      && (first.Some? ==> after[Slot(origin, r)].decision == first.value)
    decreases |qs|
  {
    hide Submit, Respond, Trim, HitlStateOf;
    if |qs| > 0 {
      SubmitEffect(rows, journal, origin, qs[0]);
      var rows' := Submit(rows, journal, origin, qs[0]);
      if Respond(rows, journal, origin, qs[0]) == Accepted && Trim(qs[0].runId) == r {
        FirstDecisionKept(rows', journal, origin, r, qs[1..]);
      } else {
        FirstDecisionWins(rows', journal, origin, r, qs[1..]);
      }
    }
  }

  /** The row for r survives these submissions. */
  predicate Keeps(rows: Rows, journal: RunId -> seq<Entry>, origin: string, r: RunId, qs: seq<Submission>)
    requires Slot(origin, r) in rows
  {
    var after := SubmitAll(rows, journal, origin, qs);
    Slot(origin, r) in after && after[Slot(origin, r)] == rows[Slot(origin, r)]
  }

  /** The row for r survives every sequence of submissions. */
  ghost predicate NeverOverwritten(rows: Rows, journal: RunId -> seq<Entry>, origin: string, r: RunId)
    requires Slot(origin, r) in rows
  {
    forall qs :: Keeps(rows, journal, origin, r, qs)
  }

  /** The handler checks the state of the id as given but queues under the trimmed id. So the first
      decision is final exactly when the import has no paused run whose id is r with white space around it. */
  lemma FirstDecisionFinalExactly(rows: Rows, journal: RunId -> seq<Entry>, origin: string, r: RunId)
    requires Slot(origin, r) in rows && TrimmedIds(rows) && ValidRunId(r)
    ensures NeverOverwritten(rows, journal, origin, r) <==> forall twin :: !PausedTwin(journal, r, twin)
  {
    hide SubmitAll, HitlStateOf, Trim, ValidRunId;
    if forall twin :: !PausedTwin(journal, r, twin) {
      forall qs ensures Keeps(rows, journal, origin, r, qs) { FirstDecisionKept(rows, journal, origin, r, qs); }
    } else {
      var twin :| PausedTwin(journal, r, twin);
      var qs := TwinOverwrites(rows, journal, origin, r, twin);
    }
  }

  lemma TwinOverwrites(rows: Rows, journal: RunId -> seq<Entry>, origin: string, r: RunId,
                       twin: RunId) returns (qs: seq<Submission>)
    requires Slot(origin, r) in rows && TrimmedIds(rows) && ValidRunId(r) && PausedTwin(journal, r, twin)
    ensures Slot(origin, r) in SubmitAll(rows, journal, origin, qs) && !Keeps(rows, journal, origin, r, qs)
  {
    hide Submit, Respond, HitlStateOf, Trim, ValidRunId, ValidDecision;
    var decision := if rows[Slot(origin, r)].decision == "a" then "b" else "a";
    OneLetter(decision);
    var q := Submission(twin, decision, "", true);
    assert Slot(origin, twin) !in rows;
    AcceptedMeans(rows, journal, origin, q);
    SubmitEffect(rows, journal, origin, q);
    qs := [q];
    assert qs[1..] == [];
  }

  lemma OneLetter(decision: string)
    requires decision == "a" || decision == "b"
    ensures Trim(decision) == decision && ValidDecision(decision)
  {
  }

  // ---- Flushing ----

  /** What becomes of a delivery: it arrives and is answered, it arrives and the answer is lost, or it
      never arrives. */
  datatype Fate = Answered | AnswerLost | NotDelivered

  /** The substrate's resolve-once promises. */
  class Substrate {
    var promise: map<RunId, string>

    constructor ()
      ensures promise == map[]
    {
      promise := map[];
    }

    /** provideInput: the first value stays; a lost answer looks like a failure. */
    method ProvideInput(r: RunId, decision: string, fate: Fate) returns (ok: bool)
      modifies this
      ensures ok <==> fate == Answered
      ensures promise == if fate == NotDelivered || r in old(promise) then old(promise) else old(promise)[r := decision]
    {
      if fate != NotDelivered && r !in promise { promise := promise[r := decision]; }
      ok := fate == Answered;
    }
  }

  function PendingKeys(rows: Rows): set<Slot> { set k | k in rows && rows[k].flushedAt.None? }

  function Marked(p: Pending, now: string): Pending { p.(flushedAt := Some(now)) }

  /** What a flush does with a row; `paused` is what the journal says when the row's turn comes. */
  predicate Skipped(paused: Slot -> bool, k: Slot) { !paused(k) }

  predicate Delivered(paused: Slot -> bool, fate: Slot -> Fate, k: Slot) { paused(k) && fate(k) == Answered }

  predicate Arrives(paused: Slot -> bool, fate: Slot -> Fate, k: Slot) { paused(k) && fate(k) != NotDelivered }

  /** The stores after some rows were handled: only delivered rows are marked, resolved promises keep
      their value, and a promise resolved meanwhile holds a decision queued for its run. */
  ghost predicate Progress(rows0: Rows, promise0: map<RunId, string>, rows: Rows, promise: map<RunId, string>,
                           handled: set<Slot>, paused: Slot -> bool, fate: Slot -> Fate, now: string)
  {
    && rows.Keys == rows0.Keys
    && (forall k | k in rows ::
       rows[k] == if k in handled && Delivered(paused, fate, k) then Marked(rows0[k], now) else rows0[k])
    && (forall r | r in promise0 :: r in promise && promise[r] == promise0[r])
    && (forall r | r in promise && r !in promise0 ::
          exists k :: k in handled && k in rows0 && k.runId == r && Arrives(paused, fate, k)
            && promise[r] == rows0[k].decision)
    && (forall k | k in handled && Arrives(paused, fate, k) :: k.runId in promise)
  }

  /** Of the pending rows exactly those not delivered are pending still; a delivered row says when, and no row
      changes its decision or its date. */
  ghost predicate LeftPending(rows0: Rows, rows: Rows, paused: Slot -> bool, fate: Slot -> Fate, now: string)
  {
    && rows.Keys == rows0.Keys
    && forall k | k in rows ::
         && (rows[k].flushedAt.None? <==> rows0[k].flushedAt.None? && !(paused(k) && fate(k) == Answered))
         && rows[k].decision == rows0[k].decision && rows[k].createdAt == rows0[k].createdAt
         && (rows[k].flushedAt == rows0[k].flushedAt || rows[k].flushedAt == Some(now))
  }

  lemma PendingLeft(rows0: Rows, promise0: map<RunId, string>, rows: Rows, promise: map<RunId, string>,
                    paused: Slot -> bool, fate: Slot -> Fate, now: string)
    requires Progress(rows0, promise0, rows, promise, PendingKeys(rows0), paused, fate, now)
    ensures LeftPending(rows0, rows, paused, fate, now)
  {
  }

  lemma ProgressNext(rows0: Rows, promise0: map<RunId, string>, rows: Rows, promise: map<RunId, string>,
                     handled: set<Slot>, paused: Slot -> bool, fate: Slot -> Fate, now: string, k: Slot)
    requires Progress(rows0, promise0, rows, promise, handled, paused, fate, now) && k in rows0 && k !in handled
    ensures k in rows
    ensures Progress(rows0, promise0,
                     if Delivered(paused, fate, k) then rows[k := Marked(rows[k], now)] else rows,
                     if !Arrives(paused, fate, k) || k.runId in promise then promise
                       else promise[k.runId := rows[k].decision],
                     handled + {k}, paused, fate, now)
  {
    var promise' := if !Arrives(paused, fate, k) || k.runId in promise then promise
      else promise[k.runId := rows[k].decision];
    forall r | r in promise' && r !in promise0
      ensures exists x ::
        x in handled + {k} && x in rows0 && x.runId == r && Arrives(paused, fate, x)
        && promise'[r] == rows0[x].decision
    {
      if r in promise {
        var x :| x in handled && x in rows0 && x.runId == r && Arrives(paused, fate, x)
          && promise[r] == rows0[x].decision;
        assert x in handled + {k};
      } else {
        assert k in handled + {k};
      }
    }
  }

  function DeliveredOf(keys: set<Slot>, paused: Slot -> bool, fate: Slot -> Fate): set<Slot>
  {
    set k | k in keys && Delivered(paused, fate, k)
  }

  function SkippedOf(keys: set<Slot>, paused: Slot -> bool): set<Slot>
  {
    set k | k in keys && Skipped(paused, k)
  }

  /** The counts of a flush that has handled these rows. */
  ghost predicate Counts(handled: set<Slot>, paused: Slot -> bool, fate: Slot -> Fate,
                         flushed: nat, skipped: nat, failed: nat)
  {
    && flushed == |DeliveredOf(handled, paused, fate)| && skipped == |SkippedOf(handled, paused)|
    && flushed + skipped + failed == |handled|
  }

  lemma CountNext(handled: set<Slot>, paused: Slot -> bool, fate: Slot -> Fate, k: Slot,
                  flushed: nat, skipped: nat, failed: nat)
    requires k !in handled && Counts(handled, paused, fate, flushed, skipped, failed)
    ensures if Skipped(paused, k) then Counts(handled + {k}, paused, fate, flushed, skipped + 1, failed)
            else if Delivered(paused, fate, k) then Counts(handled + {k}, paused, fate, flushed + 1, skipped, failed)
            else Counts(handled + {k}, paused, fate, flushed, skipped, failed + 1)
  {
    assert !(Skipped(paused, k) && Delivered(paused, fate, k));
    hide Skipped, Delivered;
    var delivered, skips := DeliveredOf(handled, paused, fate), SkippedOf(handled, paused);
    assert DeliveredOf(handled + {k}, paused, fate) ==
      if Delivered(paused, fate, k) then delivered + {k} else delivered;
    assert SkippedOf(handled + {k}, paused) == if Skipped(paused, k) then skips + {k} else skips;
  }

  datatype RowOutcome = Flushed | Passed | Failed

  class PendingQueue {
    var rows: Rows

    constructor ()
      ensures rows == map[]
    {
      rows := map[];
    }

    method EnqueueOfflineHitl(origin: string, runId: RunId, decision: string, now: string) returns (ok: bool)
      modifies this
      ensures ok <==> Enqueue(old(rows), origin, runId, decision, now).Some?
      ensures rows == if ok then Enqueue(old(rows), origin, runId, decision, now).value else old(rows)
    {
      ok := ValidRunId(Trim(runId)) && ValidDecision(Trim(decision));
      if ok { rows := rows[Slot(origin, Trim(runId)) := Pending(Trim(decision), now, None)]; }
    }

    method HandleHitlInput(journal: RunId -> seq<Entry>, origin: string, q: Submission) returns (response: Response)
      modifies this
      ensures response == Respond(old(rows), journal, origin, q)
      ensures rows == Submit(old(rows), journal, origin, q)
    {
      hide OverlayTrajectory, HitlStateOf, ValidRunId, ValidDecision, Trim;
      if !ValidRunId(Trim(q.runId)) || !ValidDecision(Trim(q.decision)) { return BadRequest; }
      if !q.allowed { return TooManyRequests; }
      var shown := OverlayTrajectory(journal(q.runId), QueuedFor(rows, origin, q.runId));
      if shown.Err? { return ServerError; }
      match HitlStateOf(shown.value) {
        case NoPause => return NoPauseHere;
        case Resumed => return AlreadyRecorded;
        case Paused =>
          DecisionTrimmed(q);
          var ok := EnqueueOfflineHitl(origin, q.runId, Trim(q.decision), q.now);
          response := Accepted;
      }
    }

    /** One turn of the flush's loop. */
    method FlushRow(substrate: Substrate, paused: Slot -> bool, fate: Slot -> Fate, now: string, k: Slot)
      returns (outcome: RowOutcome)
      requires k in rows
      modifies this, substrate
      ensures rows == if Delivered(paused, fate, k) then old(rows)[k := Marked(old(rows)[k], now)] else old(rows)
      ensures substrate.promise ==
        if !Arrives(paused, fate, k) || k.runId in old(substrate.promise) then old(substrate.promise)
        else old(substrate.promise)[k.runId := old(rows)[k].decision]
      ensures outcome == if Skipped(paused, k) then Passed else if Delivered(paused, fate, k) then Flushed else Failed
    {
      if !paused(k) { return Passed; }
      var ok := substrate.ProvideInput(k.runId, rows[k].decision, fate(k));
      if !ok { return Failed; }
      rows := rows[k := Marked(rows[k], now)];
      outcome := Flushed;
    }

    /** Every pending row is counted once: skipped when its run is no longer paused, flushed when its
        delivery was answered, failed otherwise. */
    method Flush(substrate: Substrate, paused: Slot -> bool, fate: Slot -> Fate, now: string)
      returns (flushed: nat, skipped: nat, failed: nat)
      modifies this, substrate
      ensures Counts(PendingKeys(old(rows)), paused, fate, flushed, skipped, failed)
      ensures Progress(old(rows), old(substrate.promise), rows, substrate.promise, PendingKeys(old(rows)), paused, fate,
        now)
      ensures LeftPending(old(rows), rows, paused, fate, now)
    {
      hide Progress, DeliveredOf, SkippedOf, PendingKeys, Marked, LeftPending, Delivered, Skipped, Arrives, Counts;
      flushed, skipped, failed := 0, 0, 0;
      ghost var rows0, promise0 := rows, substrate.promise;
      var pending := PendingKeys(rows);
      var waiting := pending;
      NoProgress(rows, substrate.promise, paused, fate, now);
      assert pending - waiting == {};
      while waiting != {}
        invariant waiting <= pending
        invariant Counts(pending - waiting, paused, fate, flushed, skipped, failed)
        invariant Progress(rows0, promise0, rows, substrate.promise, pending - waiting, paused, fate, now)
        decreases |waiting|
      {
        var k :| k in waiting;
        PendingInRows(rows0, k);
        ProgressNext(rows0, promise0, rows, substrate.promise, pending - waiting, paused, fate, now, k);
        CountNext(pending - waiting, paused, fate, k, flushed, skipped, failed);
        assert pending - (waiting - {k}) == pending - waiting + {k};
        waiting := waiting - {k};
        var outcome := FlushRow(substrate, paused, fate, now, k);
        match outcome {
          case Passed => skipped := skipped + 1;
          case Flushed => flushed := flushed + 1;
          case Failed => failed := failed + 1;
        }
      }
      assert pending - waiting == pending;
      PendingLeft(rows0, promise0, rows, substrate.promise, paused, fate, now);
    }
  }

  lemma PendingInRows(rows: Rows, k: Slot)
    ensures k in PendingKeys(rows) ==> k in rows
  {
  }

  lemma NoProgress(rows: Rows, promise: map<RunId, string>, paused: Slot -> bool, fate: Slot -> Fate, now: string)
    ensures Progress(rows, promise, rows, promise, {}, paused, fate, now)
    ensures Counts({}, paused, fate, 0, 0, 0)
  {
  }
}
