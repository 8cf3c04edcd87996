/** The live feed of a run: a greeting, then polls of the journal that send what is new. */
module Feed {
  import opened Json
  import opened StepModel
  import opened Wrappers
  import opened WsFrame

  datatype Event =
    | Hello(runId: RunId, steps: nat, state: HitlState, pollMs: nat)
    | StepSeen(entry: Entry)
    | HitlChanged(runId: RunId, state: HitlState)

  datatype FeedState = FeedState(lastSeq: nat, lastHitl: HitlState, out: seq<Event>)

  function LastSeq(t: seq<Entry>): nat { if |t| > 0 then t[|t| - 1].seqNo else 0 }

  /** The loop over a snapshot: every entry beyond the last one sent is sent, and becomes the last. */
  function SendSteps(s: FeedState, steps: seq<Entry>): FeedState
    decreases |steps|
  {
    if |steps| == 0 then s
    else if steps[0].seqNo > s.lastSeq
      then SendSteps(s.(lastSeq := steps[0].seqNo, out := s.out + [StepSeen(steps[0])]), steps[1..])
    else SendSteps(s, steps[1..])
  }

  function SendState(s: FeedState, r: RunId, h: HitlState): FeedState
  {
    if h != s.lastHitl then s.(lastHitl := h, out := s.out + [HitlChanged(r, h)]) else s
  }

  function Poll(s: FeedState, r: RunId, steps: seq<Entry>, h: HitlState): FeedState
  {
    SendState(SendSteps(s, steps), r, h)
  }

  function Open(r: RunId, h: HitlState, initial: seq<Entry>, pollMs: nat): FeedState
  {
    FeedState(LastSeq(initial), h, [Hello(r, |initial|, h, pollMs)])
  }

  /** The variables a connection keeps between polls. */
  class Connection {
    const runId: RunId
    var lastSeq: nat
    var lastHitl: HitlState
    var out: seq<Event>

    function Contents(): FeedState
      reads this
    {
      FeedState(lastSeq, lastHitl, out)
    }

    constructor (r: RunId, h: HitlState, initial: seq<Entry>, pollMs: nat)
      ensures runId == r && Contents() == Open(r, h, initial, pollMs)
    {
      runId := r;
      lastSeq := if |initial| > 0 then initial[|initial| - 1].seqNo else 0;
      lastHitl := h;
      out := [Hello(r, |initial|, h, pollMs)];
    }

    method PushNewSteps(steps: seq<Entry>, h: HitlState)
      modifies this
      ensures Contents() == Poll(old(Contents()), runId, steps, h)
    {
      for i := 0 to |steps|
        invariant SendSteps(Contents(), steps[i..]) == SendSteps(old(Contents()), steps)
        invariant lastHitl == old(lastHitl)
      {
        assert steps[i..][0] == steps[i] && steps[i..][1..] == steps[i + 1..];
        if steps[i].seqNo > lastSeq {
          lastSeq := steps[i].seqNo;
          out := out + [StepSeen(steps[i])];
        }
      }
      if h != lastHitl {
        lastHitl := h;
        out := out + [HitlChanged(runId, h)];
      }
    }
  }

  // ---- What a connection has sent after any number of polls ----

  datatype Snapshot = Snapshot(steps: seq<Entry>, state: HitlState)

  function Polls(s: FeedState, r: RunId, polls: seq<Snapshot>): FeedState
  {
    if |polls| == 0 then s
    else Poll(Polls(s, r, polls[..|polls| - 1]), r, polls[|polls| - 1].steps, polls[|polls| - 1].state)
  }

  function StepsSent(out: seq<Event>): seq<Entry>
  {
    if |out| == 0 then []
    else StepsSent(out[..|out| - 1]) + if out[|out| - 1].StepSeen? then [out[|out| - 1].entry] else []
  }

  function StatesSent(out: seq<Event>): seq<HitlState>
  {
    if |out| == 0 then []
    else StatesSent(out[..|out| - 1]) + if out[|out| - 1].StepSeen? then [] else [out[|out| - 1].state]
  }

  /** A sequence without its repetitions of the value before. */
  function Changes(states: seq<HitlState>): seq<HitlState>
  {
    if |states| < 2 then states
    else
      var front := states[..|states| - 1];
      Changes(front) + if states[|states| - 1] == front[|front| - 1] then [] else [states[|states| - 1]]
  }

  function StatesPolled(polls: seq<Snapshot>): (hs: seq<HitlState>)
    ensures |hs| == |polls| && forall i | 0 <= i < |polls| :: hs[i] == polls[i].state
  {
    seq(|polls|, i requires 0 <= i < |polls| => polls[i].state)
  }

  predicate Ascending(t: seq<Entry>)
  {
    (forall i | 0 <= i < |t| :: t[i].seqNo > 0) && forall i, j | 0 <= i < j < |t| :: t[i].seqNo < t[j].seqNo
  }

  /** Each snapshot extends the one before with later entries. */
  ghost predicate Extending(initial: seq<Entry>, polls: seq<Snapshot>)
  {
    && Ascending(initial)
    && (forall i | 0 <= i < |polls| :: Ascending(polls[i].steps) && initial <= polls[i].steps)
    && (forall i, j | 0 <= i < j < |polls| :: polls[i].steps <= polls[j].steps)
  }

  function Final(initial: seq<Entry>, polls: seq<Snapshot>): seq<Entry>
  {
    if |polls| == 0 then initial else polls[|polls| - 1].steps
  }

  lemma SentOne(out: seq<Event>, e: Event)
    ensures StepsSent(out + [e]) == StepsSent(out) + if e.StepSeen? then [e.entry] else []
    ensures StatesSent(out + [e]) == StatesSent(out) + if e.StepSeen? then [] else [e.state]
  {
    assert (out + [e])[..|out|] == out;
  }

  /** Entries already sent are passed over. */
  lemma {:induction false} OldSteps(s: FeedState, steps: seq<Entry>, rest: seq<Entry>)
    requires forall i | 0 <= i < |steps| :: steps[i].seqNo <= s.lastSeq
    ensures SendSteps(s, steps + rest) == SendSteps(s, rest)
    decreases |steps|
  {
    if |steps| == 0 {
      assert steps + rest == rest;
    } else {
      assert (steps + rest)[1..] == steps[1..] + rest;
      OldSteps(s, steps[1..], rest);
    }
  }

  lemma SendOne(s: FeedState, steps: seq<Entry>)
    requires Ascending(steps) && |steps| > 0 && steps[0].seqNo > s.lastSeq
    ensures var next := s.(lastSeq := steps[0].seqNo, out := s.out + [StepSeen(steps[0])]);
      && SendSteps(s, steps) == SendSteps(next, steps[1..]) && Ascending(steps[1..])
      && (|steps| > 1 ==> steps[1].seqNo > next.lastSeq)
      && LastSeq(steps) == (if |steps| > 1 then LastSeq(steps[1..]) else next.lastSeq)
  {
  }

  /** Later entries are all sent, in order. */
  lemma {:induction false} NewSteps(s: FeedState, steps: seq<Entry>)
    requires Ascending(steps) && (|steps| > 0 ==> steps[0].seqNo > s.lastSeq)
    ensures var s' := SendSteps(s, steps);
      && StepsSent(s'.out) == StepsSent(s.out) + steps && StatesSent(s'.out) == StatesSent(s.out)
      && s'.lastSeq == (if |steps| > 0 then LastSeq(steps) else s.lastSeq) && s'.lastHitl == s.lastHitl
      && s.out <= s'.out
    decreases |steps|
  {
    hide Ascending, StepsSent, StatesSent, LastSeq, SendSteps;
    if |steps| == 0 {
      SendNone(s);
    } else {
      var next := s.(lastSeq := steps[0].seqNo, out := s.out + [StepSeen(steps[0])]);
      SendOne(s, steps);
      SentOne(s.out, StepSeen(steps[0]));
      NewSteps(next, steps[1..]);
      assert StepsSent(s.out) + [steps[0]] + steps[1..] == StepsSent(s.out) + steps;
    }
  }

  lemma SendNone(s: FeedState)
    ensures SendSteps(s, []) == s
  {
  }

  lemma OnePoll(s: FeedState, r: RunId, before: seq<Entry>, steps: seq<Entry>, h: HitlState)
    requires Ascending(before) && Ascending(steps) && before <= steps && s.lastSeq == LastSeq(before)
    ensures var s' := Poll(s, r, steps, h);
      && StepsSent(s'.out) == StepsSent(s.out) + steps[|before|..]
      && StatesSent(s'.out) == StatesSent(s.out) + (if h == s.lastHitl then [] else [h])
      && s'.lastSeq == LastSeq(steps) && s'.lastHitl == h
      && s.out <= s'.out
  {
    hide SendSteps, StepsSent, StatesSent;
    var rest := steps[|before|..];
    assert steps == before + rest;
    OldSteps(s, before, rest);
    NewSteps(s, rest);
    var mid := SendSteps(s, rest);
    SentOne(mid.out, HitlChanged(r, h));
  }

  lemma OpenSent(r: RunId, h: HitlState, initial: seq<Entry>, pollMs: nat)
    ensures StepsSent(Open(r, h, initial, pollMs).out) == [] && StatesSent(Open(r, h, initial, pollMs).out) == [h]
  {
    SentOne([], Hello(r, |initial|, h, pollMs));
    assert [] + [Hello(r, |initial|, h, pollMs)] == [Hello(r, |initial|, h, pollMs)];
  }

  lemma ExtendingFront(initial: seq<Entry>, polls: seq<Snapshot>)
    requires Extending(initial, polls) && |polls| > 0
    ensures var front, last := polls[..|polls| - 1], polls[|polls| - 1].steps;
      && Extending(initial, front) && Ascending(Final(initial, front)) && Ascending(last)
      && initial <= Final(initial, front) <= last
      && last[|initial|..] == Final(initial, front)[|initial|..] + last[|Final(initial, front)|..]
  {
  }

  lemma StatesNext(h: HitlState, polls: seq<Snapshot>)
    requires |polls| > 0
    ensures var front, last := [h] + StatesPolled(polls[..|polls| - 1]), polls[|polls| - 1].state;
      && ([h] + StatesPolled(polls))[|polls|] == last
      && Changes([h] + StatesPolled(polls)) == Changes(front) + if last == front[|polls| - 1] then [] else [last]
  {
    var states := [h] + StatesPolled(polls);
    assert states[..|states| - 1] == [h] + StatesPolled(polls[..|polls| - 1]);
  }

  lemma {:induction false} PollsSent(r: RunId, h: HitlState, initial: seq<Entry>, pollMs: nat, polls: seq<Snapshot>)
    requires Extending(initial, polls)
    ensures var s := Polls(Open(r, h, initial, pollMs), r, polls);
      && StepsSent(s.out) == Final(initial, polls)[|initial|..]
      && StatesSent(s.out) == Changes([h] + StatesPolled(polls))
      && s.lastSeq == LastSeq(Final(initial, polls)) && s.lastHitl == ([h] + StatesPolled(polls))[|polls|]
      && |s.out| > 0 && s.out[0] == Hello(r, |initial|, h, pollMs)
    decreases |polls|
  {
    hide Poll, SendSteps, StepsSent, StatesSent, Extending, Ascending, Changes, LastSeq;
    if |polls| == 0 {
      OpenSent(r, h, initial, pollMs);
      OneState(h);
    } else {
      var front, last := polls[..|polls| - 1], polls[|polls| - 1];
      ExtendingFront(initial, polls);
      PollsSent(r, h, initial, pollMs, front);
      OnePoll(Polls(Open(r, h, initial, pollMs), r, front), r, Final(initial, front), last.steps, last.state);
      StatesNext(h, polls);
    }
  }

  lemma OneState(h: HitlState)
    ensures Changes([h] + []) == [h]
  {
  }

  // ---- On the wire ----

  function StateText(h: HitlState): string
  {
    match h case NoPause => "none" case Paused => "paused" case Resumed => "resumed"
  }

  function Message(e: Event): Json
  {
    match e
    case Hello(r, n, h, ms) =>
      JObj([("type", JStr("hello")), ("runId", JStr(r)), ("live", JBool(true)), ("path", JStr("/api/ws/runs")),
        ("steps", JNum(n)), ("hitlState", JStr(StateText(h))), ("pollMs", JNum(ms))])
    case StepSeen(x) =>
      JObj([("type", JStr("step")), ("runId", JStr(x.runId)), ("seq", JNum(x.seqNo)), ("stepName", JStr(x.stepName)),
        ("kind", JStr(x.kind)),
            ("sideEffect", JBool(x.sideEffect)), ("recordedAt", JStr(x.recordedAt)), ("output", x.output)])
    case HitlChanged(r, h) => JObj([("type", JStr("hitl_state")), ("runId", JStr(r)), ("state", JStr(StateText(h)))])
  }

  /** The messages as bytes; `utf8` is the encoding Buffer.from uses. */
  function Messages(out: seq<Event>, utf8: string -> seq<Byte>): (ms: seq<seq<Byte>>)
    ensures |ms| == |out| && forall i | 0 <= i < |out| :: ms[i] == utf8(Print(Message(out[i])))
  {
    seq(|out|, i requires 0 <= i < |out| => utf8(Print(Message(out[i]))))
  }

  /** The bytes a writable socket carried read back as exactly the events sent. After any polls of a
      journal that only gains later entries these are: the greeting, one step event for each entry
      after the greeting's snapshot in ascending seq, and a state event at each change only. */
  lemma FeedStream(r: RunId, h: HitlState, initial: seq<Entry>, pollMs: nat, polls: seq<Snapshot>,
                   utf8: string -> seq<Byte>)
    requires Extending(initial, polls)
    requires forall text :: |utf8(text)| < 0x8000_0000_0000_0000
    ensures var out := Polls(Open(r, h, initial, pollMs), r, polls).out;
      && ReadStream(Stream(Messages(out, utf8))) == Some(Messages(out, utf8))
      && |out| > 0 && out[0] == Hello(r, |initial|, h, pollMs)
      && StepsSent(out) == Final(initial, polls)[|initial|..]
      && StatesSent(out) == Changes([h] + StatesPolled(polls))
  {
    hide Print, Message, Stream, ReadStream, Polls, StepsSent, StatesSent, Changes, Extending;
    PollsSent(r, h, initial, pollMs, polls);
    StreamRoundTrip(Messages(Polls(Open(r, h, initial, pollMs), r, polls).out, utf8));
  }
}
