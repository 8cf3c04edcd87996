/** A reader of the live feed: from the bytes of a connection back to what happened. */
module FeedClient {
  import opened Feed
  import opened Json
  import opened Portable
  import opened StepModel
  import opened Wrappers
  import opened WsFrame

  /** What a message tells its reader. */
  datatype Heard =
    | Greeted(runId: RunId, steps: int, state: HitlState, pollMs: int)
    | SawStep(runId: RunId, seqNo: int, stepName: string, kind: string, sideEffect: bool, recordedAt: string,
      output: Json)
    | SawState(runId: RunId, state: HitlState)

  function StateNamed(text: string): Option<HitlState>
  {
    if text == "none" then Some(NoPause)
    else if text == "paused" then Some(Paused)
    else if text == "resumed" then Some(Resumed)
    else None
  }

  function TextAt(o: seq<(string, Json)>, key: string): string
  {
    match Get(o, key) case Some(JStr(s)) => s case _ => ""
  }

  function NumberAt(o: seq<(string, Json)>, key: string): int
  {
    match Get(o, key) case Some(JNum(n)) => n case _ => 0
  }

  function FlagAt(o: seq<(string, Json)>, key: string): bool { Get(o, key) == Some(JBool(true)) }

  /** Reading one message by its type and the names of its fields. */
  function Hear(text: string): Option<Heard>
  {
    match Parse(text)
    case Some(JObj(o)) =>
      var tag := TextAt(o, "type");
      if tag == "hello" && FlagAt(o, "live") && TextAt(o, "path") == "/api/ws/runs" then
        match StateNamed(TextAt(o, "hitlState"))
        case Some(h) => Some(Greeted(TextAt(o, "runId"), NumberAt(o, "steps"), h, NumberAt(o, "pollMs")))
        case None => None
      else if tag == "step" && Get(o, "output").Some? then
        Some(SawStep(TextAt(o, "runId"), NumberAt(o, "seq"), TextAt(o, "stepName"), TextAt(o, "kind"),
                     FlagAt(o, "sideEffect"), TextAt(o, "recordedAt"), Get(o, "output").value))
      else if tag == "hitl_state" then
        match StateNamed(TextAt(o, "state")) case Some(h) => Some(SawState(TextAt(o, "runId"), h)) case None => None
      else None
    case _ => None
  }

  function HeardOf(e: Event): Heard
  {
    match e
    case Hello(r, n, h, ms) => Greeted(r, n, h, ms)
    case StepSeen(x) => SawStep(x.runId, x.seqNo, x.stepName, x.kind, x.sideEffect, x.recordedAt, x.output)
    case HitlChanged(r, h) => SawState(r, h)
  }

  lemma {:induction false} GetField(o: seq<(string, Json)>, i: nat, key: string)
    requires i < |o| && o[i].0 == key && forall j | i < j < |o| :: o[j].0 != key
    ensures Get(o, key) == Some(o[i].1)
  {
    if i < |o| - 1 {
      assert o[|o| - 1].0 != key;
      GetField(o[..|o| - 1], i, key);
    }
  }

  lemma StateTexts(h: HitlState)
    ensures StateNamed(StateText(h)) == Some(h)
  {
    assert "none"[0] != "paused"[0] && "none"[0] != "resumed"[0] && "paused"[0] != "resumed"[0];
  }

  lemma HearHello(r: RunId, n: nat, h: HitlState, ms: nat)
    ensures Hear(Print(Message(Hello(r, n, h, ms)))) == Some(Greeted(r, n, h, ms))
  {
    var e := Hello(r, n, h, ms);
    ParsePrint(Message(e));
    var o := Message(e).fields;
    hide Parse, Print, Get, StateText, StateNamed;
    StateTexts(h);
    GetField(o, 0, "type");
    GetField(o, 1, "runId");
    GetField(o, 2, "live");
    GetField(o, 3, "path");
    GetField(o, 4, "steps");
    GetField(o, 5, "hitlState");
    GetField(o, 6, "pollMs");
  }

  lemma StepFields(x: Entry)
    ensures var o := Message(StepSeen(x)).fields;
      && Get(o, "type") == Some(JStr("step")) && Get(o, "runId") == Some(JStr(x.runId))
      && Get(o, "seq") == Some(JNum(x.seqNo)) && Get(o, "stepName") == Some(JStr(x.stepName))
      && Get(o, "kind") == Some(JStr(x.kind)) && Get(o, "sideEffect") == Some(JBool(x.sideEffect))
      && Get(o, "recordedAt") == Some(JStr(x.recordedAt)) && Get(o, "output") == Some(x.output)
  {
    var o := Message(StepSeen(x)).fields;
    hide Get;
    GetField(o, 0, "type");
    GetField(o, 1, "runId");
    GetField(o, 2, "seq");
    GetField(o, 3, "stepName");
    GetField(o, 4, "kind");
    GetField(o, 5, "sideEffect");
    GetField(o, 6, "recordedAt");
    GetField(o, 7, "output");
  }

  lemma HearStep(x: Entry)
    ensures Hear(Print(Message(StepSeen(x)))) == Some(HeardOf(StepSeen(x)))
  {
    ParsePrint(Message(StepSeen(x)));
    var o := Message(StepSeen(x)).fields;
    StepFields(x);
    hide Parse, Print, Get, Message;
    assert "step" != "hello" && "step" != "hitl_state" by { assert |"step"| == 4 && |"hello"| == 5; }
  }

  lemma HearState(r: RunId, h: HitlState)
    ensures Hear(Print(Message(HitlChanged(r, h)))) == Some(SawState(r, h))
  {
    ParsePrint(Message(HitlChanged(r, h)));
    var o := Message(HitlChanged(r, h)).fields;
    hide Parse, Print, Get, StateText, StateNamed;
    StateTexts(h);
    GetField(o, 0, "type");
    GetField(o, 1, "runId");
    GetField(o, 2, "state");
    assert |"hitl_state"| == 10 && |"step"| == 4 && |"hello"| == 5;
  }

  /** Each message is heard as the event it was sent for. */
  lemma HearMessage(e: Event)
    ensures Hear(Print(Message(e))) == Some(HeardOf(e))
  {
    hide Hear, Print, Message;
    match e
    case Hello(r, n, h, ms) => HearHello(r, n, h, ms);
    case StepSeen(x) => HearStep(x);
    case HitlChanged(r, h) => HearState(r, h);
  }

  /** The bytes of a connection, read frame by frame and message by message, tell exactly the events that
      were sent, in order; `decode` undoes the encoding of texts. */
  lemma HearStream(out: seq<Event>, utf8: string -> seq<Byte>, decode: seq<Byte> -> string)
    requires forall text :: |utf8(text)| < 0x8000_0000_0000_0000 && decode(utf8(text)) == text
    ensures var frames := ReadStream(Stream(Messages(out, utf8)));
      && frames.Some? && |frames.value| == |out|
      && forall i | 0 <= i < |out| :: Hear(decode(frames.value[i])) == Some(HeardOf(out[i]))
  {
    hide Hear, Print, Message, ReadStream, Stream, HeardOf;
    StreamRoundTrip(Messages(out, utf8));
    forall i | 0 <= i < |out| ensures Hear(decode(Messages(out, utf8)[i])) == Some(HeardOf(out[i])) {
      HearMessage(out[i]);
    }
  }
}
