/** The two reference workflows: their step tables, what each step produces, and the handlers
    as one process runs them without a crash. */
module Workflow {
  import opened EffectSink
  import opened Idempotency
  import opened Journal
  import opened Json
  import opened StepModel
  import opened Text
  import opened Wrappers

  datatype Flow = Agent | Hitl

  datatype StepSpec = StepSpec(name: string, kind: string, sideEffect: bool)

  const AGENT_STEPS: seq<StepSpec> := [
    StepSpec("step1-plan", PLAN, false),
    StepSpec("step2-tool_call", TOOL_CALL, true),
    StepSpec("step3-summarize", SUMMARIZE, false)]

  const HITL_STEPS: seq<StepSpec> := [
    StepSpec("step1-plan", PLAN, false),
    StepSpec("hitl-pause", HITL_PAUSE, false),
    StepSpec("hitl-input", HITL_INPUT, false),
    StepSpec("step4-tool_call", TOOL_CALL, true),
    StepSpec("step5-summarize", SUMMARIZE, false)]

  function Table(f: Flow): seq<StepSpec> { if f == Agent then AGENT_STEPS else HITL_STEPS }

  function Len(f: Flow): nat { |Table(f)| }

  function Spec(f: Flow, k: nat): StepSpec
    requires 1 <= k <= Len(f)
  {
    Table(f)[k - 1]
  }

  function ToolSeq(f: Flow): nat { if f == Agent then 2 else 4 }

  /** The step whose output is the human decision; no step of an Agent run is. */
  function InputSeq(f: Flow): nat { if f == Agent then 0 else 3 }

  predicate KeyName(name: string) { IsSafe(name) && ColonFree(name) }

  lemma AgentNamesSafe()
    ensures KeyName("step1-plan") && KeyName("step2-tool_call") && KeyName("step3-summarize")
  {
  }

  lemma HitlNamesSafe()
    ensures KeyName("hitl-pause") && KeyName("hitl-input") && KeyName("step4-tool_call") && KeyName("step5-summarize")
  {
  }

  /** Both tables use safe, colon-free names. */
  lemma StepNameSafe(f: Flow, k: nat)
    requires 1 <= k <= Len(f)
    ensures KeyName(Spec(f, k).name)
  {
    AgentNamesSafe();
    HitlNamesSafe();
  }

  /** Within a table the fifth and sixth characters already tell the names apart. */
  function Mark(name: string): (char, char)
    requires |name| > 5
  {
    (name[4], name[5])
  }

  lemma MarkOf(f: Flow, k: nat)
    requires 1 <= k <= Len(f)
    ensures |Spec(f, k).name| > 5
    ensures Mark(Spec(f, k).name) ==
      if k == 1 then ('1', '-')
      else if f == Agent then (if k == 2 then ('2', '-') else ('3', '-'))
      else if k == 2 then ('-', 'p') else if k == 3 then ('-', 'i') else if k == 4 then ('4', '-') else ('5', '-')
  {
    if f == Agent {
      assert k == 1 || k == 2 || k == 3;
    } else {
      assert k == 1 || k == 2 || k == 3 || k == 4 || k == 5;
    }
  }

  lemma StepNamesDistinct(f: Flow, j: nat, k: nat)
    requires 1 <= j <= Len(f) && 1 <= k <= Len(f) && j != k
    ensures Spec(f, j).name != Spec(f, k).name
  {
    MarkOf(f, j);
    MarkOf(f, k);
  }

  lemma StepKinds(f: Flow, k: nat)
    requires 1 <= k <= Len(f)
    ensures Spec(f, k).sideEffect <==> k == ToolSeq(f)
    ensures Spec(f, k).kind == HITL_INPUT <==> k == InputSeq(f)
    ensures Spec(f, k).kind == HITL_PAUSE <==> f == Hitl && k == 2
  {
    assert HITL_INPUT[5] == 'i' && HITL_PAUSE[5] == 'p' && |PLAN| == 4 && |TOOL_CALL| == 9 && |SUMMARIZE| == 9;
    if f == Agent {
      assert k == 1 || k == 2 || k == 3;
    } else {
      assert k == 1 || k == 2 || k == 3 || k == 4 || k == 5;
    }
  }

  /** The tables, with the names and kinds the journal stores. */
  lemma StepTables()
    ensures Table(Agent) == [
      StepSpec("step1-plan", "plan", false), StepSpec("step2-tool_call", "tool_call", true),
      StepSpec("step3-summarize", "summarize", false)]
    ensures Table(Hitl) == [
      StepSpec("step1-plan", "plan", false), StepSpec("hitl-pause", "hitl_pause", false),
      StepSpec("hitl-input", "hitl_input", false), StepSpec("step4-tool_call", "tool_call", true),
      StepSpec("step5-summarize", "summarize", false)]
  {
  }

  datatype WorkflowInput = WorkflowInput(prompt: string, trajectory: Option<string>)

  /** input.trajectory ?? "main" */
  function Label(input: WorkflowInput): string
  {
    match input.trajectory case None => "main" case Some(t) => t
  }

  /** What a run cannot compute for itself: the model's answer, the human decision, and the id
      the effect log gives its effect. */
  datatype Choice = Choice(plan: string, decision: string, effectId: nat)

  /** A step output as it appears inside a template literal. */
  function AsText(j: Json): string { if j.JStr? then j.s else Print(j) }

  function Payload(f: Flow, vals: seq<Json>): Json
    requires |vals| >= ToolSeq(f) - 1
  {
    if f == Agent then JObj([("plan", vals[0])])
    else JObj([("plan", vals[0]), ("humanDecision", vals[2])])
  }

  /** What the producer of step k returns, given the outputs of the steps before it. */
  function Output(f: Flow, k: nat, input: WorkflowInput, vals: seq<Json>, c: Choice): Json
    requires 1 <= k <= Len(f) && |vals| >= k - 1
  {
    if k == 1 then JStr(c.plan)
    else if f == Agent then
      if k == 2 then JStr("tool-result(effectId=" + Decimal(c.effectId) + ")")
      else JStr("answer[" + Label(input) + "]<<" + AsText(vals[0]) + "|" + AsText(vals[1]) + "|prompt=" + input.prompt
        + ">>")
    else
      if k == 2 then JObj([("awaiting", JStr("hitl.input")), ("planSoFar", vals[0])])
      else if k == 3 then JStr(c.decision)
      else if k == 4 then JStr("tool-result(effectId=" + Decimal(c.effectId) + ";approved=" + AsText(vals[2]) + ")")
      else JStr("answer[" + Label(input) + "]<<" + AsText(vals[0]) + "|human=" + AsText(vals[2]) + "|" + AsText(vals[3])
        + "|prompt=" + input.prompt + ">>")
  }

  /** Only the plan step depends on the model, the input step on the human, the tool step on the effect id. */
  lemma OutputDepends(f: Flow, k: nat, input: WorkflowInput, vals: seq<Json>, c: Choice, c': Choice)
    requires 1 <= k <= Len(f) && |vals| >= k - 1
    requires k == 1 ==> c.plan == c'.plan
    requires k == InputSeq(f) ==> c.decision == c'.decision
    requires k == ToolSeq(f) ==> c.effectId == c'.effectId
    ensures Output(f, k, input, vals, c) == Output(f, k, input, vals, c')
  {
  }

  // ---- The texts a run leaves behind ----

  function AgentTool(effectId: nat): string { "tool-result(effectId=" + Decimal(effectId) + ")" }

  function AgentAnswer(branch: string, prompt: string, plan: string, tool: string): string
  {
    "answer[" + branch + "]<<" + plan + "|" + tool + "|prompt=" + prompt + ">>"
  }

  function HitlTool(effectId: nat, decision: string): string
  {
    "tool-result(effectId=" + Decimal(effectId) + ";approved=" + decision + ")"
  }

  function HitlAnswer(branch: string, prompt: string, plan: string, decision: string, tool: string): string
  {
    "answer[" + branch + "]<<" + plan + "|human=" + decision + "|" + tool + "|prompt=" + prompt + ">>"
  }

  function AgentPayload(plan: string): string { Print(JObj([("plan", JStr(plan))])) }

  function HitlPayload(plan: string, decision: string): string
  {
    Print(JObj([("plan", JStr(plan)), ("humanDecision", JStr(decision))]))
  }

  function PauseMarker(plan: string): Json { JObj([("awaiting", JStr("hitl.input")), ("planSoFar", JStr(plan))]) }

  /** What an agent's steps produce, by what they are told and what came before them. */
  lemma AgentTexts(input: WorkflowInput, plan: string, tool: string, vals: seq<Json>, c: Choice)
    ensures Output(Agent, 1, input, [], c) == JStr(c.plan)
    ensures |vals| >= 1 && vals[0] == JStr(plan) ==>
      Output(Agent, 2, input, vals, c) == JStr(AgentTool(c.effectId))
        && Print(Payload(Agent, vals)) == AgentPayload(plan)
    ensures |vals| >= 2 && vals[0] == JStr(plan) && vals[1] == JStr(tool) ==>
      Output(Agent, 3, input, vals, c) == JStr(AgentAnswer(Label(input), input.prompt, plan, tool))
  {
    hide Print;
  }

  /** The same for the steps of a run that waits for a human. */
  lemma HitlTexts(input: WorkflowInput, plan: string, decision: string, tool: string, vals: seq<Json>, c: Choice)
    ensures Output(Hitl, 1, input, [], c) == JStr(c.plan)
    ensures |vals| >= 1 && vals[0] == JStr(plan) ==> Output(Hitl, 2, input, vals, c) == PauseMarker(plan)
    ensures |vals| >= 2 ==> Output(Hitl, 3, input, vals, c) == JStr(c.decision)
    ensures |vals| >= 3 && vals[0] == JStr(plan) && vals[2] == JStr(decision) ==>
      Output(Hitl, 4, input, vals, c) == JStr(HitlTool(c.effectId, decision))
      && Print(Payload(Hitl, vals)) == HitlPayload(plan, decision)
    ensures |vals| >= 4 && vals[0] == JStr(plan) && vals[2] == JStr(decision) && vals[3] == JStr(tool) ==>
      Output(Hitl, 5, input, vals, c) == JStr(HitlAnswer(Label(input), input.prompt, plan, decision, tool))
  {
    hide Print;
  }

  // ---- One step, and a whole run, with nobody else writing ----

  function ArgsOf(f: Flow, k: nat, r: RunId): StepArgs
    requires 1 <= k <= Len(f)
  {
    StepArgs(r, k, Spec(f, k).name, Spec(f, k).kind, Spec(f, k).sideEffect)
  }

  function EffectOf(f: Flow, r: RunId, input: WorkflowInput, key: string, vals: seq<Json>): Effect
    requires |vals| >= ToolSeq(f) - 1
  {
    Effect(r, Label(input), Spec(f, ToolSeq(f)).name, key, Print(Payload(f, vals)))
  }

  datatype Outcome = Outcome(db: Db, log: EffectLog, value: Result<Json>)

  /** ctx.run of step k on a journal and an effect log: replay the recorded output, or produce it
      (firing the effect first when the step has one) and record it. */
  function StepOnce(db: Db, log: EffectLog, f: Flow, k: nat, r: RunId, input: WorkflowInput, vals: seq<Json>,
                    plan: string, decision: string, now: string, pid: nat): Outcome
    requires 1 <= k <= Len(f) && |vals| >= k - 1
  {
    match DeriveKey(r, Spec(f, k).name)
    case Err(m) => Outcome(db, log, Err(m))
    case Ok(key) =>
      if (r, k) in db.steps then Outcome(db, log, Ok(db.steps[(r, k)].output))
      else
        var log' := if k == ToolSeq(f) then Fire(log, EffectOf(f, r, input, key, vals), now, pid) else log;
        var v := Output(f, k, input, vals, Choice(plan, decision, RowId(log'.rows, key)));
        match InsertStep(db, NativeEntry(ArgsOf(f, k, r), key, v, now))
        case None => Outcome(db, log', Err(UniqueConstraint))
        case Some(db') => Outcome(db', log', Ok(v))
  }

  datatype RunOutcome = RunOutcome(db: Db, log: EffectLog, outputs: Result<seq<Json>>)

  /** The steps after the first |vals|, in order, stopping at the first error. */
  function RunFrom(db: Db, log: EffectLog, f: Flow, r: RunId, input: WorkflowInput, vals: seq<Json>,
                   plan: string, decision: string, now: string, pid: nat): RunOutcome
    requires |vals| <= Len(f)
    decreases Len(f) - |vals|
  {
    if |vals| == Len(f) then RunOutcome(db, log, Ok(vals))
    else
      var o := StepOnce(db, log, f, |vals| + 1, r, input, vals, plan, decision, now, pid);
      match o.value
      case Err(m) => RunOutcome(o.db, o.log, Err(m))
      case Ok(v) => RunFrom(o.db, o.log, f, r, input, vals + [v], plan, decision, now, pid)
  }

  method DoStep(store: JournalStore, log: Sink, f: Flow, k: nat, r: RunId, input: WorkflowInput, vals: seq<Json>,
                plan: string, decision: string, now: string, pid: nat) returns (v: Result<Json>)
    requires 1 <= k <= Len(f) && |vals| >= k - 1
    requires log.Valid()
    modifies store, log
    ensures log.Valid()
    ensures Outcome(store.Contents(), log.Contents(), v)
      == StepOnce(old(store.Contents()), old(log.Contents()), f, k, r, input, vals, plan, decision, now, pid)
  {
    var key := DeriveKey(r, Spec(f, k).name);
    if key.Err? { return Err(key.error); }
    var existing := Lookup(store.Contents(), r, k);
    if existing.Some? { return Ok(existing.value); }
    var effectId := RowId(log.rows, key.value);
    if k == ToolSeq(f) {
      var fired := log.FireEffect(EffectOf(f, r, input, key.value, vals), now, pid);
      effectId := fired.id;
    }
    var value := Output(f, k, input, vals, Choice(plan, decision, effectId));
    var ok := store.Insert(NativeEntry(ArgsOf(f, k, r), key.value, value, now));
    if !ok { return Err(UniqueConstraint); }
    v := Ok(value);
  }

  /** The next step of a handler; what is left to run afterwards is what was left before. */
  method Advance(store: JournalStore, log: Sink, f: Flow, r: RunId, input: WorkflowInput, vals: seq<Json>,
                 plan: string, decision: string, now: string, pid: nat) returns (v: Result<seq<Json>>)
    requires |vals| < Len(f) && log.Valid()
    modifies store, log
    ensures log.Valid()
    ensures v.Ok? ==> |v.value| == |vals| + 1
    ensures RunFrom(old(store.Contents()), old(log.Contents()), f, r, input, vals, plan, decision, now, pid)
      == if v.Ok? then RunFrom(store.Contents(), log.Contents(), f, r, input, v.value, plan, decision, now, pid)
         else RunOutcome(store.Contents(), log.Contents(), Err(v.error))
  {
    var o := DoStep(store, log, f, |vals| + 1, r, input, vals, plan, decision, now, pid);
    v := if o.Err? then Err(o.error) else Ok(vals + [o.value]);
  }

  lemma RunFromEnd(db: Db, log: EffectLog, f: Flow, r: RunId, input: WorkflowInput, vals: seq<Json>,
                   plan: string, decision: string, now: string, pid: nat)
    requires |vals| == Len(f)
    ensures RunFrom(db, log, f, r, input, vals, plan, decision, now, pid) == RunOutcome(db, log, Ok(vals))
  {
  }

  ghost predicate NoRowsOf(db: Db, r: RunId) { forall k: nat :: (r, k) !in db.steps }

  /** A step that has no row yet, and succeeds, adds its own row and returns what its producer made. */
  lemma FreshStep(db: Db, log: EffectLog, f: Flow, k: nat, r: RunId, input: WorkflowInput, vals: seq<Json>,
                  plan: string, decision: string, now: string, pid: nat)
    requires 1 <= k <= Len(f) && |vals| >= k - 1 && (r, k) !in db.steps
    requires StepOnce(db, log, f, k, r, input, vals, plan, decision, now, pid).value.Ok?
    ensures var o := StepOnce(db, log, f, k, r, input, vals, plan, decision, now, pid);
      var key := r + ":" + Spec(f, k).name;
      && o.db.steps.Keys == db.steps.Keys + {(r, k)}
      && o.value == Ok(Output(f, k, input, vals, Choice(plan, decision, RowId(o.log.rows, key))))
      && o.log == if k == ToolSeq(f) then Fire(log, EffectOf(f, r, input, key, vals), now, pid) else log
  {
    hide Output, Fire, EffectOf, RowId, KeyTaken, IsSafe, Spec;
  }

  /** The step a run makes next, on its own. */
  lemma RunNext(db: Db, log: EffectLog, f: Flow, r: RunId, input: WorkflowInput, vals: seq<Json>,
                plan: string, decision: string, now: string, pid: nat)
    requires |vals| < Len(f) && RunFrom(db, log, f, r, input, vals, plan, decision, now, pid).outputs.Ok?
    ensures var o := StepOnce(db, log, f, |vals| + 1, r, input, vals, plan, decision, now, pid);
      && o.value.Ok?
      && RunFrom(db, log, f, r, input, vals, plan, decision, now, pid)
        == RunFrom(o.db, o.log, f, r, input, vals + [o.value.value], plan, decision, now, pid)
  {
    hide StepOnce;
  }

  /** One step of a run that nobody else writes: its value and effect, and the run that is left. */
  lemma FreshNext(db: Db, log: EffectLog, f: Flow, r: RunId, input: WorkflowInput, vals: seq<Json>,
                  plan: string, decision: string, now: string, pid: nat)
    requires |vals| < Len(f) && (forall k: nat | k > |vals| :: (r, k) !in db.steps)
    requires RunFrom(db, log, f, r, input, vals, plan, decision, now, pid).outputs.Ok?
    ensures var k := |vals| + 1;
      var o := StepOnce(db, log, f, k, r, input, vals, plan, decision, now, pid);
      var key := r + ":" + Spec(f, k).name;
      && o.value.Ok? && (forall j: nat | j > k :: (r, j) !in o.db.steps)
      && RunFrom(db, log, f, r, input, vals, plan, decision, now, pid)
        == RunFrom(o.db, o.log, f, r, input, vals + [o.value.value], plan, decision, now, pid)
      && o.log == (if k == ToolSeq(f) then Fire(log, EffectOf(f, r, input, key, vals), now, pid) else log)
      && o.value.value == Output(f, k, input, vals, Choice(plan, decision, RowId(o.log.rows, key)))
  {
    hide StepOnce, RunFrom, Output, Fire, RowId, Spec, Len, EffectOf, ToolSeq;
    RunNext(db, log, f, r, input, vals, plan, decision, now, pid);
    FreshStep(db, log, f, |vals| + 1, r, input, vals, plan, decision, now, pid);
  }

  lemma ToolNames(r: RunId)
    ensures Len(Agent) == 3 && Spec(Agent, 2).name == "step2-tool_call"
    ensures Len(Hitl) == 5 && Spec(Hitl, 4).name == "step4-tool_call"
    ensures r + ":" + Spec(Agent, 2).name == r + ":step2-tool_call"
    ensures r + ":" + Spec(Hitl, 4).name == r + ":step4-tool_call"
  {
    assert [':'] + "step2-tool_call" == ":step2-tool_call" && [':'] + "step4-tool_call" == ":step4-tool_call";
    Regrouped(r, ":", "step2-tool_call");
    Regrouped(r, ":", "step4-tool_call");
  }

  lemma Regrouped(a: string, b: string, c: string)
    ensures (a + b) + c == a + (b + c)
  {
  }

  lemma OneLonger(vals: seq<Json>, v: Json, longer: seq<Json>)
    requires |longer| == |vals| + 1 && vals <= longer && longer[|vals|] == v
    ensures vals + [v] == longer
  {
  }

  function AgentOutputs(branch: string, prompt: string, plan: string, effectId: nat): seq<Json>
  {
    var tool := AgentTool(effectId);
    [JStr(plan), JStr(tool), JStr(AgentAnswer(branch, prompt, plan, tool))]
  }

  function HitlOutputs(branch: string, prompt: string, plan: string, decision: string, effectId: nat): seq<Json>
  {
    var tool := HitlTool(effectId, decision);
    [JStr(plan), PauseMarker(plan), JStr(decision), JStr(tool), JStr(HitlAnswer(branch, prompt, plan, decision, tool))]
  }

  /** An agent run that nobody began before leaves its plan, its tool result and its answer, the last two
      spelled out from the plan, the effect's id, the branch and the prompt; and fires this one effect. */
  lemma LoneAgent(db: Db, log: EffectLog, r: RunId, input: WorkflowInput, plan: string, now: string, pid: nat)
    requires NoRowsOf(db, r) && RunFrom(db, log, Agent, r, input, [], plan, "", now, pid).outputs.Ok?
    ensures var o := RunFrom(db, log, Agent, r, input, [], plan, "", now, pid);
      var key := r + ":step2-tool_call";
      && o.outputs == Ok(AgentOutputs(Label(input), input.prompt, plan, RowId(o.log.rows, key)))
      && o.log == Fire(log, Effect(r, Label(input), "step2-tool_call", key, AgentPayload(plan)), now, pid)
  {
    ToolNames(r);
    hide StepOnce, RunFrom, Output, Fire, RowId, AgentTool, AgentAnswer, AgentPayload, Payload, Spec, Len;
    FreshNext(db, log, Agent, r, input, [], plan, "", now, pid);
    var o1 := StepOnce(db, log, Agent, 1, r, input, [], plan, "", now, pid);
    AgentTexts(input, plan, "", [], Choice(plan, "", RowId(o1.log.rows, r + ":" + Spec(Agent, 1).name)));
    var v1 := [JStr(plan)];
    OneLonger([], o1.value.value, v1);
    FreshNext(o1.db, o1.log, Agent, r, input, v1, plan, "", now, pid);
    var o2 := StepOnce(o1.db, o1.log, Agent, 2, r, input, v1, plan, "", now, pid);
    var effectId := RowId(o2.log.rows, r + ":" + Spec(Agent, 2).name);
    AgentTexts(input, plan, "", v1, Choice(plan, "", effectId));
    var tool := AgentTool(effectId);
    var v2 := [JStr(plan), JStr(tool)];
    OneLonger(v1, o2.value.value, v2);
    FreshNext(o2.db, o2.log, Agent, r, input, v2, plan, "", now, pid);
    var o3 := StepOnce(o2.db, o2.log, Agent, 3, r, input, v2, plan, "", now, pid);
    AgentTexts(input, plan, tool, v2, Choice(plan, "", RowId(o3.log.rows, r + ":" + Spec(Agent, 3).name)));
    var v3 := AgentOutputs(Label(input), input.prompt, plan, effectId);
    OneLonger(v2, o3.value.value, v3);
    RunFromEnd(o3.db, o3.log, Agent, r, input, v3, plan, "", now, pid);
  }

  /** The same for a run that waits for a human, with the decision in both texts and in the effect. */
  lemma LoneHitl(db: Db, log: EffectLog, r: RunId, input: WorkflowInput, plan: string, decision: string,
                 now: string, pid: nat)
    requires NoRowsOf(db, r) && RunFrom(db, log, Hitl, r, input, [], plan, decision, now, pid).outputs.Ok?
    ensures var o := RunFrom(db, log, Hitl, r, input, [], plan, decision, now, pid);
      var key := r + ":step4-tool_call";
      && o.outputs == Ok(HitlOutputs(Label(input), input.prompt, plan, decision, RowId(o.log.rows, key)))
      && o.log == Fire(log, Effect(r, Label(input), "step4-tool_call", key, HitlPayload(plan, decision)), now, pid)
  {
    ToolNames(r);
    hide StepOnce, RunFrom, Output, Fire, RowId, HitlTool, HitlAnswer, HitlPayload, Payload, Spec, Len, PauseMarker;
    FreshNext(db, log, Hitl, r, input, [], plan, decision, now, pid);
    var o1 := StepOnce(db, log, Hitl, 1, r, input, [], plan, decision, now, pid);
    HitlTexts(input, plan, decision, "", [], Choice(plan, decision, RowId(o1.log.rows, r + ":" + Spec(Hitl, 1).name)));
    var v1 := [JStr(plan)];
    OneLonger([], o1.value.value, v1);
    FreshNext(o1.db, o1.log, Hitl, r, input, v1, plan, decision, now, pid);
    var o2 := StepOnce(o1.db, o1.log, Hitl, 2, r, input, v1, plan, decision, now, pid);
    HitlTexts(input, plan, decision, "", v1, Choice(plan, decision, RowId(o2.log.rows, r + ":" + Spec(Hitl, 2).name)));
    var v2 := [JStr(plan), PauseMarker(plan)];
    OneLonger(v1, o2.value.value, v2);
    HitlRest(o2.db, o2.log, r, input, plan, decision, now, pid);
  }

  lemma HitlRest(db: Db, log: EffectLog, r: RunId, input: WorkflowInput, plan: string, decision: string,
                 now: string, pid: nat)
    requires forall k: nat | k > 2 :: (r, k) !in db.steps
    requires Len(Hitl) == 5 && var v2 := [JStr(plan), PauseMarker(plan)];
      RunFrom(db, log, Hitl, r, input, v2, plan, decision, now, pid).outputs.Ok?
    ensures var o := RunFrom(db, log, Hitl, r, input, [JStr(plan), PauseMarker(plan)], plan, decision, now, pid);
      var key := r + ":step4-tool_call";
      && o.outputs == Ok(HitlOutputs(Label(input), input.prompt, plan, decision, RowId(o.log.rows, key)))
      && o.log == Fire(log, Effect(r, Label(input), "step4-tool_call", key, HitlPayload(plan, decision)), now, pid)
  {
    ToolNames(r);
    hide StepOnce, RunFrom, Output, Fire, RowId, HitlTool, HitlAnswer, HitlPayload, Payload, Spec, Len, PauseMarker;
    var v2 := [JStr(plan), PauseMarker(plan)];
    FreshNext(db, log, Hitl, r, input, v2, plan, decision, now, pid);
    var o3 := StepOnce(db, log, Hitl, 3, r, input, v2, plan, decision, now, pid);
    HitlTexts(input, plan, decision, "", v2, Choice(plan, decision, RowId(o3.log.rows, r + ":" + Spec(Hitl, 3).name)));
    var v3 := v2 + [JStr(decision)];
    FreshNext(o3.db, o3.log, Hitl, r, input, v3, plan, decision, now, pid);
    var o4 := StepOnce(o3.db, o3.log, Hitl, 4, r, input, v3, plan, decision, now, pid);
    var effectId := RowId(o4.log.rows, r + ":" + Spec(Hitl, 4).name);
    var tool := HitlTool(effectId, decision);
    HitlTexts(input, plan, decision, tool, v3, Choice(plan, decision, effectId));
    var v4 := v3 + [JStr(tool)];
    FreshNext(o4.db, o4.log, Hitl, r, input, v4, plan, decision, now, pid);
    var o5 := StepOnce(o4.db, o4.log, Hitl, 5, r, input, v4, plan, decision, now, pid);
    HitlTexts(input, plan, decision, tool, v4,
      Choice(plan, decision, RowId(o5.log.rows, r + ":" + Spec(Hitl, 5).name)));
    var v5 := HitlOutputs(Label(input), input.prompt, plan, decision, effectId);
    OneLonger(v4, o5.value.value, v5);
    RunFromEnd(o5.db, o5.log, Hitl, r, input, v5, plan, decision, now, pid);
  }

  /** The run handler of AgentRun. */
  method RunAgent(store: JournalStore, log: Sink, r: RunId, input: WorkflowInput, plan: string, now: string, pid: nat)
    returns (outputs: Result<seq<Json>>)
    requires log.Valid()
    modifies store, log
    ensures log.Valid()
    ensures RunOutcome(store.Contents(), log.Contents(), outputs)
      == RunFrom(EnsureMeta(old(store.Contents()), r, Label(input), now), old(log.Contents()), Agent, r, input, [],
        plan, "", now, pid)
    ensures outputs.Ok? && NoRowsOf(old(store.Contents()), r) ==>
      var key := r + ":step2-tool_call";
      && outputs.value == AgentOutputs(Label(input), input.prompt, plan, RowId(log.rows, key))
      && log.Contents() ==
        Fire(old(log.Contents()), Effect(r, Label(input), "step2-tool_call", key, AgentPayload(plan)), now, pid)
  {
    hide RunFrom, AgentOutputs, AgentPayload, Fire, RowId;
    ghost var begun, log0 := EnsureMeta(store.Contents(), r, Label(input), now), log.Contents();
    if NoRowsOf(begun, r) && RunFrom(begun, log0, Agent, r, input, [], plan, "", now, pid).outputs.Ok? {
      LoneAgent(begun, log0, r, input, plan, now, pid);
    }
    store.EnsureRunMeta(r, Label(input), now);
    outputs := Advance(store, log, Agent, r, input, [], plan, "", now, pid);
    if outputs.Err? { return; }
    outputs := Advance(store, log, Agent, r, input, outputs.value, plan, "", now, pid);
    if outputs.Err? { return; }
    outputs := Advance(store, log, Agent, r, input, outputs.value, plan, "", now, pid);
    if outputs.Ok? { RunFromEnd(store.Contents(), log.Contents(), Agent, r, input, outputs.value, plan, "", now, pid); }
  }

  /** The run handler of HitlAgentRun, once the awaited promise holds `decision`. */
  method RunHitl(store: JournalStore, log: Sink, r: RunId, input: WorkflowInput, plan: string, decision: string,
                 now: string, pid: nat)
    returns (outputs: Result<seq<Json>>)
    requires log.Valid()
    modifies store, log
    ensures log.Valid()
    ensures RunOutcome(store.Contents(), log.Contents(), outputs)
      == RunFrom(EnsureMeta(old(store.Contents()), r, Label(input), now), old(log.Contents()), Hitl, r, input, [], plan,
        decision, now, pid)
    ensures outputs.Ok? && NoRowsOf(old(store.Contents()), r) ==>
      var key := r + ":step4-tool_call";
      && outputs.value == HitlOutputs(Label(input), input.prompt, plan, decision, RowId(log.rows, key))
      && log.Contents() ==
        Fire(old(log.Contents()), Effect(r, Label(input), "step4-tool_call", key, HitlPayload(plan, decision)), now,
          pid)
  {
    hide RunFrom, HitlOutputs, HitlPayload, Fire, RowId;
    ghost var begun, log0 := EnsureMeta(store.Contents(), r, Label(input), now), log.Contents();
    if NoRowsOf(begun, r) && RunFrom(begun, log0, Hitl, r, input, [], plan, decision, now, pid).outputs.Ok? {
      LoneHitl(begun, log0, r, input, plan, decision, now, pid);
    }
    store.EnsureRunMeta(r, Label(input), now);
    outputs := Advance(store, log, Hitl, r, input, [], plan, decision, now, pid);
    if outputs.Err? { return; }
    outputs := Advance(store, log, Hitl, r, input, outputs.value, plan, decision, now, pid);
    if outputs.Err? { return; }
    outputs := Advance(store, log, Hitl, r, input, outputs.value, plan, decision, now, pid);
    if outputs.Err? { return; }
    outputs := Advance(store, log, Hitl, r, input, outputs.value, plan, decision, now, pid);
    if outputs.Err? { return; }
    outputs := Advance(store, log, Hitl, r, input, outputs.value, plan, decision, now, pid);
    if outputs.Ok? {
      RunFromEnd(store.Contents(), log.Contents(), Hitl, r, input, outputs.value, plan, decision, now, pid);
    }
  }
}
