/** What a run tells its caller and its effect log, spelled out, under any schedule. */
module Answers {
  import opened EffectSink
  import opened Idempotency
  import opened Json
  import opened Lineage
  import opened Protocol
  import opened ProtocolInvariant
  import opened ProtocolSafety
  import opened ProtocolTheorems
  import opened Refinement
  import opened StepModel
  import opened Workflow
  import opened Wrappers

  // ---- Which outputs are texts ----

  predicate IsTextStep(f: Flow, k: nat) { k == 1 || k == InputSeq(f) || k == ToolSeq(f) || k == Len(f) }

  lemma NativeText(c: Core, r: RunId, k: nat)
    requires CoreOk(c) && (r, k) in c.db.steps && c.db.steps[(r, k)].seededFrom.None? && IsTextStep(c.flow(r), k)
    ensures c.db.steps[(r, k)].output.JStr?
  {
    hide MetasOk, RowsOk, KeysUnique, Forest, FitsTable, Sourced, ChoiceOf, HasPrefix;
    assert EntryOk(c, r, k);
    StepHasTable(c, r, k);
  }

  lemma StepHasTable(c: Core, r: RunId, k: nat)
    requires EntriesOk(c) && (r, k) in c.db.steps
    ensures 1 <= k <= Len(c.flow(r))
  {
    assert EntryOk(c, r, k);
  }

  /** The plan, the decision, the tool result and the answer are texts, in forks too. */
  lemma {:induction false} TextStep(c: Core, r: RunId, k: nat, rank: map<RunId, nat>)
    requires CoreOk(c) && Ranked(c.db.metas, rank) && (r, k) in c.db.steps && IsTextStep(c.flow(r), k)
    ensures c.db.steps[(r, k)].output.JStr?
    decreases if r in rank then rank[r] else 0
  {
    hide RowsOk, KeysUnique, EntryOk, SeededThrough, NativeBeyond;
    if c.db.steps[(r, k)].seededFrom.None? {
      NativeText(c, r, k);
    } else {
      SeededStep(c, r, k);
      assert MetaOk(c, r);
      assert Below(c.db.metas[r].parentRun, r, rank);
      TextStep(c, c.db.metas[r].parentRun.value, k, rank);
    }
  }

  lemma ReturnedText(c: Core, x: Returned, k: nat)
    requires CoreOk(c) && ReturnedOk(c, x) && 1 <= k <= |x.vals| && IsTextStep(c.flow(x.run), k)
    ensures x.vals[k - 1].JStr?
  {
    hide EntriesOk, MetasOk, RowsOk, KeysUnique, Ranked, IsTextStep;
    var rank: map<RunId, nat> :| Ranked(c.db.metas, rank);
    assert (x.run, k) in c.db.steps;
    TextStep(c, x.run, k, rank);
  }

  /** A step past the seeded ones made its output from the outputs before it. */
  lemma OwnStep(c: Core, x: Returned, k: nat)
    requires CoreOk(c) && ReturnedOk(c, x) && SeededLen(c.db, x.run) < k <= Len(c.flow(x.run))
    ensures |x.vals| == Len(c.flow(x.run))
    ensures x.vals[k - 1] == Output(c.flow(x.run), k, c.inputs[x.run], x.vals[..k - 1], ChoiceOf(c, x.run))
    ensures Sourced(c, x.run, k)
  {
    hide EntriesOk, MetasOk, RowsOk, KeysUnique, Forest, Output, ChoiceOf, Sourced, IsSafe, SeededLen, Len;
    assert (x.run, k) in c.db.steps;
    NativeAfterSeeds(c, x.run, k);
    assert x.vals[..k - 1] == Outs(c.db, x.run, k - 1);
  }

  // ---- The effect of a run ----

  /** The row a run's own tool step made, whose id the tool result names. */
  lemma OwnRow(c: Core, x: Returned)
    requires CoreOk(c) && ReturnedOk(c, x) && SeededLen(c.db, x.run) < ToolSeq(c.flow(x.run))
    ensures var i := RowIndex(c, x.run);
      && i < |c.sink| && c.sink[i].runId == x.run && c.sink[i].id == ChoiceOf(c, x.run).effectId
      && c.sink[i].payload == Print(Payload(c.flow(x.run), x.vals[..ToolSeq(c.flow(x.run)) - 1]))
  {
    hide EntriesOk, MetasOk, RowsOk, Forest, Output, IsSafe, Payload, HasRow, ToolKey, Len;
    var r, t := x.run, ToolSeq(c.flow(x.run));
    ToolFits(c.flow(r));
    OwnStep(c, x, t);
    assert (r, t) in c.db.steps;
    SafeRun(c, r, t);
    RunRow(c, r);
    RowIdAt(c.sink, RowIndex(c, r));
    assert RowOk(c, RowIndex(c, r));
    assert x.vals[..t - 1] == Outs(c.db, r, t - 1);
  }

  lemma ToolFits(f: Flow)
    ensures 1 <= ToolSeq(f) <= Len(f)
  {
  }

  lemma TableLengths()
    ensures Len(Agent) == 3 && Len(Hitl) == 5
  {
  }

  // ---- The answers ----

  /** Some row of the run has this id and payload. */
  ghost predicate Fired(c: Core, r: RunId, effectId: nat, payload: string)
  {
    exists row | row in c.sink :: row.runId == r && row.id == effectId && row.payload == payload
  }

  /** Whatever happened on the way, the answer of an agent run is spelled out from its branch, its prompt, its
      plan and its tool result; the tool result names the run's own effect, whose payload is the plan. A
      fork has these texts from its parent as far as it was seeded. */
  lemma AgentAnswers(flow: RunId -> Flow, schedule: seq<Action>, x: Returned)
    requires x in Exec(Init(flow), schedule).returned && flow(x.run) == Agent
    ensures var c, r, v := Exec(Init(flow), schedule).core, x.run, x.vals;
      var n := SeededLen(c.db, r);
      && |v| == 3 && v[0].JStr? && v[1].JStr? && v[2].JStr? && r in c.inputs
      && (n < 2 ==> exists id: nat :: v[1].s == AgentTool(id) && Fired(c, r, id, AgentPayload(v[0].s)))
      && (n < 3 ==> v[2].s == AgentAnswer(Label(c.inputs[r]), c.inputs[r].prompt, v[0].s, v[1].s))
  {
    hide Exec, CoreOk, SeededLen, AgentTool, AgentAnswer, AgentPayload, Payload, Output, ChoiceOf;
    var c, r, v := Exec(Init(flow), schedule).core, x.run, x.vals;
    ReturnedGood(flow, schedule, x);
    TableLengths();
    ReturnedText(c, x, 1);
    ReturnedText(c, x, 2);
    ReturnedText(c, x, 3);
    hide ReturnedOk;
    var n, choice := SeededLen(c.db, r), ChoiceOf(c, r);
    if n < 2 {
      OwnStep(c, x, 2);
      OwnRow(c, x);
      AgentTexts(c.inputs[r], v[0].s, "", v[..1], choice);
      assert c.sink[RowIndex(c, r)] in c.sink;
    }
    if n < 3 {
      OwnStep(c, x, 3);
      AgentTexts(c.inputs[r], v[0].s, v[1].s, v[..2], choice);
    }
  }

  lemma ReturnedGood(flow: RunId -> Flow, schedule: seq<Action>, x: Returned)
    requires x in Exec(Init(flow), schedule).returned
    ensures var s := Exec(Init(flow), schedule);
      && CoreOk(s.core) && ReturnedOk(s.core, x) && s.core.flow == flow && x.run in s.core.inputs
      && |x.vals| == Len(flow(x.run)) && AcceptedOk(s.core.promise, s.accepted)
  {
    hide Exec, CoreOk, WorkerOk, ForkerOk, LogOk, AcceptedOk, Len;
    Invariant(flow, schedule);
    FlowFixed(flow, schedule);
  }

  /** The same for a run that waits for a human: unless a fork seeded them, the decision is the first one
      that was accepted, and it stands in the tool result, in the effect's payload and in the answer. */
  lemma HitlAnswers(flow: RunId -> Flow, schedule: seq<Action>, x: Returned)
    requires x in Exec(Init(flow), schedule).returned && flow(x.run) == Hitl
    ensures var s := Exec(Init(flow), schedule);
      var c, r, v := s.core, x.run, x.vals;
      var n := SeededLen(c.db, r);
      && |v| == 5 && v[0].JStr? && v[2].JStr? && v[3].JStr? && v[4].JStr? && r in c.inputs
      && (n < 2 ==> v[1] == PauseMarker(v[0].s))
      && (n < 3 ==> FirstFor(s.accepted, r) == Some(v[2].s))
      && (n < 4 ==>
            exists id: nat :: v[3].s == HitlTool(id, v[2].s) && Fired(c, r, id, HitlPayload(v[0].s, v[2].s)))
      && (n < 5 ==> v[4].s == HitlAnswer(Label(c.inputs[r]), c.inputs[r].prompt, v[0].s, v[2].s, v[3].s))
  {
    hide Exec, CoreOk, SeededLen, HitlTool, HitlAnswer, HitlPayload, PauseMarker, Payload, Output, FirstFor;
    var s := Exec(Init(flow), schedule);
    var c, r, v := s.core, x.run, x.vals;
    ReturnedGood(flow, schedule, x);
    TableLengths();
    ReturnedText(c, x, 1);
    ReturnedText(c, x, 3);
    ReturnedText(c, x, 4);
    ReturnedText(c, x, 5);
    hide ReturnedOk;
    var n, choice := SeededLen(c.db, r), ChoiceOf(c, r);
    var plan, decision, tool := v[0].s, v[2].s, v[3].s;
    if n < 2 {
      OwnStep(c, x, 2);
      HitlTexts(c.inputs[r], plan, "", "", v[..1], choice);
    }
    if n < 3 {
      OwnStep(c, x, 3);
      HitlTexts(c.inputs[r], plan, "", "", v[..2], choice);
    }
    if n < 4 {
      OwnStep(c, x, 4);
      OwnRow(c, x);
      HitlTexts(c.inputs[r], plan, decision, "", v[..3], choice);
      assert c.sink[RowIndex(c, r)] in c.sink;
    }
    if n < 5 {
      OwnStep(c, x, 5);
      HitlTexts(c.inputs[r], plan, decision, tool, v[..4], choice);
    }
  }

  /** Every row of the effect log, also of runs that never return, carries what its run had journaled. */
  lemma EffectTexts(flow: RunId -> Flow, schedule: seq<Action>, i: nat)
    requires i < |Exec(Init(flow), schedule).core.sink|
    ensures var c := Exec(Init(flow), schedule).core;
      var row := c.sink[i];
      var plan, decision := OutAt(c.db, row.runId, 1), OutAt(c.db, row.runId, 3);
      && plan.JStr? && row.runId in c.inputs && row.trajectory == Label(c.inputs[row.runId])
      && if flow(row.runId) == Agent
         then row.stepName == "step2-tool_call" && row.payload == AgentPayload(plan.s)
         else row.stepName == "step4-tool_call" && decision.JStr? && row.payload == HitlPayload(plan.s, decision.s)
  {
    hide Exec, EntriesOk, MetasOk, KeysUnique, Ranked, IsSafe, AgentPayload, HitlPayload, Payload, Print;
    Invariant(flow, schedule);
    FlowFixed(flow, schedule);
    var c := Exec(Init(flow), schedule).core;
    assert RowOk(c, i);
    var r := c.sink[i].runId;
    var rank: map<RunId, nat> :| Ranked(c.db.metas, rank);
    var vals := Outs(c.db, r, ToolSeq(flow(r)) - 1);
    ToolNames(r);
    assert (r, 1) in c.db.steps;
    TextStep(c, r, 1, rank);
    if flow(r) == Agent {
      AgentTexts(c.inputs[r], OutAt(c.db, r, 1).s, "", vals, ChoiceOf(c, r));
    } else {
      assert (r, 3) in c.db.steps;
      TextStep(c, r, 3, rank);
      HitlTexts(c.inputs[r], OutAt(c.db, r, 1).s, OutAt(c.db, r, 3).s, "", vals, ChoiceOf(c, r));
    }
  }
}
