/** The neutral vocabulary of a run: journal entries, run metadata and effect rows. */
module StepModel {
  import opened Json
  import opened Wrappers

  type RunId = string

  const PLAN := "plan"
  const TOOL_CALL := "tool_call"
  const SUMMARIZE := "summarize"
  const HITL_PAUSE := "hitl_pause"
  const HITL_INPUT := "hitl_input"

  /** The recorded output of one step, keyed by (runId, seqNo). */
  datatype Entry = Entry(
    runId: RunId, seqNo: nat, stepName: string, kind: string, idemKey: string,
    output: Json, sideEffect: bool, seededFrom: Option<RunId>, recordedAt: string)

  /** Lineage and label of a run. */
  datatype RunMeta = RunMeta(
    runId: RunId, parentRun: Option<RunId>, forkedAtSeq: Option<nat>, trajectory: string, createdAt: string)

  /** One row of the effect log; the payload is stored as text. */
  datatype EffectRow = EffectRow(
    id: nat, runId: RunId, trajectory: string, stepName: string, idemKey: string,
    payload: string, firedAt: string, pid: nat)

  function RunIds(metas: seq<RunMeta>): (ids: seq<RunId>)
    ensures |ids| == |metas| && forall i | 0 <= i < |metas| :: ids[i] == metas[i].runId
  {
    seq(|metas|, i requires 0 <= i < |metas| => metas[i].runId)
  }

  datatype HitlState = NoPause | Paused | Resumed

  /** Paused once a hitl_pause step is journaled, resumed once a hitl_input step is too. */
  function HitlStateOf(steps: seq<Entry>): HitlState
  {
    if !(exists e | e in steps :: e.kind == HITL_PAUSE) then NoPause
    else if exists e | e in steps :: e.kind == HITL_INPUT then Resumed
    else Paused
  }
}
