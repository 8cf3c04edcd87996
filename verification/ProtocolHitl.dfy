/** Human input: the first decision to resolve the promise is the one the run records and acts on,
    and a run only ever moves from no pause to paused to resumed. */
module ProtocolHitl {
  import opened EffectSink
  import opened Idempotency
  import opened Journal
  import opened Json
  import opened Lineage
  import opened Protocol
  import opened ProtocolInvariant
  import opened ProtocolSafety
  import opened ProtocolTheorems
  import opened ProtocolWrites
  import opened Refinement
  import opened StepModel
  import opened Workflow
  import opened Wrappers

  // ---- First decision wins ----

  lemma NativeDecision(c: Core, r: RunId)
    requires CoreOk(c) && c.flow(r) == Hitl && (r, 3) in c.db.steps && c.db.steps[(r, 3)].seededFrom.None?
    ensures r in c.promise && c.db.steps[(r, 3)].output == JStr(c.promise[r])
  {
    hide RowsOk, MetasOk, KeysUnique, Forest, FitsTable;
    assert EntryOk(c, r, 3);
  }

  lemma EffectPayload(c: Core, i: nat)
    requires CoreOk(c) && i < |c.sink| && c.flow(c.sink[i].runId) == Hitl
    ensures var r := c.sink[i].runId;
      (r, 3) in c.db.steps
      && c.sink[i].payload == Print(JObj([("plan", OutAt(c.db, r, 1)), ("humanDecision", OutAt(c.db, r, 3))]))
  {
    hide EntriesOk, MetasOk, KeysUnique, Forest, Print, IsSafe;
    assert RowOk(c, i);
    var o := Outs(c.db, c.sink[i].runId, 3);
    assert o[0] == OutAt(c.db, c.sink[i].runId, 1) && o[2] == OutAt(c.db, c.sink[i].runId, 3);
  }

  /** Over any interleaving of pauses, crashes, provideInput calls and offline flushes: a native
      hitl_input entry, and the payload of the run's effect, hold the decision of the first call
      that was answered accepted — and go on holding it. Later accepted calls change nothing. */
  lemma FirstDecisionWins(flow: RunId -> Flow, schedule: seq<Action>, more: seq<Action>, r: RunId)
    requires flow(r) == Hitl
    requires var steps := Exec(Init(flow), schedule).core.db.steps; (r, 3) in steps && steps[(r, 3)].seededFrom.None?
    ensures var first := FirstFor(Exec(Init(flow), schedule).accepted, r);
      var later := Exec(Init(flow), schedule + more);
      && first.Some?
      && FirstFor(later.accepted, r) == first
      && (r, 3) in later.core.db.steps && later.core.db.steps[(r, 3)].output == JStr(first.value)
      && forall row | row in later.core.sink && row.runId == r ::
           row.payload == Print(JObj([("plan", OutAt(later.core.db, r, 1)), ("humanDecision", JStr(first.value))]))
  {
    hide CoreOk, Exec, FirstFor, Print, WorkerOk, ForkerOk, LogOk, ReturnedOk;
    Invariant(flow, schedule);
    Invariant(flow, schedule + more);
    FlowFixed(flow, schedule);
    FlowFixed(flow, schedule + more);
    var s, later := Exec(Init(flow), schedule), Exec(Init(flow), schedule + more);
    ExecAppend(Init(flow), schedule, more);
    ScheduleSafe(s, more);
    NativeDecision(s.core, r);
    DecisionKept(s.core, later.core, r);
    forall row | row in later.core.sink && row.runId == r
      ensures row.payload == Print(JObj([("plan", OutAt(later.core.db, r, 1)),
        ("humanDecision", OutAt(later.core.db, r, 3))]))
    {
      var i :| 0 <= i < |later.core.sink| && later.core.sink[i] == row;
      EffectPayload(later.core, i);
    }
  }

  lemma DecisionKept(c: Core, c': Core, r: RunId)
    requires Grows(c, c') && r in c.promise && (r, 3) in c.db.steps
    ensures r in c'.promise && c'.promise[r] == c.promise[r]
    ensures (r, 3) in c'.db.steps && c'.db.steps[(r, 3)] == c.db.steps[(r, 3)]
  {
    hide Settled;
  }

  lemma PeekUnresolved(s: State, c: nat, call: Call)
    requires call.run !in s.core.promise && c !in s.calls
    ensures Step(s, Peek(c, call.run, call.decision)) == s.(calls := s.calls[c := call])
  {
    hide StepWorker, StepFork, HitlStateIn;
  }

  lemma ResolvePending(s: State, c: nat)
    requires c in s.calls
    ensures Step(s, Resolve(c)) ==
      s.(core := CoreResolve(s.core, s.calls[c]), accepted := s.accepted + [s.calls[c]], calls := s.calls - {c})
  {
    hide StepWorker, StepFork, HitlStateIn, CoreResolve;
  }

  /** Peek and resolve are two steps, so while a promise is unresolved two providers can both be
      told their input was accepted; only the first one's decision counts. */
  lemma TwoProvidersAccepted(s: State, c1: nat, c2: nat, first: Call, second: Call)
    requires first.run == second.run && first.run !in s.core.promise && c1 != c2 && c1 !in s.calls && c2 !in s.calls
    ensures var peeked := Step(Step(s, Peek(c1, first.run, first.decision)), Peek(c2, second.run, second.decision));
      var done := Step(Step(peeked, Resolve(c1)), Resolve(c2));
      done.accepted == s.accepted + [first] + [second]
        && done.core.promise == s.core.promise[first.run := first.decision]
  {
    hide Step;
    PeekUnresolved(s, c1, first);
    var s1 := Step(s, Peek(c1, first.run, first.decision));
    PeekUnresolved(s1, c2, second);
    var s2 := Step(s1, Peek(c2, second.run, second.decision));
    ResolvePending(s2, c1);
    ResolvePending(Step(s2, Resolve(c1)), c2);
  }

  // ---- hitlState ----

  function HitlRank(h: HitlState): nat
  {
    match h case NoPause => 0 case Paused => 1 case Resumed => 2
  }

  /** The HITL state of a reachable run, read off its entries. */
  lemma HitlStateExact(c: Core, r: RunId)
    requires CoreOk(c)
    ensures HitlStateIn(c.db, r) ==
      if c.flow(r) == Agent || (r, 2) !in c.db.steps then NoPause
      else if (r, 3) in c.db.steps then Resumed else Paused
  {
    hide EntryOk, MetasOk, RowsOk, KeysUnique, Forest, Spec;
    var m := RunLength(c, r);
    TrajectoryContiguous(c.db, r, m);
    hide Trajectory;
    var t := Trajectory(c.db, r);
    forall i | 0 <= i < m
      ensures t[i].kind == HITL_PAUSE <==> c.flow(r) == Hitl && i == 1
      ensures t[i].kind == HITL_INPUT <==> c.flow(r) == Hitl && i == 2
    {
      KindOf(c, r, i + 1);
    }
    if c.flow(r) == Hitl && m >= 2 { assert t[1] in t; }
    if c.flow(r) == Hitl && m >= 3 { assert t[2] in t; }
  }

  lemma KindOf(c: Core, r: RunId, k: nat)
    requires EntriesOk(c) && (r, k) in c.db.steps
    ensures c.db.steps[(r, k)].kind == HITL_PAUSE <==> c.flow(r) == Hitl && k == 2
    ensures c.db.steps[(r, k)].kind == HITL_INPUT <==> c.flow(r) == Hitl && k == 3
  {
    assert EntryOk(c, r, k);
    hide NativeOk, HasPrefix;
    StepKinds(c.flow(r), k);
  }

  lemma RankGrows(c: Core, c': Core, r: RunId)
    requires CoreOk(c) && CoreOk(c') && Grows(c, c')
    ensures HitlRank(HitlStateIn(c.db, r)) <= HitlRank(HitlStateIn(c'.db, r))
  {
    hide CoreOk, HitlStateIn, Settled;
    HitlStateExact(c, r);
    HitlStateExact(c', r);
  }

  /** hitlState never moves backwards, under any continuation of any schedule. */
  lemma HitlMonotone(flow: RunId -> Flow, schedule: seq<Action>, more: seq<Action>, r: RunId)
    ensures HitlRank(HitlStateIn(Exec(Init(flow), schedule).core.db, r))
      <= HitlRank(HitlStateIn(Exec(Init(flow), schedule + more).core.db, r))
  {
    hide CoreOk, Exec, HitlStateIn, WorkerOk, ForkerOk, LogOk, ReturnedOk, AcceptedOk, Grows;
    Invariant(flow, schedule);
    var s := Exec(Init(flow), schedule);
    ExecAppend(Init(flow), schedule, more);
    ScheduleSafe(s, more);
    RankGrows(s.core, Exec(s, more).core, r);
  }

  // ---- Which actions write the journal ----

  lemma OtherWorkerStepsKeepEntries(s: State, w: nat, a: Action)
    requires w in s.workers && !a.Insert?
    ensures StepWorker(s, w, a).core.db.steps == s.core.db.steps
  {
    hide EnsureRunStep, AwaitStep, ReplayStep, ReadStep, ProduceStep, FireStep, InsertStepOf, CommitStep, ReturnStep;
  }

  lemma InsertAddsOne(s: State, w: nat, now: string)
    requires w in s.workers
    ensures var s', me := StepWorker(s, w, Insert(w, now)), s.workers[w];
      forall p | p in s'.core.db.steps && p !in s.core.db.steps ::
        p == (me.run, Next(me)) && s'.core.db.steps[p].seededFrom.None?
  {
    hide EnsureRunStep, AwaitStep, ReplayStep, ReadStep, ProduceStep, FireStep;
    hide CommitStep, ReturnStep, KeyTaken, Spec, StepKey;
  }

  lemma ForkAddsTarget(s: State, f: nat, a: Action)
    requires StateOk(s) && f in s.forkers
    ensures var s', plan := StepFork(s, f, a), s.forkers[f].plan;
      forall p | p in s'.core.db.steps && p !in s.core.db.steps ::
        a.CommitForkRun? && p.0 == plan.newRunId && p.1 <= plan.throughSeq && (p.0, 1) !in s.core.db.steps
  {
    hide CoreOk, WorkerOk, LogOk, ReturnedOk, AcceptedOk, RowsThrough;
    var me, c := s.forkers[f], s.core;
    if a.CommitForkRun? && me.Loaded? && me.plan.throughSeq >= 0 {
      CommitAdds(c, me, a.now);
      hide CommitFork;
    }
  }

  lemma CommitAdds(c: Core, me: Forker, now: string)
    requires CoreOk(c) && ForkerOk(c, me) && me.Loaded?
    ensures var result := CommitFork(c.db, me.rows, me.plan.sourceRunId, me.plan.newRunId, me.plan.throughSeq,
      me.plan.trajectory, now);
      result.Some? ==> forall p | p in result.value.steps && p !in c.db.steps ::
        p.0 == me.plan.newRunId && p.1 <= me.plan.throughSeq && (p.0, 1) !in c.db.steps
  {
    hide CommitFork, EntryOk, MetasOk, RowsOk, KeysUnique, Ranked, IsSafe;
    var src, dst, n := me.plan.sourceRunId, me.plan.newRunId, me.plan.throughSeq;
    StepHasMeta(c, src, n);
    forall k: nat | 1 <= k <= n ensures (src, k) in c.db.steps && c.db.steps[(src, k)].seqNo == k {
      assert (src, k) in c.db.steps;
      SeqNoOf(c, src, k);
    }
    if CommitFork(c.db, me.rows, src, dst, n, me.plan.trajectory, now).Some? {
      CommitForkForks(c.db, me.rows, src, dst, n, me.plan.trajectory, now);
      assert (dst, 1) !in c.db.steps;
    }
  }

  lemma InputKeepsEntries(s: State, a: Action)
    ensures StepInput(s, a).core.db == s.core.db
  {
    hide HitlStateIn;
  }

  /** What a single action can add to the journal: one native entry, or a fork's copies. */
  lemma StepAdds(s: State, a: Action)
    requires StateOk(s)
    ensures var s' := Step(s, a);
      forall p | p in s'.core.db.steps && p !in s.core.db.steps ::
        || (a.Insert? && a.w in s.workers && p == (s.workers[a.w].run, Next(s.workers[a.w]))
           && s'.core.db.steps[p].seededFrom.None?)
        || (a.CommitForkRun? && a.f in s.forkers && p.0 == s.forkers[a.f].plan.newRunId
            && p.1 <= s.forkers[a.f].plan.throughSeq && (p.0, 1) !in s.core.db.steps)
  {
    hide StateOk, StepWorker, StepFork, StepInput, ForkPlanError, HitlStateIn, Next, CoreResolve;
    InputKeepsEntries(s, a);
    match a
    case Insert(w, now) => if w in s.workers { InsertAddsOne(s, w, now); }
    case LoadRows(f) => if f in s.forkers { ForkAddsTarget(s, f, a); }
    case CommitForkRun(f, _) => if f in s.forkers { ForkAddsTarget(s, f, a); }
    case DropFork(f) => if f in s.forkers { ForkAddsTarget(s, f, a); }
    case Submit(_, _) =>
    case Spawn(_, _) =>
    case ValidateFork(_, _) =>
    case Peek(_, _, _) =>
    case Resolve(_) =>
    case DropCall(_) =>
    case Enqueue(_, _, _) =>
    case FlushPeek(_, _, _) =>
    case FlushMark(_, _) =>
    case _ => if a.w in s.workers { OtherWorkerStepsKeepEntries(s, a.w, a); }
  }

  /** A run goes straight from no pause to resumed in one step only when a fork seeds its decision. */
  lemma OnlyForksSkipThePause(flow: RunId -> Flow, schedule: seq<Action>, a: Action, r: RunId)
    requires HitlStateIn(Exec(Init(flow), schedule).core.db, r) == NoPause
    requires HitlStateIn(Step(Exec(Init(flow), schedule), a).core.db, r) == Resumed
    ensures var s := Exec(Init(flow), schedule);
      a.CommitForkRun? && a.f in s.forkers && s.forkers[a.f].plan.newRunId == r && s.forkers[a.f].plan.throughSeq >= 3
  {
    hide CoreOk, Exec, HitlStateIn, Step, WorkerOk, ForkerOk, LogOk, ReturnedOk, AcceptedOk, Settled;
    Invariant(flow, schedule);
    var s := Exec(Init(flow), schedule);
    StepSafe(s, a);
    HitlStateExact(s.core, r);
    HitlStateExact(Step(s, a).core, r);
    StepAdds(s, a);
    ContiguousThree(s.core, r);
  }

  lemma ContiguousThree(c: Core, r: RunId)
    requires CoreOk(c)
    ensures (r, 3) in c.db.steps ==> (r, 2) in c.db.steps
  {
    hide EntryOk, MetasOk, RowsOk, KeysUnique, Forest;
    if (r, 3) in c.db.steps { StepHasMeta(c, r, 3); }
  }
}
