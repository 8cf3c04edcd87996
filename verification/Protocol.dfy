/** The durable step protocol as a transition system: any number of workers, forks and input
    providers, interleaved at every read and write, and able to crash between any two. */
module Protocol {
  import opened EffectSink
  import opened Idempotency
  import opened Journal
  import opened Json
  import opened StepModel
  import opened Text
  import opened Workflow
  import opened Wrappers

  /** What outlives every process: the two databases, the workflow inputs the substrate keeps
      per key, and its resolve-once promises. `flow` says which workflow a run id is used for. */
  datatype Core = Core(
    flow: RunId -> Flow,
    inputs: map<RunId, WorkflowInput>,
    db: Db,
    sink: seq<EffectRow>,
    lastId: nat,
    promise: map<RunId, string>)

  /** Where a handler stands in the step after the ones in `vals`. */
  datatype Pc =
    | Start                    // before ensureRunMeta
    | Ready                    // about to enter ctx.run
    | Missed                   // the journal had no row; the producer is about to run
    | Produced(value: Json)    // the producer returned; the insert is next
    | Got(value: Json)         // recordStep returned; the substrate has not stored it yet

  /** A handler attempt: all of it is lost in a crash. */
  datatype Worker = Worker(run: RunId, human: Option<string>, vals: seq<Json>, pc: Pc)

  /** A fork request: validated, then holding the rows it read, then one transaction. */
  datatype Forker = Validated(plan: ForkPlan) | Loaded(plan: ForkPlan, rows: seq<Entry>)

  /** A provideInput call that found the promise unresolved. */
  datatype Call = Call(run: RunId, decision: string)

  datatype Queued = Queued(decision: string, flushed: bool)

  datatype Returned = Returned(run: RunId, vals: seq<Json>)

  datatype State = State(
    core: Core,
    log: map<(RunId, nat), Json>,          // the substrate's results of ctx.run
    workers: map<nat, Worker>,
    forkers: map<nat, Forker>,
    calls: map<nat, Call>,
    accepted: seq<Call>,                   // provideInput calls answered accepted: true
    queue: map<(string, RunId), Queued>,   // pending_hitl
    returned: set<Returned>)

  function Init(flow: RunId -> Flow): State
  {
    State(Core(flow, map[], EMPTY_DB, [], 0, map[]), map[], map[], map[], map[], [], map[], {})
  }

  datatype Action =
    | Submit(r: RunId, input: WorkflowInput)
    | Spawn(w: nat, r: RunId)
    | EnsureRun(w: nat, now: string)
    | AwaitInput(w: nat)
    | Replay(w: nat)
    | Read(w: nat)
    | CallProducer(w: nat, answer: string)
    | FireTool(w: nat, now: string, pid: nat)
    | Insert(w: nat, now: string)
    | Commit(w: nat)
    | Return(w: nat)
    | Crash(w: nat)
    | ValidateFork(f: nat, plan: ForkPlan)
    | LoadRows(f: nat)
    | CommitForkRun(f: nat, now: string)
    | DropFork(f: nat)
    | Peek(c: nat, r: RunId, decision: string)
    | Resolve(c: nat)
    | DropCall(c: nat)
    | Enqueue(origin: string, r: RunId, decision: string)
    | FlushPeek(c: nat, origin: string, r: RunId)
    | FlushMark(origin: string, r: RunId)

  // ---- Helpers over the shared state ----

  function Next(w: Worker): nat { |w.vals| + 1 }

  function ToolName(f: Flow): string { Spec(f, ToolSeq(f)).name }

  function StepKey(f: Flow, k: nat, r: RunId): string
    requires 1 <= k <= Len(f)
  {
    r + ":" + Spec(f, k).name
  }

  function ToolKey(c: Core, r: RunId): string { StepKey(c.flow(r), ToolSeq(c.flow(r)), r) }

  /** The worker's next step exists and, if it is the human input, the promise has been awaited. */
  predicate CanEnter(c: Core, w: Worker)
  {
    Next(w) <= Len(c.flow(w.run)) && (Next(w) == InputSeq(c.flow(w.run)) ==> w.human.Some?)
  }

  function OrEmpty(o: Option<string>): string { if o.Some? then o.value else "" }

  // ---- Writes to the shared state ----

  function CoreSubmit(c: Core, r: RunId, input: WorkflowInput): Core
  {
    if r in c.inputs then c else c.(inputs := c.inputs[r := input])
  }

  function CoreEnsure(c: Core, r: RunId, now: string): Core
    requires r in c.inputs
  {
    c.(db := EnsureMeta(c.db, r, Label(c.inputs[r]), now))
  }

  function LogOf(c: Core): EffectLog { EffectLog(c.sink, c.lastId) }

  function CoreFire(c: Core, r: RunId, vals: seq<Json>, now: string, pid: nat): Core
    requires r in c.inputs && |vals| >= ToolSeq(c.flow(r)) - 1
  {
    var log := Fire(LogOf(c), EffectOf(c.flow(r), r, c.inputs[r], ToolKey(c, r), vals), now, pid);
    c.(sink := log.rows, lastId := log.lastId)
  }

  function NewEntry(c: Core, r: RunId, k: nat, v: Json, now: string): Entry
    requires 1 <= k <= Len(c.flow(r))
  {
    NativeEntry(ArgsOf(c.flow(r), k, r), StepKey(c.flow(r), k, r), v, now)
  }

  function CoreResolve(c: Core, call: Call): Core
  {
    if call.run in c.promise then c else c.(promise := c.promise[call.run := call.decision])
  }

  // ---- One transition; an action that is not enabled changes nothing ----

  function SetWorker(s: State, w: nat, worker: Worker): State { s.(workers := s.workers[w := worker]) }

  function DropWorker(s: State, w: nat): State { s.(workers := s.workers - {w}) }

  function EnsureRunStep(s: State, w: nat, me: Worker, now: string): (s': State)
    ensures s'.core.db.steps == s.core.db.steps && s'.core.sink == s.core.sink
    ensures s'.calls == s.calls && s'.accepted == s.accepted && s'.core.promise == s.core.promise
    ensures s'.core.inputs == s.core.inputs && s'.core.flow == s.core.flow
  {
    if me.pc.Start? && me.run in s.core.inputs
    then SetWorker(s.(core := CoreEnsure(s.core, me.run, now)), w, me.(pc := Ready))
    else s
  }

  /** ctx.promise: the handler goes on only once the promise is resolved. */
  function AwaitStep(s: State, w: nat, me: Worker): (s': State)
    ensures s'.core == s.core
    ensures s'.calls == s.calls && s'.accepted == s.accepted && s'.core.promise == s.core.promise
    ensures s'.core.inputs == s.core.inputs && s'.core.flow == s.core.flow
  {
    if me.pc.Ready? && Next(me) == InputSeq(s.core.flow(me.run)) && me.run in s.core.promise
    then SetWorker(s, w, me.(human := Some(s.core.promise[me.run])))
    else s
  }

  /** ctx.run of a step the substrate already holds the result of. */
  function ReplayStep(s: State, w: nat, me: Worker): (s': State)
    ensures s'.core == s.core
    ensures s'.calls == s.calls && s'.accepted == s.accepted && s'.core.promise == s.core.promise
    ensures s'.core.inputs == s.core.inputs && s'.core.flow == s.core.flow
  {
    if me.pc.Ready? && CanEnter(s.core, me) && (me.run, Next(me)) in s.log
    then SetWorker(s, w, me.(vals := me.vals + [s.log[(me.run, Next(me))]]))
    else s
  }

  /** recordStep up to and including its SELECT; an unsafe key throws. */
  function ReadStep(s: State, w: nat, me: Worker): (s': State)
    ensures s'.core == s.core
    ensures s'.calls == s.calls && s'.accepted == s.accepted && s'.core.promise == s.core.promise
    ensures s'.core.inputs == s.core.inputs && s'.core.flow == s.core.flow
  {
    if !(me.pc.Ready? && CanEnter(s.core, me) && (me.run, Next(me)) !in s.log) then s
    else if DeriveKey(me.run, Spec(s.core.flow(me.run), Next(me)).name).Err? then DropWorker(s, w)
    else match Lookup(s.core.db, me.run, Next(me))
      case Some(v) => SetWorker(s, w, me.(pc := Got(v)))
      case None => SetWorker(s, w, me.(pc := Missed))
  }

  /** A producer without a side effect. */
  function ProduceStep(s: State, w: nat, me: Worker, answer: string): (s': State)
    ensures s'.core == s.core
    ensures s'.calls == s.calls && s'.accepted == s.accepted && s'.core.promise == s.core.promise
    ensures s'.core.inputs == s.core.inputs && s'.core.flow == s.core.flow
  {
    var f := s.core.flow(me.run);
    if me.pc.Missed? && Next(me) <= Len(f) && Next(me) != ToolSeq(f) && me.run in s.core.inputs
    then
      var choice := Choice(answer, OrEmpty(me.human), 0);
      SetWorker(s, w, me.(pc := Produced(Output(f, Next(me), s.core.inputs[me.run], me.vals, choice))))
    else s
  }

  /** The tool's producer: fire the effect, then build the output from the row's id. */
  function FireStep(s: State, w: nat, me: Worker, now: string, pid: nat): (s': State)
    ensures s'.core.db == s.core.db
    ensures s'.calls == s.calls && s'.accepted == s.accepted && s'.core.promise == s.core.promise
    ensures s'.core.inputs == s.core.inputs && s'.core.flow == s.core.flow
  {
    var f := s.core.flow(me.run);
    if me.pc.Missed? && Next(me) == ToolSeq(f) && me.run in s.core.inputs then
      var c' := CoreFire(s.core, me.run, me.vals, now, pid);
      var choice := Choice("", "", RowId(c'.sink, ToolKey(s.core, me.run)));
      SetWorker(s.(core := c'), w, me.(pc := Produced(Output(f, Next(me), s.core.inputs[me.run], me.vals, choice))))
    else s
  }

  /** The INSERT of recordStep; losing a race throws, and the attempt is abandoned. */
  function InsertStepOf(s: State, w: nat, me: Worker, now: string): (s': State)
    ensures s'.core.sink == s.core.sink
    ensures s'.calls == s.calls && s'.accepted == s.accepted && s'.core.promise == s.core.promise
    ensures s'.core.inputs == s.core.inputs && s'.core.flow == s.core.flow
  {
    if me.pc.Produced? && Next(me) <= Len(s.core.flow(me.run)) then
      match InsertStep(s.core.db, NewEntry(s.core, me.run, Next(me), me.pc.value, now))
      case None => DropWorker(s, w)
      case Some(db') => SetWorker(s.(core := s.core.(db := db')), w, me.(pc := Got(me.pc.value)))
    else s
  }

  function CommitStep(s: State, w: nat, me: Worker): (s': State)
    ensures s'.core == s.core
    ensures s'.calls == s.calls && s'.accepted == s.accepted && s'.core.promise == s.core.promise
    ensures s'.core.inputs == s.core.inputs && s'.core.flow == s.core.flow
  {
    if me.pc.Got?
    then SetWorker(s.(log := s.log[(me.run, Next(me)) := me.pc.value]), w,
      me.(vals := me.vals + [me.pc.value], pc := Ready))
    else s
  }

  function ReturnStep(s: State, w: nat, me: Worker): (s': State)
    ensures s'.core == s.core
    ensures s'.calls == s.calls && s'.accepted == s.accepted && s'.core.promise == s.core.promise
    ensures s'.core.inputs == s.core.inputs && s'.core.flow == s.core.flow
  {
    if me.pc.Ready? && |me.vals| == Len(s.core.flow(me.run))
    then DropWorker(s.(returned := s.returned + {Returned(me.run, me.vals)}), w)
    else s
  }

  function StepWorker(s: State, w: nat, a: Action): State
    requires w in s.workers
  {
    var me := s.workers[w];
    match a
    case EnsureRun(_, now) => EnsureRunStep(s, w, me, now)
    case AwaitInput(_) => AwaitStep(s, w, me)
    case Replay(_) => ReplayStep(s, w, me)
    case Read(_) => ReadStep(s, w, me)
    case CallProducer(_, answer) => ProduceStep(s, w, me, answer)
    case FireTool(_, now, pid) => FireStep(s, w, me, now, pid)
    case Insert(_, now) => InsertStepOf(s, w, me, now)
    case Commit(_) => CommitStep(s, w, me)
    case Return(_) => ReturnStep(s, w, me)
    case Crash(_) => DropWorker(s, w)
    case _ => s
  }

  function LoadStep(s: State, f: nat, me: Forker): (s': State)
    ensures s'.calls == s.calls && s'.accepted == s.accepted && s'.core.promise == s.core.promise
    ensures s'.core.inputs == s.core.inputs && s'.core.flow == s.core.flow
  {
    if me.Validated? && me.plan.throughSeq >= 0
    then s.(forkers := s.forkers[f := Loaded(me.plan, RowsThrough(s.core.db, me.plan.sourceRunId, me.plan.throughSeq))])
    else s
  }

  function CommitForkStep(s: State, f: nat, me: Forker, now: string): (s': State)
    ensures s'.calls == s.calls && s'.accepted == s.accepted && s'.core.promise == s.core.promise
    ensures s'.core.inputs == s.core.inputs && s'.core.flow == s.core.flow
  {
    if me.Loaded? && me.plan.throughSeq >= 0 then
      var done := s.(forkers := s.forkers - {f});
      match CommitFork(s.core.db, me.rows, me.plan.sourceRunId, me.plan.newRunId, me.plan.throughSeq,
        me.plan.trajectory, now)
      case None => done
      case Some(db') => done.(core := s.core.(db := db'))
    else s
  }

  function StepFork(s: State, f: nat, a: Action): State
    requires f in s.forkers
  {
    var me := s.forkers[f];
    match a
    case LoadRows(_) => LoadStep(s, f, me)
    case CommitForkRun(_, now) => CommitForkStep(s, f, me, now)
    case DropFork(_) => s.(forkers := s.forkers - {f})
    case _ => s
  }

  /** provideInput: peek, then resolve; and the offline queue's way of calling it. */
  function StepInput(s: State, a: Action): State
  {
    match a
    case Peek(c, r, decision) =>
      if c !in s.calls && r !in s.core.promise then s.(calls := s.calls[c := Call(r, decision)]) else s
    case Resolve(c) =>
      if c in s.calls
      then s.(core := CoreResolve(s.core, s.calls[c]), accepted := s.accepted + [s.calls[c]], calls := s.calls - {c})
      else s
    case DropCall(c) => s.(calls := s.calls - {c})
    case Enqueue(origin, r, decision) => s.(queue := s.queue[(origin, r) := Queued(decision, false)])
    case FlushPeek(c, origin, r) =>
      if (origin, r) in s.queue && !s.queue[(origin, r)].flushed && HitlStateIn(s.core.db, r) == Paused
        && c !in s.calls && r !in s.core.promise
      then s.(calls := s.calls[c := Call(r, s.queue[(origin, r)].decision)])
      else s
    case FlushMark(origin, r) =>
      if (origin, r) in s.queue
      then s.(queue := s.queue[(origin, r) := s.queue[(origin, r)].(flushed := true)])
      else s
    case _ => s
  }

  function Step(s: State, a: Action): State
  {
    match a
    case Submit(r, input) => s.(core := CoreSubmit(s.core, r, input))
    case Spawn(w, r) =>
      if w !in s.workers && r in s.core.inputs then SetWorker(s, w, Worker(r, None, [], Start)) else s
    case ValidateFork(f, plan) =>
      if f !in s.forkers && ForkPlanError(s.core.db, plan).None?
        && s.core.flow(plan.sourceRunId) == s.core.flow(plan.newRunId)
      then s.(forkers := s.forkers[f := Validated(plan)])
      else s
    case LoadRows(f) => if f in s.forkers then StepFork(s, f, a) else s
    case CommitForkRun(f, _) => if f in s.forkers then StepFork(s, f, a) else s
    case DropFork(f) => if f in s.forkers then StepFork(s, f, a) else s
    case Peek(_, _, _) => StepInput(s, a)
    case Resolve(_) => StepInput(s, a)
    case DropCall(_) => StepInput(s, a)
    case Enqueue(_, _, _) => StepInput(s, a)
    case FlushPeek(_, _, _) => StepInput(s, a)
    case FlushMark(_, _) => StepInput(s, a)
    case _ => if a.w in s.workers then StepWorker(s, a.w, a) else s
  }

  /** The state a schedule leads to. Every sequence of actions is a schedule. */
  function Exec(s: State, schedule: seq<Action>): State
    decreases |schedule|
  {
    if |schedule| == 0 then s else Exec(Step(s, schedule[0]), schedule[1..])
  }

  lemma {:induction false} ExecAppend(s: State, first: seq<Action>, more: seq<Action>)
    ensures Exec(s, first + more) == Exec(Exec(s, first), more)
    decreases |first|
  {
    if |first| == 0 {
      assert first + more == more;
    } else {
      assert (first + more)[1..] == first[1..] + more;
      ExecAppend(Step(s, first[0]), first[1..], more);
    }
  }

  lemma ExecOne(s: State, a: Action)
    ensures Exec(s, [a]) == Step(s, a)
  {
    hide Step;
    assert [a][1..] == [];
    assert Exec(Step(s, a), []) == Step(s, a);
  }

  lemma ExecTwo(s: State, a: Action, b: Action)
    ensures Exec(s, [a, b]) == Step(Step(s, a), b)
  {
    hide Step;
    assert [a, b][1..] == [b] && [b][1..] == [];
    assert Exec(Step(s, a), [b]) == Exec(Step(Step(s, a), b), []);
  }

  /** A schedule made of segments. */
  function Flatten(segments: seq<seq<Action>>): seq<Action>
  {
    if |segments| == 0 then [] else Flatten(segments[..|segments| - 1]) + segments[|segments| - 1]
  }

  lemma {:induction false} FlattenAppend(a: seq<seq<Action>>, b: seq<seq<Action>>)
    ensures Flatten(a + b) == Flatten(a) + Flatten(b)
    decreases |b|
  {
    if |b| == 0 {
      assert a + b == a;
    } else {
      assert (a + b)[..|a + b| - 1] == a + b[..|b| - 1];
      FlattenAppend(a, b[..|b| - 1]);
    }
  }
}
