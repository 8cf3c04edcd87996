/** When a run can come to its end: a handler of its own, moving alone, is enough exactly when the run has
    a safe id and, if it waits for a human, its promise is resolved. */
module Completion {
  import opened EffectSink
  import opened Idempotency
  import opened Journal
  import opened Json
  import opened Protocol
  import opened ProtocolInvariant
  import opened ProtocolSafety
  import opened ProtocolTheorems
  import opened StepModel
  import opened Workflow
  import opened Wrappers

  // ---- One handler moving alone ----

  /** A move of process w, other than crashing. */
  predicate MoveOf(w: nat, a: Action)
  {
    match a
    case Spawn(x, _) => x == w
    case EnsureRun(x, _) => x == w
    case AwaitInput(x) => x == w
    case Replay(x) => x == w
    case Read(x) => x == w
    case CallProducer(x, _) => x == w
    case FireTool(x, _, _) => x == w
    case Insert(x, _) => x == w
    case Commit(x) => x == w
    case Return(x) => x == w
    case _ => false
  }

  predicate MovesOf(w: nat, more: seq<Action>) { forall i | 0 <= i < |more| :: MoveOf(w, more[i]) }

  /** Everybody else, and what only others write, is as it was. */
  ghost predicate OthersKept(s: State, s': State, w: nat)
  {
    && s'.workers - {w} == s.workers - {w} && s'.forkers == s.forkers
    && s'.calls == s.calls && s'.accepted == s.accepted && s'.queue == s.queue
    && s'.core.flow == s.core.flow && s'.core.inputs == s.core.inputs && s'.core.promise == s.core.promise
    && s.returned <= s'.returned
  }

  /** The handler of w stands where `me` says, in a good state that is otherwise what others made it. */
  ghost predicate Stands(s: State, s': State, w: nat, me: Worker)
  {
    StateOk(s') && OthersKept(s, s', w) && w in s'.workers && s'.workers[w] == me
  }

  lemma OthersKeptOn(a: State, b: State, c: State, w: nat)
    requires OthersKept(a, b, w) && OthersKept(b, c, w)
    ensures OthersKept(a, c, w)
  {
  }

  lemma StandsOn(a: State, b: State, c: State, w: nat, mine: Worker, me: Worker)
    requires Stands(a, b, w, mine) && Stands(b, c, w, me)
    ensures Stands(a, c, w, me)
  {
    hide StateOk, OthersKept;
    OthersKeptOn(a, b, c, w);
  }

  lemma StillGood(s: State, a: Action)
    requires StateOk(s)
    ensures StateOk(Step(s, a))
  {
    hide StateOk, Step, Grows;
    StepSafe(s, a);
  }

  // ---- Single moves ----

  /** Where a worker's action leads, once its own step function says so. */
  lemma Unfolded(s: State, w: nat, a: Action)
    requires w in s.workers && MoveOf(w, a) && !a.Spawn?
    ensures Step(s, a) == StepWorker(s, w, a)
  {
    hide StepWorker;
  }

  lemma Placed(s: State, s': State, w: nat, me: Worker)
    requires StateOk(s') && s' == s.(core := s'.core, log := s'.log, workers := s.workers[w := me])
    requires s'.core.flow == s.core.flow && s'.core.inputs == s.core.inputs && s'.core.promise == s.core.promise
    ensures Stands(s, s', w, me)
  {
    hide StateOk;
  }

  lemma Spawns(s: State, w: nat, r: RunId)
    requires StateOk(s) && w !in s.workers && r in s.core.inputs
    ensures Stands(s, Step(s, Spawn(w, r)), w, Worker(r, None, [], Start))
  {
    hide StateOk, Stands;
    StillGood(s, Spawn(w, r));
    Placed(s, Step(s, Spawn(w, r)), w, Worker(r, None, [], Start));
  }

  lemma Ensures(s: State, w: nat, now: string)
    requires StateOk(s) && w in s.workers && s.workers[w].pc.Start? && s.workers[w].run in s.core.inputs
    ensures Stands(s, Step(s, EnsureRun(w, now)), w, s.workers[w].(pc := Ready))
  {
    StillGood(s, EnsureRun(w, now));
    Unfolded(s, w, EnsureRun(w, now));
    hide AwaitStep, ReplayStep, ReadStep, ProduceStep, FireStep, InsertStepOf, CommitStep, ReturnStep;
    hide StateOk, EnsureMeta, Stands, Step;
    Placed(s, Step(s, EnsureRun(w, now)), w, s.workers[w].(pc := Ready));
  }

  lemma Awaits(s: State, w: nat)
    requires StateOk(s) && w in s.workers && s.workers[w].pc.Ready? && s.workers[w].run in s.core.promise
    requires Next(s.workers[w]) == InputSeq(s.core.flow(s.workers[w].run))
    ensures var me := s.workers[w];
      Stands(s, Step(s, AwaitInput(w)), w, me.(human := Some(s.core.promise[me.run])))
  {
    StillGood(s, AwaitInput(w));
    Unfolded(s, w, AwaitInput(w));
    hide EnsureRunStep, ReplayStep, ReadStep, ProduceStep, FireStep, InsertStepOf, CommitStep, ReturnStep;
    hide StateOk, InputSeq, Stands, Step;
    Placed(s, Step(s, AwaitInput(w)), w, s.workers[w].(human := Some(s.core.promise[s.workers[w].run])));
  }

  lemma ReplayTakes(s: State, w: nat, v: Json)
    requires w in s.workers && s.workers[w].pc.Ready? && CanEnter(s.core, s.workers[w])
    requires (s.workers[w].run, Next(s.workers[w])) in s.log && v == s.log[(s.workers[w].run, Next(s.workers[w]))]
    ensures Step(s, Replay(w)) == SetWorker(s, w, s.workers[w].(vals := s.workers[w].vals + [v]))
  {
    Unfolded(s, w, Replay(w));
    hide Step, CanEnter;
  }

  lemma Replays(s: State, w: nat)
    requires StateOk(s) && w in s.workers && s.workers[w].pc.Ready? && CanEnter(s.core, s.workers[w])
    requires (s.workers[w].run, Next(s.workers[w])) in s.log
    ensures var me := s.workers[w];
      Stands(s, Step(s, Replay(w)), w, me.(vals := me.vals + [s.log[(me.run, Next(me))]]))
  {
    hide StateOk, CanEnter, Stands, Step;
    StillGood(s, Replay(w));
    var me := s.workers[w];
    var v := s.log[(me.run, Next(me))];
    ReplayTakes(s, w, v);
    Placed(s, Step(s, Replay(w)), w, me.(vals := me.vals + [v]));
  }

  lemma NameSafe(c: Core, w: Worker)
    requires CanEnter(c, w) && IsSafe(w.run)
    ensures DeriveKey(w.run, Spec(c.flow(w.run), Next(w)).name).Ok?
  {
    hide Spec, IsSafe, ColonFree, DeriveKey;
    StepNameSafe(c.flow(w.run), Next(w));
    DeriveSafe(w.run, Spec(c.flow(w.run), Next(w)).name);
  }

  function AfterRead(c: Core, me: Worker): Pc
  {
    match Lookup(c.db, me.run, Next(me)) case Some(v) => Got(v) case None => Missed
  }

  lemma Reads(s: State, w: nat)
    requires StateOk(s) && w in s.workers && s.workers[w].pc.Ready? && CanEnter(s.core, s.workers[w])
    requires IsSafe(s.workers[w].run) && (s.workers[w].run, Next(s.workers[w])) !in s.log
    ensures Step(s, Read(w)).core == s.core
    ensures Stands(s, Step(s, Read(w)), w, s.workers[w].(pc := AfterRead(s.core, s.workers[w])))
  {
    NameSafe(s.core, s.workers[w]);
    StillGood(s, Read(w));
    Unfolded(s, w, Read(w));
    hide EnsureRunStep, AwaitStep, ReplayStep, ProduceStep, FireStep, InsertStepOf, CommitStep, ReturnStep;
    hide StateOk, CanEnter, DeriveKey, IsSafe, Spec, Stands, Step, Lookup;
    Placed(s, Step(s, Read(w)), w, s.workers[w].(pc := AfterRead(s.core, s.workers[w])));
  }

  lemma MissedEnters(s: State, w: nat)
    requires StateOk(s) && w in s.workers && s.workers[w].pc.Missed?
    ensures Next(s.workers[w]) <= Len(s.core.flow(s.workers[w].run)) && s.workers[w].run in s.core.inputs
  {
    hide CoreOk, ForkerOk, LogOk, ReturnedOk, AcceptedOk;
    assert WorkerOk(s.core, s.workers[w]);
  }

  /** The tool's effect fires before its output is there; any other producer just answers. */
  function ProducerOf(s: State, w: nat): Action
    requires w in s.workers
  {
    var me := s.workers[w];
    if Next(me) == ToolSeq(s.core.flow(me.run)) then FireTool(w, "", 0) else CallProducer(w, "")
  }

  lemma Produces(s: State, w: nat)
    requires StateOk(s) && w in s.workers && s.workers[w].pc.Missed?
    ensures var s' := Step(s, ProducerOf(s, w));
      s'.core.db == s.core.db && exists v :: Stands(s, s', w, s.workers[w].(pc := Produced(v)))
  {
    MissedEnters(s, w);
    var a := ProducerOf(s, w);
    StillGood(s, a);
    Unfolded(s, w, a);
    hide EnsureRunStep, AwaitStep, ReplayStep, ReadStep, InsertStepOf, CommitStep, ReturnStep;
    hide StateOk, Spec, Len, Output, Fire, EffectOf, RowId, ToolKey, Stands, Step, ToolSeq;
    var v := Step(s, a).workers[w].pc.value;
    Placed(s, Step(s, a), w, s.workers[w].(pc := Produced(v)));
  }

  lemma Inserts(s: State, w: nat)
    requires StateOk(s) && w in s.workers && s.workers[w].pc.Produced?
    requires (s.workers[w].run, Next(s.workers[w])) !in s.core.db.steps
    ensures Stands(s, Step(s, Insert(w, "")), w, s.workers[w].(pc := Got(s.workers[w].pc.value)))
  {
    MayInsertNow(s, w);
    StillGood(s, Insert(w, ""));
    Unfolded(s, w, Insert(w, ""));
    hide EnsureRunStep, AwaitStep, ReplayStep, ReadStep, ProduceStep, FireStep, CommitStep, ReturnStep;
    hide StateOk, InsertStep, NewEntry, Len, Stands, Step;
    Placed(s, Step(s, Insert(w, "")), w, s.workers[w].(pc := Got(s.workers[w].pc.value)));
  }

  lemma MayInsertNow(s: State, w: nat)
    requires StateOk(s) && w in s.workers && s.workers[w].pc.Produced?
    requires (s.workers[w].run, Next(s.workers[w])) !in s.core.db.steps
    ensures var me := s.workers[w];
      1 <= Next(me) <= Len(s.core.flow(me.run))
      && InsertStep(s.core.db, NewEntry(s.core, me.run, Next(me), me.pc.value, "")).Some?
  {
    hide CoreOk, WorkerOk, ForkerOk, LogOk, ReturnedOk, AcceptedOk, InsertStep, NewEntry;
    InsertLosesExactly(s.core, s.workers[w], "");
  }

  lemma CommitKeeps(s: State, w: nat, v: Json)
    requires w in s.workers && s.workers[w].pc == Got(v)
    ensures var me := s.workers[w];
      Step(s, Commit(w)) ==
        SetWorker(s.(log := s.log[(me.run, Next(me)) := v]), w, me.(vals := me.vals + [v], pc := Ready))
  {
    Unfolded(s, w, Commit(w));
    hide Step;
  }

  lemma Commits(s: State, w: nat)
    requires StateOk(s) && w in s.workers && s.workers[w].pc.Got?
    ensures var me := s.workers[w];
      Stands(s, Step(s, Commit(w)), w, me.(vals := me.vals + [me.pc.value], pc := Ready))
  {
    hide StateOk, Stands, Step;
    StillGood(s, Commit(w));
    var me := s.workers[w];
    CommitKeeps(s, w, me.pc.value);
    Placed(s, Step(s, Commit(w)), w, me.(vals := me.vals + [me.pc.value], pc := Ready));
  }

  // ---- A step, and the rest of the handler ----

  lemma Joined(s: State, a: Action, more: seq<Action>)
    ensures Exec(s, [a] + more) == Exec(Step(s, a), more)
  {
    hide Step;
    assert ([a] + more)[1..] == more;
  }

  /** Past `me`'s position the handler is ready with one more value. */
  ghost predicate OneFurther(s: State, s': State, w: nat, me: Worker)
  {
    exists v :: Stands(s, s', w, me.(vals := me.vals + [v], pc := Ready))
  }

  /** Recorded, or not yet recorded, a step that may be entered is completed. */
  lemma CompletesStep(s: State, w: nat) returns (more: seq<Action>)
    requires StateOk(s) && w in s.workers && s.workers[w].pc.Ready? && CanEnter(s.core, s.workers[w])
    requires IsSafe(s.workers[w].run)
    ensures MovesOf(w, more) && OneFurther(s, Exec(s, more), w, s.workers[w])
  {
    hide Step, StateOk, OthersKept, CanEnter, IsSafe;
    var me := s.workers[w];
    var p := (me.run, Next(me));
    if p in s.log {
      Replays(s, w);
      more := [Replay(w)];
      ExecOne(s, Replay(w));
      assert me.(pc := Ready) == me;
    } else {
      Reads(s, w);
      var s1 := Step(s, Read(w));
      if p in s.core.db.steps {
        Commits(s1, w);
        var s2 := Step(s1, Commit(w));
        StandsOn(s, s1, s2, w, s1.workers[w], s2.workers[w]);
        more := [Read(w), Commit(w)];
        Joined(s, Read(w), [Commit(w)]);
        ExecOne(s1, Commit(w));
        assert [Read(w)] + [Commit(w)] == more;
      } else {
        var rest := CompletesMissed(s1, w);
        more := [Read(w)] + rest;
        Joined(s, Read(w), rest);
        var v :| Stands(s1, Exec(s1, rest), w, s1.workers[w].(vals := me.vals + [v], pc := Ready));
        StandsOn(s, s1, Exec(s1, rest), w, s1.workers[w], me.(vals := me.vals + [v], pc := Ready));
      }
    }
  }

  lemma CompletesMissed(s: State, w: nat) returns (more: seq<Action>)
    requires StateOk(s) && w in s.workers && s.workers[w].pc.Missed?
    requires (s.workers[w].run, Next(s.workers[w])) !in s.core.db.steps
    ensures MovesOf(w, more) && OneFurther(s, Exec(s, more), w, s.workers[w])
  {
    hide Step, StateOk, OthersKept;
    Produces(s, w);
    var a := ProducerOf(s, w);
    var s1 := Step(s, a);
    Inserts(s1, w);
    var s2 := Step(s1, Insert(w, ""));
    Commits(s2, w);
    var s3 := Step(s2, Commit(w));
    StandsOn(s, s1, s2, w, s1.workers[w], s2.workers[w]);
    StandsOn(s, s2, s3, w, s2.workers[w], s3.workers[w]);
    more := [a, Insert(w, ""), Commit(w)];
    assert more == [a] + ([Insert(w, "")] + [Commit(w)]);
    Joined(s, a, [Insert(w, "")] + [Commit(w)]);
    Joined(s1, Insert(w, ""), [Commit(w)]);
    ExecOne(s2, Commit(w));
  }

  /** Nothing but an unresolved promise holds up a handler between two steps. */
  predicate Able(c: Core, r: RunId)
  {
    r in c.inputs && IsSafe(r) && (c.flow(r) == Hitl ==> r in c.promise)
  }

  /** The handler is ready, some steps into its run. */
  ghost predicate Ahead(s: State, s': State, w: nat, r: RunId, n: nat)
  {
    exists me :: Stands(s, s', w, me) && me.run == r && me.pc.Ready? && |me.vals| == n
  }

  /** Awaiting the promise where the next step is the human input. */
  lemma Enters(s: State, w: nat) returns (more: seq<Action>)
    requires StateOk(s) && w in s.workers && s.workers[w].pc.Ready? && Able(s.core, s.workers[w].run)
    requires |s.workers[w].vals| < Len(s.core.flow(s.workers[w].run))
    ensures MovesOf(w, more)
    ensures var s' := Exec(s, more);
      && w in s'.workers && CanEnter(s'.core, s'.workers[w])
      && Stands(s, s', w, s.workers[w].(human := s'.workers[w].human))
  {
    hide Step, StateOk, IsSafe, Len;
    var me := s.workers[w];
    if CanEnter(s.core, me) {
      more := [];
    } else {
      Awaits(s, w);
      more := [AwaitInput(w)];
      ExecOne(s, AwaitInput(w));
    }
  }

  lemma OneMore(s: State, w: nat) returns (more: seq<Action>)
    requires StateOk(s) && w in s.workers && s.workers[w].pc.Ready? && Able(s.core, s.workers[w].run)
    requires |s.workers[w].vals| < Len(s.core.flow(s.workers[w].run))
    ensures MovesOf(w, more) && Ahead(s, Exec(s, more), w, s.workers[w].run, |s.workers[w].vals| + 1)
  {
    hide Step, StateOk, IsSafe, Len, CanEnter, Exec, OthersKept, MoveOf;
    var me := s.workers[w];
    var first := Enters(s, w);
    var s1 := Exec(s, first);
    var second := CompletesStep(s1, w);
    more := first + second;
    ExecAppend(s, first, second);
    var v :| Stands(s1, Exec(s1, second), w, s1.workers[w].(vals := me.vals + [v], pc := Ready));
    StandsOn(s, s1, Exec(s1, second), w, s1.workers[w], s1.workers[w].(vals := me.vals + [v], pc := Ready));
  }

  lemma {:induction false} AllSteps(s: State, w: nat) returns (more: seq<Action>)
    requires StateOk(s) && w in s.workers && s.workers[w].pc.Ready? && Able(s.core, s.workers[w].run)
    requires |s.workers[w].vals| <= Len(s.core.flow(s.workers[w].run))
    ensures var r := s.workers[w].run;
      MovesOf(w, more) && Ahead(s, Exec(s, more), w, r, Len(s.core.flow(r)))
    decreases Len(s.core.flow(s.workers[w].run)) - |s.workers[w].vals|
  {
    hide Step, StateOk, IsSafe, Len, MoveOf;
    var r := s.workers[w].run;
    if |s.workers[w].vals| == Len(s.core.flow(r)) {
      more := [];
      assert Stands(s, s, w, s.workers[w]);
    } else {
      var first := OneMore(s, w);
      var s1 := Exec(s, first);
      var second := AllSteps(s1, w);
      more := first + second;
      ExecAppend(s, first, second);
      var me :| Stands(s1, Exec(s1, second), w, me) && me.run == r && me.pc.Ready? && |me.vals| == Len(s.core.flow(r));
      hide Exec, OthersKept;
      StandsOn(s, s1, Exec(s1, second), w, s1.workers[w], me);
    }
  }

  lemma Returns(s: State, w: nat)
    requires StateOk(s) && w in s.workers && s.workers[w].pc.Ready?
    requires |s.workers[w].vals| == Len(s.core.flow(s.workers[w].run))
    ensures var me, s' := s.workers[w], Step(s, Return(w));
      && OthersKept(s, s', w) && w !in s'.workers
      && s'.returned == s.returned + {Returned(me.run, me.vals)}
  {
    Unfolded(s, w, Return(w));
    hide EnsureRunStep, AwaitStep, ReplayStep, ReadStep, ProduceStep, FireStep, InsertStepOf, CommitStep;
    hide StateOk, Step, Len;
  }

  predicate HasReturned(s: State, r: RunId) { exists x | x in s.returned :: x.run == r }

  /** A handler newly started on the run, with its next moves alone, brings it to its answer. */
  lemma RunsToItsEnd(s: State, w: nat, r: RunId) returns (more: seq<Action>)
    requires StateOk(s) && w !in s.workers && Able(s.core, r)
    ensures MovesOf(w, more)
    ensures OthersKept(s, Exec(s, more), w) && Exec(s, more).workers == s.workers && HasReturned(Exec(s, more), r)
  {
    hide Step, StateOk, IsSafe, Len, MoveOf;
    Spawns(s, w, r);
    var s1 := Step(s, Spawn(w, r));
    Ensures(s1, w, "");
    var s2 := Step(s1, EnsureRun(w, ""));
    var steps := AllSteps(s2, w);
    var s3 := Exec(s2, steps);
    var me :| Stands(s2, s3, w, me) && me.run == r && me.pc.Ready? && |me.vals| == Len(s2.core.flow(r));
    StandsOn(s, s1, s2, w, s1.workers[w], s2.workers[w]);
    StandsOn(s, s2, s3, w, s2.workers[w], me);
    Returns(s3, w);
    OthersKeptOn(s, s3, Step(s3, Return(w)), w);
    more := [Spawn(w, r)] + ([EnsureRun(w, "")] + (steps + [Return(w)]));
    Joined(s, Spawn(w, r), [EnsureRun(w, "")] + (steps + [Return(w)]));
    Joined(s1, EnsureRun(w, ""), steps + [Return(w)]);
    ExecAppend(s2, steps, [Return(w)]);
    ExecOne(s3, Return(w));
    hide Exec;
    MovesJoined(w, r, steps);
    OnlyThisOne(s, Exec(s, more), w);
    assert Returned(me.run, me.vals) in Exec(s, more).returned;
  }

  lemma MovesJoined(w: nat, r: RunId, steps: seq<Action>)
    requires MovesOf(w, steps)
    ensures MovesOf(w, [Spawn(w, r)] + ([EnsureRun(w, "")] + (steps + [Return(w)])))
  {
  }

  lemma OnlyThisOne(s: State, s': State, w: nat)
    requires OthersKept(s, s', w) && w !in s.workers && w !in s'.workers
    ensures s'.workers == s.workers
  {
    assert s.workers == s.workers - {w} && s'.workers == s'.workers - {w};
  }

  // ---- Nothing returns before its time ----

  /** A handler of a run that waits for a human has come past the input step only with the decision. */
  predicate Waits(f: Flow, me: Worker)
  {
    f == Hitl && me.human.None? ==> |me.vals| <= 2 && (|me.vals| == 2 ==> me.pc.Start? || me.pc.Ready?)
  }

  ghost predicate Timely(s: State)
  {
    && (forall w | w in s.workers :: Waits(s.core.flow(s.workers[w].run), s.workers[w]))
    && (forall x | x in s.returned && s.core.flow(x.run) == Hitl :: x.run in s.core.promise)
  }

  /** A worker's step leaves everything the others see alone, and keeps it waiting where it has to. */
  ghost predicate WaitsOn(s: State, s': State, w: nat, f: Flow)
  {
    && s'.returned == s.returned && s'.core.promise == s.core.promise && s'.core.flow == s.core.flow
    && s'.workers - {w} == s.workers - {w}
    && (w in s'.workers ==>
          w in s.workers && s'.workers[w].run == s.workers[w].run && Waits(f, s'.workers[w]))
  }

  lemma WaitsSet(s: State, c: Core, log: map<(RunId, nat), Json>, w: nat, me: Worker, f: Flow)
    requires w in s.workers && me.run == s.workers[w].run && Waits(f, me)
    requires c.flow == s.core.flow && c.promise == s.core.promise
    ensures WaitsOn(s, SetWorker(s.(core := c, log := log), w, me), w, f)
  {
    hide Waits;
  }

  lemma WaitsDropped(s: State, w: nat, f: Flow)
    ensures WaitsOn(s, DropWorker(s, w), w, f)
    ensures w in s.workers && Waits(f, s.workers[w]) ==> WaitsOn(s, s, w, f)
  {
    hide Waits;
  }

  lemma EnsureWaits(s: State, w: nat, me: Worker, now: string)
    requires w in s.workers && s.workers[w] == me && Waits(s.core.flow(me.run), me)
    ensures WaitsOn(s, EnsureRunStep(s, w, me, now), w, s.core.flow(me.run))
  {
    hide WaitsOn, EnsureMeta;
    var f, s' := s.core.flow(me.run), EnsureRunStep(s, w, me, now);
    WaitsDropped(s, w, f);
    WaitsSet(s, s'.core, s'.log, w, s'.workers[w], f);
  }

  lemma AwaitWaits(s: State, w: nat, me: Worker)
    requires w in s.workers && s.workers[w] == me && Waits(s.core.flow(me.run), me)
    ensures WaitsOn(s, AwaitStep(s, w, me), w, s.core.flow(me.run))
  {
    hide WaitsOn;
    var f, s' := s.core.flow(me.run), AwaitStep(s, w, me);
    WaitsDropped(s, w, f);
    WaitsSet(s, s'.core, s'.log, w, s'.workers[w], f);
  }

  lemma ReplayWaits(s: State, w: nat, me: Worker)
    requires w in s.workers && s.workers[w] == me && Waits(s.core.flow(me.run), me)
    ensures WaitsOn(s, ReplayStep(s, w, me), w, s.core.flow(me.run))
  {
    hide WaitsOn, Spec, Len;
    var f, s' := s.core.flow(me.run), ReplayStep(s, w, me);
    WaitsDropped(s, w, f);
    WaitsSet(s, s'.core, s'.log, w, s'.workers[w], f);
  }

  lemma ReadWaits(s: State, w: nat, me: Worker)
    requires w in s.workers && s.workers[w] == me && Waits(s.core.flow(me.run), me)
    ensures WaitsOn(s, ReadStep(s, w, me), w, s.core.flow(me.run))
  {
    hide WaitsOn, Spec, Lookup, DeriveKey, Len;
    var f, s' := s.core.flow(me.run), ReadStep(s, w, me);
    WaitsDropped(s, w, f);
    if w in s'.workers { WaitsSet(s, s'.core, s'.log, w, s'.workers[w], f); }
  }

  lemma ProduceWaits(s: State, w: nat, me: Worker, answer: string)
    requires w in s.workers && s.workers[w] == me && Waits(s.core.flow(me.run), me)
    ensures WaitsOn(s, ProduceStep(s, w, me, answer), w, s.core.flow(me.run))
  {
    hide WaitsOn, Output, Spec, Len;
    var f, s' := s.core.flow(me.run), ProduceStep(s, w, me, answer);
    WaitsDropped(s, w, f);
    WaitsSet(s, s'.core, s'.log, w, s'.workers[w], f);
  }

  lemma FireWaits(s: State, w: nat, me: Worker, now: string, pid: nat)
    requires w in s.workers && s.workers[w] == me && Waits(s.core.flow(me.run), me)
    ensures WaitsOn(s, FireStep(s, w, me, now, pid), w, s.core.flow(me.run))
  {
    hide WaitsOn, Output, Fire, EffectOf, RowId, ToolKey, Spec, Len;
    var f, s' := s.core.flow(me.run), FireStep(s, w, me, now, pid);
    WaitsDropped(s, w, f);
    WaitsSet(s, s'.core, s'.log, w, s'.workers[w], f);
  }

  lemma InsertWaits(s: State, w: nat, me: Worker, now: string)
    requires w in s.workers && s.workers[w] == me && Waits(s.core.flow(me.run), me)
    ensures WaitsOn(s, InsertStepOf(s, w, me, now), w, s.core.flow(me.run))
  {
    hide WaitsOn, NewEntry, InsertStep, Spec, Len;
    var f, s' := s.core.flow(me.run), InsertStepOf(s, w, me, now);
    WaitsDropped(s, w, f);
    if w in s'.workers { WaitsSet(s, s'.core, s'.log, w, s'.workers[w], f); }
  }

  lemma CommitWaits(s: State, w: nat, me: Worker)
    requires w in s.workers && s.workers[w] == me && Waits(s.core.flow(me.run), me)
    ensures WaitsOn(s, CommitStep(s, w, me), w, s.core.flow(me.run))
  {
    hide WaitsOn;
    var f, s' := s.core.flow(me.run), CommitStep(s, w, me);
    WaitsDropped(s, w, f);
    WaitsSet(s, s'.core, s'.log, w, s'.workers[w], f);
  }

  lemma WorkerWaits(s: State, w: nat, a: Action)
    requires w in s.workers && Waits(s.core.flow(s.workers[w].run), s.workers[w]) && !a.Return?
    ensures WaitsOn(s, StepWorker(s, w, a), w, s.core.flow(s.workers[w].run))
  {
    hide EnsureRunStep, AwaitStep, ReplayStep, ReadStep, ProduceStep, FireStep, InsertStepOf, CommitStep, ReturnStep;
    hide WaitsOn, Waits;
    var me := s.workers[w];
    WaitsDropped(s, w, s.core.flow(me.run));
    match a
    case EnsureRun(_, now) => EnsureWaits(s, w, me, now);
    case AwaitInput(_) => AwaitWaits(s, w, me);
    case Replay(_) => ReplayWaits(s, w, me);
    case Read(_) => ReadWaits(s, w, me);
    case CallProducer(_, answer) => ProduceWaits(s, w, me, answer);
    case FireTool(_, now, pid) => FireWaits(s, w, me, now, pid);
    case Insert(_, now) => InsertWaits(s, w, me, now);
    case Commit(_) => CommitWaits(s, w, me);
    case _ =>
  }

  lemma WaitsTimely(s: State, s': State, w: nat)
    requires Timely(s) && w in s.workers && WaitsOn(s, s', w, s.core.flow(s.workers[w].run))
    ensures Timely(s')
  {
    hide Waits;
    forall x | x in s'.workers ensures Waits(s'.core.flow(s'.workers[x].run), s'.workers[x]) {
      if x != w { assert x in s'.workers - {w} && x in s.workers && s'.workers[x] == s.workers[x]; }
    }
  }

  lemma ReturnTimely(s: State, w: nat)
    requires StateOk(s) && Timely(s) && w in s.workers
    ensures Timely(StepWorker(s, w, Return(w)))
  {
    hide CoreOk, ForkerOk, LogOk, ReturnedOk, AcceptedOk;
    var me := s.workers[w];
    assert WorkerOk(s.core, me) && Waits(s.core.flow(me.run), me);
    assert Len(Hitl) == 5;
    hide WorkerOk, InStep;
  }

  /** Steps of forks and inputs: workers, answers and resolved promises stay. */
  lemma OthersTimely(s: State, s': State)
    requires Timely(s) && s'.workers == s.workers && s'.returned == s.returned
    requires s'.core.flow == s.core.flow && s.core.promise.Keys <= s'.core.promise.Keys
    ensures Timely(s')
  {
    hide Waits;
  }

  lemma ForksLeaveWorkers(s: State, f: nat, a: Action)
    requires f in s.forkers
    ensures var s' := StepFork(s, f, a);
      && s'.workers == s.workers && s'.returned == s.returned
      && s'.core.flow == s.core.flow && s'.core.promise == s.core.promise
  {
    hide CommitFork, RowsThrough;
  }

  lemma InputsLeaveWorkers(s: State, a: Action)
    ensures var s' := StepInput(s, a);
      && s'.workers == s.workers && s'.returned == s.returned
      && s'.core.flow == s.core.flow && s.core.promise.Keys <= s'.core.promise.Keys
  {
    hide HitlStateIn;
  }

  lemma StepTimely(s: State, a: Action)
    requires StateOk(s) && Timely(s)
    ensures Timely(Step(s, a))
  {
    hide StateOk, StepWorker, StepFork, StepInput, ForkPlanError, Timely, Waits, WaitsOn;
    InputsLeaveWorkers(s, a);
    match a
    case Submit(_, _) => OthersTimely(s, Step(s, a));
    case Spawn(w, r) => SpawnTimely(s, w, r);
    case ValidateFork(_, _) => OthersTimely(s, Step(s, a));
    case LoadRows(f) => if f in s.forkers { ForksLeaveWorkers(s, f, a); OthersTimely(s, Step(s, a)); }
    case CommitForkRun(f, _) => if f in s.forkers { ForksLeaveWorkers(s, f, a); OthersTimely(s, Step(s, a)); }
    case DropFork(f) => if f in s.forkers { ForksLeaveWorkers(s, f, a); OthersTimely(s, Step(s, a)); }
    case Peek(_, _, _) => OthersTimely(s, Step(s, a));
    case Resolve(_) => OthersTimely(s, Step(s, a));
    case DropCall(_) => OthersTimely(s, Step(s, a));
    case Enqueue(_, _, _) => OthersTimely(s, Step(s, a));
    case FlushPeek(_, _, _) => OthersTimely(s, Step(s, a));
    case FlushMark(_, _) => OthersTimely(s, Step(s, a));
    case Return(w) => if w in s.workers { ReturnTimely(s, w); }
    case _ =>
      if a.w in s.workers {
        TimelyWorker(s, a.w);
        WorkerWaits(s, a.w, a);
        WaitsTimely(s, Step(s, a), a.w);
      }
  }

  lemma TimelyWorker(s: State, w: nat)
    requires Timely(s) && w in s.workers
    ensures Waits(s.core.flow(s.workers[w].run), s.workers[w])
  {
  }

  lemma SpawnTimely(s: State, w: nat, r: RunId)
    requires Timely(s)
    ensures Timely(Step(s, Spawn(w, r)))
  {
    hide StateOk;
  }

  lemma {:induction false} ScheduleTimely(s: State, schedule: seq<Action>)
    requires StateOk(s) && Timely(s)
    ensures Timely(Exec(s, schedule))
    decreases |schedule|
  {
    hide StateOk, Step, Timely;
    if |schedule| > 0 {
      StepTimely(s, schedule[0]);
      StillGood(s, schedule[0]);
      ScheduleTimely(Step(s, schedule[0]), schedule[1..]);
    }
  }

  // ---- The exact condition ----

  /** Only a run that is able to has returned. */
  lemma ReturnedAble(s: State, r: RunId)
    requires StateOk(s) && Timely(s) && HasReturned(s, r)
    ensures Able(s.core, r)
  {
    hide CoreOk, WorkerOk, ForkerOk, LogOk, AcceptedOk, IsSafe, Waits;
    var x :| x in s.returned && x.run == r;
    assert ReturnedOk(s.core, x);
    ReturnedSafe(s.core, x);
  }

  lemma ReturnedSafe(c: Core, x: Returned)
    requires CoreOk(c) && ReturnedOk(c, x)
    ensures IsSafe(x.run)
  {
    hide MetasOk, RowsOk, NativeOk, FitsTable, IsSafe;
    assert (x.run, 1) in c.db.steps;
    assert EntryOk(c, x.run, 1);
  }

  /** What a handler's own moves cannot change. */
  lemma {:induction false} OwnMoves(s: State, w: nat, more: seq<Action>)
    requires MovesOf(w, more)
    ensures var c := Exec(s, more).core;
      c.inputs == s.core.inputs && c.promise == s.core.promise && c.flow == s.core.flow
    decreases |more|
  {
    hide Step, MoveOf;
    if |more| > 0 {
      OwnMove(s, w, more[0]);
      OwnMoves(Step(s, more[0]), w, more[1..]);
    }
  }

  lemma OwnMove(s: State, w: nat, a: Action)
    requires MoveOf(w, a)
    ensures var c := Step(s, a).core; c.inputs == s.core.inputs && c.promise == s.core.promise && c.flow == s.core.flow
  {
    hide EnsureRunStep, AwaitStep, ReplayStep, ReadStep, ProduceStep, FireStep, InsertStepOf, CommitStep, ReturnStep;
  }

  /** From every reachable state: some moves of a newly started handler, nobody else moving, bring a run
      to its answer exactly if the run was submitted, has a safe id and, where it waits for a human, has
      its promise resolved. */
  lemma ReturnsExactly(flow: RunId -> Flow, schedule: seq<Action>, w: nat, r: RunId)
    requires w !in Exec(Init(flow), schedule).workers
    ensures var s := Exec(Init(flow), schedule);
      (exists more :: MovesOf(w, more) && HasReturned(Exec(s, more), r))
      <==> r in s.core.inputs && IsSafe(r) && (flow(r) == Hitl ==> r in s.core.promise)
  {
    hide Exec, Step, StateOk, Timely, IsSafe, MoveOf, HasReturned;
    var s := Exec(Init(flow), schedule);
    Invariant(flow, schedule);
    FlowFixed(flow, schedule);
    InitOk(flow);
    InitTimely(flow);
    ScheduleTimely(Init(flow), schedule);
    if Able(s.core, r) { var more := RunsToItsEnd(s, w, r); }
    forall more | MovesOf(w, more) && HasReturned(Exec(s, more), r) ensures Able(s.core, r) {
      ScheduleTimely(s, more);
      ScheduleSafe(s, more);
      ReturnedAble(Exec(s, more), r);
      OwnMoves(s, w, more);
    }
  }

  lemma InitTimely(flow: RunId -> Flow)
    ensures Timely(Init(flow))
  {
  }
}
