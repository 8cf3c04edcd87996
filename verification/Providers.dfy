/** How many input providers can be told that their input was accepted. */
module Providers {
  import opened Journal
  import opened Ordering
  import opened Protocol
  import opened StepModel
  import opened Workflow

  /** How many calls for r have been answered accepted. */
  function AcceptedFor(s: State, r: RunId): nat { |Filter(s.accepted, (call: Call) => call.run == r)| }

  /** Call number c is for r: it found the promise unresolved and has not resolved it yet. */
  predicate InFlight(s: State, c: nat, r: RunId) { c in s.calls && s.calls[c].run == r }

  ghost predicate NoneInFlight(s: State, r: RunId) { forall c: nat :: !InFlight(s, c, r) }

  // ---- One step ----

  lemma WorkersKeepCalls(s: State, w: nat, a: Action)
    requires w in s.workers
    ensures var s' := StepWorker(s, w, a);
      s'.calls == s.calls && s'.accepted == s.accepted && s'.core.promise == s.core.promise
  {
    hide EnsureRunStep, AwaitStep, ReplayStep, ReadStep, ProduceStep, FireStep, InsertStepOf, CommitStep, ReturnStep;
  }

  lemma ForksKeepCalls(s: State, f: nat, a: Action)
    requires f in s.forkers
    ensures var s' := StepFork(s, f, a);
      s'.calls == s.calls && s'.accepted == s.accepted && s'.core.promise == s.core.promise
  {
    hide LoadStep, CommitForkStep;
  }

  /** What a step may do to calls, answers and r's promise. */
  ghost predicate CallsMove(s: State, a: Action, s': State, r: RunId)
  {
    && (if a.Resolve? && a.c in s.calls
        then s'.accepted == s.accepted + [s.calls[a.c]] && s'.calls == s.calls - {a.c}
             && (r in s'.core.promise <==> r in s.core.promise || s.calls[a.c].run == r)
        else s'.accepted == s.accepted && (r in s'.core.promise <==> r in s.core.promise))
    && (r in s.core.promise ==> forall c: nat | InFlight(s', c, r) :: InFlight(s, c, r))
  }

  lemma InputCalls(s: State, a: Action, r: RunId)
    ensures CallsMove(s, a, StepInput(s, a), r)
  {
    hide HitlStateIn;
  }

  lemma CallsStay(s: State, a: Action, s': State, r: RunId)
    requires s'.calls == s.calls && s'.accepted == s.accepted && s'.core.promise == s.core.promise && !a.Resolve?
    ensures CallsMove(s, a, s', r)
  {
  }

  /** Only resolving answers a call, and calls are only begun while their promise is unresolved. */
  lemma StepCalls(s: State, a: Action, r: RunId)
    ensures CallsMove(s, a, Step(s, a), r)
  {
    hide StepWorker, StepFork, StepInput, ForkPlanError, CallsMove;
    InputCalls(s, a, r);
    if !a.Resolve? { CallsStay(s, a, s, r); }
    match a
    case LoadRows(f) => if f in s.forkers { ForksKeepCalls(s, f, a); CallsStay(s, a, StepFork(s, f, a), r); }
    case CommitForkRun(f, _) => if f in s.forkers { ForksKeepCalls(s, f, a); CallsStay(s, a, StepFork(s, f, a), r); }
    case DropFork(f) => if f in s.forkers { ForksKeepCalls(s, f, a); CallsStay(s, a, StepFork(s, f, a), r); }
    case Submit(_, _) => CallsStay(s, a, Step(s, a), r);
    case Spawn(_, _) => CallsStay(s, a, Step(s, a), r);
    case ValidateFork(_, _) => CallsStay(s, a, Step(s, a), r);
    case Peek(_, _, _) =>
    case Resolve(_) =>
    case DropCall(_) =>
    case Enqueue(_, _, _) =>
    case FlushPeek(_, _, _) =>
    case FlushMark(_, _) =>
    case _ => if a.w in s.workers { WorkersKeepCalls(s, a.w, a); CallsStay(s, a, StepWorker(s, a.w, a), r); }
  }

  lemma CountNext(s: State, a: Action, r: RunId)
    ensures AcceptedFor(Step(s, a), r) == AcceptedFor(s, r) + if a.Resolve? && InFlight(s, a.c, r) then 1 else 0
  {
    hide Step, Filter;
    StepCalls(s, a, r);
    var mine := (call: Call) => call.run == r;
    if a.Resolve? && a.c in s.calls {
      FilterAppend(s.accepted, [s.calls[a.c]], mine);
      FilterSingle(s.calls[a.c], mine);
    }
  }

  // ---- Whole continuations ----

  /** Once a promise is resolved and no call for it is in flight, no further call is answered accepted. */
  lemma {:induction false} NoneLater(s: State, more: seq<Action>, r: RunId)
    requires r in s.core.promise && NoneInFlight(s, r)
    ensures AcceptedFor(Exec(s, more), r) == AcceptedFor(s, r)
    decreases |more|
  {
    hide Step, AcceptedFor, InFlight;
    if |more| > 0 {
      StepCalls(s, more[0], r);
      CountNext(s, more[0], r);
      assert more[0].Resolve? ==> !InFlight(s, more[0].c, r);
      StillResolved(s, more[0], r);
      NoneLater(Step(s, more[0]), more[1..], r);
    }
  }

  lemma StillResolved(s: State, a: Action, r: RunId)
    requires r in s.core.promise
    ensures r in Step(s, a).core.promise
  {
    hide Step;
    StepCalls(s, a, r);
  }

  /** Some continuation answers one more call for r with accepted. */
  ghost predicate MayAcceptMore(s: State, r: RunId)
  {
    exists more :: AcceptedFor(Exec(s, more), r) > AcceptedFor(s, r)
  }

  lemma MayAcceptExactly(s: State, r: RunId)
    requires r in s.core.promise
    ensures MayAcceptMore(s, r) <==> exists c: nat :: InFlight(s, c, r)
  {
    hide Step, AcceptedFor;
    if c: nat :| InFlight(s, c, r) {
      CountNext(s, Resolve(c), r);
      ExecOne(s, Resolve(c));
    } else {
      forall more ensures AcceptedFor(Exec(s, more), r) == AcceptedFor(s, r) { NoneLater(s, more, r); }
    }
  }

  /** After any schedule: when a call resolves the promise of its run, a further call for that run can
      still be answered accepted, on some continuation, exactly if another call of the run had already
      found the promise unresolved. */
  lemma DoubleAcceptanceExactly(flow: RunId -> Flow, schedule: seq<Action>, c: nat, r: RunId)
    requires var s := Exec(Init(flow), schedule); InFlight(s, c, r) && r !in s.core.promise
    ensures var s := Exec(Init(flow), schedule);
      && r in Step(s, Resolve(c)).core.promise
      && (MayAcceptMore(Step(s, Resolve(c)), r) <==> exists d: nat :: d != c && InFlight(s, d, r))
  {
    hide Exec, Step, MayAcceptMore;
    var s := Exec(Init(flow), schedule);
    var s' := Step(s, Resolve(c));
    StepCalls(s, Resolve(c), r);
    CallsLeft(s, c, r);
    MayAcceptExactly(s', r);
  }

  // ---- At most one call at a time ----

  ghost predicate OneAtATime(s: State, r: RunId)
  {
    forall c: nat, d: nat | InFlight(s, c, r) && InFlight(s, d, r) :: c == d
  }

  /** When at no moment of a schedule two calls of a run are in flight, at most one of its calls is
      answered accepted, and that one resolved the promise. */
  lemma {:induction false} SingleAcceptance(flow: RunId -> Flow, schedule: seq<Action>, r: RunId)
    requires forall n: nat | n <= |schedule| :: OneAtATime(Exec(Init(flow), schedule[..n]), r)
    ensures var s := Exec(Init(flow), schedule);
      if r in s.core.promise then AcceptedFor(s, r) == 1 && NoneInFlight(s, r) else AcceptedFor(s, r) == 0
    decreases |schedule|
  {
    hide Exec, Step, AcceptedFor, InFlight;
    if |schedule| == 0 {
      NothingAccepted(flow, r);
      assert schedule == [];
    } else {
      var front, a := schedule[..|schedule| - 1], schedule[|schedule| - 1];
      forall n: nat | n <= |front| ensures OneAtATime(Exec(Init(flow), front[..n]), r) {
        assert front[..n] == schedule[..n];
      }
      SingleAcceptance(flow, front, r);
      var s := Exec(Init(flow), front);
      assert front[..|front|] == front;
      ExecAppend(Init(flow), front, [a]);
      assert front + [a] == schedule;
      ExecOne(s, a);
      SingleStep(s, a, r);
    }
  }

  lemma NothingAccepted(flow: RunId -> Flow, r: RunId)
    ensures Exec(Init(flow), []) == Init(flow) && AcceptedFor(Init(flow), r) == 0 && r !in Init(flow).core.promise
  {
  }

  lemma SingleStep(s: State, a: Action, r: RunId)
    requires OneAtATime(s, r)
    requires if r in s.core.promise then AcceptedFor(s, r) == 1 && NoneInFlight(s, r) else AcceptedFor(s, r) == 0
    ensures var s' := Step(s, a);
      if r in s'.core.promise then AcceptedFor(s', r) == 1 && NoneInFlight(s', r) else AcceptedFor(s', r) == 0
  {
    hide Step, AcceptedFor;
    StepCalls(s, a, r);
    CountNext(s, a, r);
    match a {
      case Resolve(c) =>
        if InFlight(s, c, r) && r !in s.core.promise {
          OnlyOne(s, c, r);
          CallsLeft(s, c, r);
        }
      case _ =>
    }
  }

  lemma CallsLeft(s: State, c: nat, r: RunId)
    requires c in s.calls
    ensures forall d: nat :: InFlight(Step(s, Resolve(c)), d, r) <==> d != c && InFlight(s, d, r)
  {
    hide Step;
    StepCalls(s, Resolve(c), r);
  }

  lemma OnlyOne(s: State, c: nat, r: RunId)
    requires OneAtATime(s, r) && InFlight(s, c, r)
    ensures forall d: nat | InFlight(s, d, r) :: d == c
  {
  }
}
