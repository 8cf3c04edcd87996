/** Decisions queued offline on their way to a paused run, and what any process may lose on its way. */
module Deliveries {
  import opened Journal
  import opened Protocol
  import opened StepModel

  /** A flush takes a queued decision up exactly when it has not been flushed yet, its run stands at the pause,
      nobody has resolved the run's promise, and the call has a name of its own; and then calls with it. */
  lemma TakenUpExactly(s: State, c: nat, origin: string, r: RunId)
    ensures var s' := Step(s, FlushPeek(c, origin, r));
      if c !in s.calls && (origin, r) in s.queue && !s.queue[(origin, r)].flushed
         && HitlStateIn(s.core.db, r) == Paused && r !in s.core.promise
      then s' == s.(calls := s.calls[c := Call(r, s.queue[(origin, r)].decision)])
      else s' == s
  {
    hide StepWorker, StepFork, HitlStateIn;
  }

  lemma Queues(s: State, origin: string, r: RunId, decision: string)
    ensures Step(s, Enqueue(origin, r, decision)) == s.(queue := s.queue[(origin, r) := Queued(decision, false)])
  {
    hide StepWorker, StepFork, HitlStateIn;
  }

  lemma Resolves(s: State, c: nat)
    requires c in s.calls && s.calls[c].run !in s.core.promise
    ensures var call := s.calls[c];
      Step(s, Resolve(c)) == s.(core := s.core.(promise := s.core.promise[call.run := call.decision]),
                                accepted := s.accepted + [call], calls := s.calls - {c})
  {
    hide StepWorker, StepFork, HitlStateIn;
  }

  lemma Marks(s: State, origin: string, r: RunId)
    requires (origin, r) in s.queue
    ensures Step(s, FlushMark(origin, r)) ==
      s.(queue := s.queue[(origin, r) := Queued(s.queue[(origin, r)].decision, true)])
  {
    hide StepWorker, StepFork, HitlStateIn;
  }

  /** A decision queued for a run that stands at its pause, with nobody's input taken yet, can be delivered: its
      promise is resolved with it, the row is marked, and nothing else changes. */
  lemma QueuedIsDelivered(s: State, c: nat, origin: string, r: RunId, decision: string)
    requires c !in s.calls && HitlStateIn(s.core.db, r) == Paused && r !in s.core.promise
    ensures Exec(s, [Enqueue(origin, r, decision), FlushPeek(c, origin, r)] + [Resolve(c), FlushMark(origin, r)]) ==
      s.(core := s.core.(promise := s.core.promise[r := decision]), accepted := s.accepted + [Call(r, decision)],
         queue := s.queue[(origin, r) := Queued(decision, true)])
  {
    hide Step, HitlStateIn, Exec;
    Queues(s, origin, r, decision);
    var s1 := Step(s, Enqueue(origin, r, decision));
    TakenUpExactly(s1, c, origin, r);
    var s2 := Step(s1, FlushPeek(c, origin, r));
    Resolves(s2, c);
    var s3 := Step(s2, Resolve(c));
    Marks(s3, origin, r);
    ExecTwo(s, Enqueue(origin, r, decision), FlushPeek(c, origin, r));
    ExecTwo(s2, Resolve(c), FlushMark(origin, r));
    ExecAppend(s, [Enqueue(origin, r, decision), FlushPeek(c, origin, r)], [Resolve(c), FlushMark(origin, r)]);
    assert s2.calls - {c} == s.calls;
    assert s3.queue[(origin, r) := Queued(decision, true)] == s.queue[(origin, r) := Queued(decision, true)];
  }

  /** Whatever a process holds can be lost at any moment, and nothing else is lost with it. */
  lemma AnythingCanBeLost(s: State, w: nat, f: nat, c: nat)
    ensures Step(s, Crash(w)) == s.(workers := s.workers - {w})
    ensures Step(s, DropFork(f)) == s.(forkers := s.forkers - {f})
    ensures Step(s, DropCall(c)) == s.(calls := s.calls - {c})
  {
    hide HitlStateIn;
    if w !in s.workers { assert s.workers - {w} == s.workers; }
    if f !in s.forkers { assert s.forkers - {f} == s.forkers; }
  }
}
