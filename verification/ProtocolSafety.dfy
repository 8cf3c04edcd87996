/** The invariant on everything a process holds while it runs, and its preservation by every
    action: any schedule of crashes, retries, races, forks and inputs keeps it. */
module ProtocolSafety {
  import opened EffectSink
  import opened Idempotency
  import opened Journal
  import opened Json
  import opened Lineage
  import opened Ordering
  import opened Protocol
  import opened ProtocolInvariant
  import opened ProtocolWrites
  import opened StepModel
  import opened Workflow
  import opened Wrappers

  // ---- The invariant ----

  /** Inside recordStep: past the first step nothing can be seeded under the worker. */
  ghost predicate InStep(c: Core, w: Worker)
  {
    && CanEnter(c, w) && IsSafe(w.run)
    && (Next(w) > 1 ==> NativeIfPresent(c.db, w.run, Next(w)))
  }

  /** The values a worker carries are the journaled outputs, and the value it is about to insert
      is the one its producer computes from them. */
  ghost predicate WorkerOk(c: Core, w: Worker)
  {
    && w.run in c.inputs && |w.vals| <= Len(c.flow(w.run))
    && HasPrefix(c.db, w.run, |w.vals|) && w.vals == Outs(c.db, w.run, |w.vals|)
    && (!w.pc.Start? ==> w.run in c.db.metas)
    && (w.human.Some? ==> w.run in c.promise && c.promise[w.run] == w.human.value)
    && match w.pc
       case Start => true
       case Ready => true
       case Missed => InStep(c, w)
       case Produced(v) => InStep(c, w) && MayInsert(c, w.run, Next(w), v)
       case Got(v) =>
         Next(w) <= Len(c.flow(w.run)) && (w.run, Next(w)) in c.db.steps && v == OutAt(c.db, w.run, Next(w))
  }

  ghost predicate ForkerOk(c: Core, f: Forker)
  {
    PlanOk(c, f.plan) && (f.Loaded? ==> RowsAre(c.db, f.plan.sourceRunId, f.plan.throughSeq, f.rows))
  }

  /** The substrate's log agrees with the journal. */
  ghost predicate LogOk(c: Core, log: map<(RunId, nat), Json>)
  {
    forall p | p in log :: p in c.db.steps && log[p] == c.db.steps[p].output
  }

  ghost predicate ReturnedOk(c: Core, x: Returned)
  {
    var n := Len(c.flow(x.run));
    HasPrefix(c.db, x.run, n) && x.vals == Outs(c.db, x.run, n) && x.run in c.inputs && x.run in c.db.metas
  }

  /** The decision of the first call of a run that was answered accepted. */
  function FirstFor(accepted: seq<Call>, r: RunId): Option<string>
  {
    if |accepted| == 0 then None
    else if accepted[0].run == r then Some(accepted[0].decision)
    else FirstFor(accepted[1..], r)
  }

  ghost predicate AcceptedOk(promise: map<RunId, string>, accepted: seq<Call>)
  {
    forall r: RunId :: FirstFor(accepted, r) == if r in promise then Some(promise[r]) else None
  }

  ghost predicate StateOk(s: State)
  {
    && CoreOk(s.core)
    && (forall w | w in s.workers :: WorkerOk(s.core, s.workers[w]))
    && (forall f | f in s.forkers :: ForkerOk(s.core, s.forkers[f]))
    && LogOk(s.core, s.log)
    && (forall x | x in s.returned :: ReturnedOk(s.core, x))
    && AcceptedOk(s.core.promise, s.accepted)
  }

  // ---- What other processes do leaves it alone ----

  lemma MayInsertKept(c: Core, c': Core, r: RunId, k: nat, v: Json)
    requires Grows(c, c') && MayInsert(c, r, k, v)
    ensures MayInsert(c', r, k, v)
  {
    hide Output, RowId, HasRow, Settled;
    SourcedKept(c, c', r, k);
    OutsKept(c.db, c'.db, r, k - 1);
    var o := Outs(c.db, r, k - 1);
    OutputDepends(c.flow(r), k, c.inputs[r], o, ChoiceOf(c, r).(plan := AsText(v)),
      ChoiceOf(c', r).(plan := AsText(v)));
  }

  lemma InStepKept(c: Core, c': Core, w: Worker)
    requires Grows(c, c') && InStep(c, w) && HasPrefix(c.db, w.run, |w.vals|)
    ensures InStep(c', w)
  {
    hide Settled, IsSafe;
    if Next(w) > 1 {
      assert (w.run, 1) in c.db.steps;
      SettledNative(c.db, c'.db, w.run, Next(w));
    }
  }

  lemma WorkerKept(c: Core, c': Core, w: Worker)
    requires Grows(c, c') && WorkerOk(c, w)
    ensures WorkerOk(c', w)
  {
    hide InStep, MayInsert, Settled, Spec;
    OutsKept(c.db, c'.db, w.run, |w.vals|);
    match w.pc
    case Missed => InStepKept(c, c', w);
    case Produced(v) => InStepKept(c, c', w); MayInsertKept(c, c', w.run, Next(w), v);
    case _ =>
  }

  lemma ForkerKept(c: Core, c': Core, f: Forker)
    requires Grows(c, c') && ForkerOk(c, f)
    ensures ForkerOk(c', f)
  {
    hide Settled, IsSafe;
  }

  lemma ReturnedKept(c: Core, c': Core, x: Returned)
    requires Grows(c, c') && ReturnedOk(c, x)
    ensures ReturnedOk(c', x)
  {
    hide Settled;
    OutsKept(c.db, c'.db, x.run, Len(c.flow(x.run)));
  }

  lemma LogKept(c: Core, c': Core, log: map<(RunId, nat), Json>)
    requires Grows(c, c') && LogOk(c, log)
    ensures LogOk(c', log)
  {
    hide Settled;
  }

  /** A transition is safe when its write is, and whatever it puts in place of a process is too. */
  lemma StateRebuilt(s: State, s': State)
    requires StateOk(s) && CoreOk(s'.core) && Grows(s.core, s'.core)
    requires forall w | w in s'.workers ::
      (w in s.workers && s'.workers[w] == s.workers[w]) || WorkerOk(s'.core, s'.workers[w])
    requires forall f | f in s'.forkers ::
      (f in s.forkers && s'.forkers[f] == s.forkers[f]) || ForkerOk(s'.core, s'.forkers[f])
    requires s'.log == s.log || LogOk(s'.core, s'.log)
    requires forall x | x in s'.returned :: x in s.returned || ReturnedOk(s'.core, x)
    requires AcceptedOk(s'.core.promise, s'.accepted)
    ensures StateOk(s')
  {
    hide WorkerOk, ForkerOk, LogOk, ReturnedOk, AcceptedOk, CoreOk, Grows;
    forall w | w in s'.workers ensures WorkerOk(s'.core, s'.workers[w]) {
      if w in s.workers && s'.workers[w] == s.workers[w] { WorkerKept(s.core, s'.core, s.workers[w]); }
    }
    forall f | f in s'.forkers ensures ForkerOk(s'.core, s'.forkers[f]) {
      if f in s.forkers && s'.forkers[f] == s.forkers[f] { ForkerKept(s.core, s'.core, s.forkers[f]); }
    }
    LogKept(s.core, s'.core, s.log);
    forall x | x in s'.returned ensures ReturnedOk(s'.core, x) {
      if x in s.returned { ReturnedKept(s.core, s'.core, x); }
    }
  }

  // ---- Worker actions ----

  ghost predicate Safe(s: State, s': State) { StateOk(s') && Grows(s.core, s'.core) }

  /** A worker moves on, or goes away, with nothing durable changed but what the core write allows. */
  lemma WorkerMoves(s: State, s': State, w: nat, me: Worker)
    requires StateOk(s) && CoreOk(s'.core) && Grows(s.core, s'.core) && WorkerOk(s'.core, me)
    requires s' == s.(core := s'.core, workers := s.workers[w := me])
    requires s'.core.promise == s.core.promise
    ensures Safe(s, s')
  {
    hide WorkerOk, ForkerOk, LogOk, ReturnedOk, AcceptedOk, CoreOk, Grows;
    StateRebuilt(s, s');
  }

  lemma WorkerStops(s: State, w: nat, returned: set<Returned>)
    requires StateOk(s) && forall x | x in returned :: x in s.returned || ReturnedOk(s.core, x)
    ensures Safe(s, s.(workers := s.workers - {w}, returned := returned))
  {
    GrowsReflexive(s.core);
    hide WorkerOk, ForkerOk, LogOk, ReturnedOk, AcceptedOk, CoreOk, Grows;
    StateRebuilt(s, s.(workers := s.workers - {w}, returned := returned));
  }

  lemma EnsuredOk(c: Core, me: Worker)
    requires WorkerOk(c, me) && me.run in c.db.metas
    ensures WorkerOk(c, me.(pc := Ready))
  {
    hide InStep, MayInsert, HasPrefix, Outs;
  }

  lemma EnsureSafe(s: State, w: nat, now: string)
    requires StateOk(s) && w in s.workers
    ensures Safe(s, EnsureRunStep(s, w, s.workers[w], now))
  {
    hide CoreOk, Grows, WorkerOk, ForkerOk, LogOk, ReturnedOk, AcceptedOk;
    var me, c := s.workers[w], s.core;
    GrowsReflexive(c);
    if me.pc.Start? && me.run in c.inputs {
      var c' := CoreEnsure(c, me.run, now);
      EnsurePreserves(c, me.run, now);
      WorkerKept(c, c', me);
      EnsuredOk(c', me);
      WorkerMoves(s, EnsureRunStep(s, w, me, now), w, me.(pc := Ready));
    }
  }

  lemma AwaitedOk(c: Core, me: Worker)
    requires WorkerOk(c, me) && me.pc.Ready? && me.run in c.promise
    ensures WorkerOk(c, me.(human := Some(c.promise[me.run])))
  {
    hide InStep, MayInsert, HasPrefix, Outs;
  }

  lemma AwaitSafe(s: State, w: nat)
    requires StateOk(s) && w in s.workers
    ensures Safe(s, AwaitStep(s, w, s.workers[w]))
  {
    hide CoreOk, Grows, WorkerOk, ForkerOk, LogOk, ReturnedOk, AcceptedOk;
    var me, c := s.workers[w], s.core;
    GrowsReflexive(c);
    if me.pc.Ready? && me.run in c.promise {
      AwaitedOk(c, me);
      WorkerMoves(s, SetWorker(s, w, me.(human := Some(c.promise[me.run]))), w, me.(human := Some(c.promise[me.run])));
    }
  }

  /** One more value, equal to the journaled output. */
  lemma ValsGrow(c: Core, w: Worker, v: Json)
    requires WorkerOk(c, w) && Next(w) <= Len(c.flow(w.run)) && !w.pc.Start?
    requires (w.run, Next(w)) in c.db.steps && v == OutAt(c.db, w.run, Next(w))
    ensures WorkerOk(c, w.(vals := w.vals + [v], pc := Ready))
  {
    hide InStep, MayInsert, Len, Spec;
    var n := |w.vals|;
    assert Outs(c.db, w.run, n + 1) == Outs(c.db, w.run, n) + [v];
  }

  lemma ReplaySafe(s: State, w: nat)
    requires StateOk(s) && w in s.workers
    ensures Safe(s, ReplayStep(s, w, s.workers[w]))
  {
    hide CoreOk, Grows, WorkerOk, ForkerOk, ReturnedOk, AcceptedOk, Spec;
    var me, c := s.workers[w], s.core;
    GrowsReflexive(c);
    var p := (me.run, Next(me));
    if me.pc.Ready? && CanEnter(c, me) && p in s.log {
      ValsGrow(c, me, s.log[p]);
      WorkerMoves(s, ReplayStep(s, w, me), w, me.(vals := me.vals + [s.log[p]]));
    }
  }

  lemma ReadOk(c: Core, me: Worker)
    requires WorkerOk(c, me) && me.pc.Ready? && CanEnter(c, me)
    requires DeriveKey(me.run, Spec(c.flow(me.run), Next(me)).name).Ok?
    ensures var p := (me.run, Next(me));
      if p in c.db.steps then WorkerOk(c, me.(pc := Got(c.db.steps[p].output))) else WorkerOk(c, me.(pc := Missed))
  {
    hide MayInsert, HasPrefix, Outs, IsSafe;
  }

  lemma ReadSafe(s: State, w: nat)
    requires StateOk(s) && w in s.workers
    ensures Safe(s, ReadStep(s, w, s.workers[w]))
  {
    hide CoreOk, Grows, WorkerOk, ForkerOk, LogOk, ReturnedOk, AcceptedOk, IsSafe, DeriveKey;
    var me, c := s.workers[w], s.core;
    GrowsReflexive(c);
    WorkerStops(s, w, s.returned);
    if me.pc.Ready? && CanEnter(c, me) && DeriveKey(me.run, Spec(c.flow(me.run), Next(me)).name).Ok? {
      ReadOk(c, me);
      var p := (me.run, Next(me));
      var me' := if p in c.db.steps then me.(pc := Got(c.db.steps[p].output)) else me.(pc := Missed);
      WorkerMoves(s, SetWorker(s, w, me'), w, me');
    }
  }

  lemma ProducerOutput(c: Core, w: Worker, answer: string)
    requires WorkerOk(c, w) && w.pc.Missed? && Next(w) != ToolSeq(c.flow(w.run))
    ensures var v := Output(c.flow(w.run), Next(w), c.inputs[w.run], w.vals, Choice(answer, OrEmpty(w.human), 0));
      WorkerOk(c, w.(pc := Produced(v)))
  {
    var r, k, f := w.run, Next(w), c.flow(w.run);
    var choice := Choice(answer, OrEmpty(w.human), 0);
    var v := Output(f, k, c.inputs[r], w.vals, choice);
    FirstOutput(f, k, c.inputs[r], w.vals, choice);
    hide Output, Spec, RowId, HasRow, IsSafe;
    OutputDepends(f, k, c.inputs[r], w.vals, choice, ChoiceOf(c, r).(plan := AsText(v)));
  }

  lemma FirstOutput(f: Flow, k: nat, input: WorkflowInput, vals: seq<Json>, c: Choice)
    requires 1 <= k <= Len(f) && |vals| >= k - 1
    ensures k == 1 ==> AsText(Output(f, k, input, vals, c)) == c.plan
  {
  }

  lemma ProduceSafe(s: State, w: nat, answer: string)
    requires StateOk(s) && w in s.workers
    ensures Safe(s, ProduceStep(s, w, s.workers[w], answer))
  {
    hide CoreOk, Grows, WorkerOk, ForkerOk, LogOk, ReturnedOk, AcceptedOk, Output, Spec;
    var me, c := s.workers[w], s.core;
    GrowsReflexive(c);
    var s' := ProduceStep(s, w, me, answer);
    if s' != s {
      ProducerOutput(c, me, answer);
      WorkerMoves(s, s', w, s'.workers[w]);
    }
  }

  lemma FiredOutput(c: Core, c': Core, w: Worker)
    requires WorkerOk(c', w) && w.pc.Missed? && Next(w) == ToolSeq(c.flow(w.run))
      && c' == c.(sink := c'.sink, lastId := c'.lastId)
    requires HasRow(c'.sink, ToolKey(c, w.run))
    ensures var choice := Choice("", "", RowId(c'.sink, ToolKey(c, w.run)));
      var v := Output(c.flow(w.run), Next(w), c.inputs[w.run], w.vals, choice);
      WorkerOk(c', w.(pc := Produced(v)))
  {
    hide HasRow, RowId, Output, IsSafe;
    var r, k, f := w.run, Next(w), c.flow(w.run);
    var choice := Choice("", "", RowId(c'.sink, ToolKey(c, r)));
    var v := Output(f, k, c.inputs[r], w.vals, choice);
    OutputDepends(f, k, c.inputs[r], w.vals, choice, ChoiceOf(c', r).(plan := AsText(v)));
  }

  lemma MissedMayFire(c: Core, w: Worker)
    requires WorkerOk(c, w) && w.pc.Missed? && Next(w) == ToolSeq(c.flow(w.run))
    ensures MayFire(c, w.run, w.vals)
  {
    hide IsSafe, Spec, Outs;
  }

  lemma FireSafe(s: State, w: nat, now: string, pid: nat)
    requires StateOk(s) && w in s.workers
    ensures Safe(s, FireStep(s, w, s.workers[w], now, pid))
  {
    hide CoreOk, Grows, WorkerOk, ForkerOk, LogOk, ReturnedOk, AcceptedOk;
    hide MayFire, Output, Spec, Fire, RowId, HasRow, EffectOf;
    var me, c := s.workers[w], s.core;
    GrowsReflexive(c);
    if me.pc.Missed? && Next(me) == ToolSeq(c.flow(me.run)) && me.run in c.inputs {
      MissedMayFire(c, me);
      var c' := CoreFire(c, me.run, me.vals, now, pid);
      FirePreserves(c, me.run, me.vals, now, pid);
      WorkerKept(c, c', me);
      FiredOutput(c, c', me);
      var s' := FireStep(s, w, me, now, pid);
      WorkerMoves(s, s', w, s'.workers[w]);
    }
  }

  lemma InsertedOk(c: Core, w: Worker)
    requires WorkerOk(c, w) && w.pc.Produced? && Next(w) <= Len(c.flow(w.run))
    requires (w.run, Next(w)) in c.db.steps && w.pc.value == OutAt(c.db, w.run, Next(w))
    ensures WorkerOk(c, w.(pc := Got(w.pc.value)))
  {
    hide InStep, MayInsert, HasPrefix, Outs;
  }

  lemma ProducedMayInsert(c: Core, w: Worker)
    requires WorkerOk(c, w) && w.pc.Produced?
    ensures MayInsert(c, w.run, Next(w), w.pc.value)
  {
    hide MayInsert, InStep;
  }

  lemma InsertSafe(s: State, w: nat, now: string)
    requires StateOk(s) && w in s.workers
    ensures Safe(s, InsertStepOf(s, w, s.workers[w], now))
  {
    hide CoreOk, Grows, WorkerOk, ForkerOk, LogOk, ReturnedOk, AcceptedOk, MayInsert, InsertStep, NewEntry, Spec;
    var me, c := s.workers[w], s.core;
    GrowsReflexive(c);
    WorkerStops(s, w, s.returned);
    if me.pc.Produced? && Next(me) <= Len(c.flow(me.run)) {
      var e := NewEntry(c, me.run, Next(me), me.pc.value, now);
      if InsertStep(c.db, e).Some? {
        ProducedMayInsert(c, me);
        InsertPreserves(c, me.run, Next(me), me.pc.value, now);
        var c' := c.(db := InsertStep(c.db, e).value);
        WorkerKept(c, c', me);
        InsertedOk(c', me);
        WorkerMoves(s, InsertStepOf(s, w, me, now), w, me.(pc := Got(me.pc.value)));
      }
    }
  }

  lemma GotOk(c: Core, w: Worker)
    requires WorkerOk(c, w) && w.pc.Got?
    ensures Next(w) <= Len(c.flow(w.run)) && (w.run, Next(w)) in c.db.steps && w.pc.value == OutAt(c.db, w.run, Next(w))
  {
    hide MayInsert, InStep;
  }

  lemma CommitSafe(s: State, w: nat)
    requires StateOk(s) && w in s.workers
    ensures Safe(s, CommitStep(s, w, s.workers[w]))
  {
    hide CoreOk, Grows, WorkerOk, ForkerOk, ReturnedOk, AcceptedOk, Spec;
    var me, c := s.workers[w], s.core;
    GrowsReflexive(c);
    if me.pc.Got? {
      GotOk(c, me);
      ValsGrow(c, me, me.pc.value);
      StateRebuilt(s, CommitStep(s, w, me));
    }
  }

  lemma FinishedOk(c: Core, w: Worker)
    requires WorkerOk(c, w) && w.pc.Ready? && |w.vals| == Len(c.flow(w.run))
    ensures ReturnedOk(c, Returned(w.run, w.vals))
  {
    hide MayInsert, InStep;
  }

  lemma ReturnSafe(s: State, w: nat)
    requires StateOk(s) && w in s.workers
    ensures Safe(s, ReturnStep(s, w, s.workers[w]))
  {
    hide CoreOk, Grows, WorkerOk, ForkerOk, LogOk, ReturnedOk, AcceptedOk, Spec;
    var me, c := s.workers[w], s.core;
    GrowsReflexive(c);
    if me.pc.Ready? && |me.vals| == Len(c.flow(me.run)) {
      FinishedOk(c, me);
      WorkerStops(s, w, s.returned + {Returned(me.run, me.vals)});
    }
  }

  lemma WorkerSafe(s: State, w: nat, a: Action)
    requires StateOk(s) && w in s.workers
    ensures Safe(s, StepWorker(s, w, a))
  {
    hide Safe, StateOk, EnsureRunStep, AwaitStep, ReplayStep, ReadStep;
    hide ProduceStep, FireStep, InsertStepOf, CommitStep, ReturnStep;
    match a
    case EnsureRun(_, now) => EnsureSafe(s, w, now);
    case AwaitInput(_) => AwaitSafe(s, w);
    case Replay(_) => ReplaySafe(s, w);
    case Read(_) => ReadSafe(s, w);
    case CallProducer(_, answer) => ProduceSafe(s, w, answer);
    case FireTool(_, now, pid) => FireSafe(s, w, now, pid);
    case Insert(_, now) => InsertSafe(s, w, now);
    case Commit(_) => CommitSafe(s, w);
    case Return(_) => ReturnSafe(s, w);
    case Crash(_) => WorkerStops(s, w, s.returned);
    case _ => NothingSafe(s);
  }

  lemma NothingSafe(s: State)
    requires StateOk(s)
    ensures Safe(s, s)
  {
    hide StateOk;
    GrowsReflexive(s.core);
  }

  // ---- Forks ----

  /** How many steps a run has: its entries are exactly 1..m. */
  lemma RunLength(c: Core, r: RunId) returns (m: nat)
    requires EntriesOk(c)
    ensures m <= Len(c.flow(r)) && forall k: nat :: (r, k) in c.db.steps <==> 1 <= k <= m
  {
    hide EntryOk, Spec;
    m := 0;
    while m < Len(c.flow(r)) && (r, m + 1) in c.db.steps
      invariant m <= Len(c.flow(r)) && HasPrefix(c.db, r, m)
    {
      m := m + 1;
    }
    forall k: nat | (r, k) in c.db.steps ensures 1 <= k <= m {
      StepHasMeta(c, r, k);
    }
  }

  lemma {:induction false} FilterThrough(t: seq<Entry>, n: nat)
    requires n <= |t| && forall i | 0 <= i < |t| :: t[i].seqNo == i + 1
    ensures Filter(t, (e: Entry) => e.seqNo <= n) == t[..n]
  {
    var keep := (e: Entry) => e.seqNo <= n;
    FilterAppend(t[..n], t[n..], keep);
    FilterAll(t[..n], keep);
    FilterNone(t[n..], keep);
    assert t[..n] + t[n..] == t;
  }

  lemma LoadedRows(c: Core, src: RunId, n: nat)
    requires EntriesOk(c) && n >= 1 && (src, n) in c.db.steps
    ensures RowsAre(c.db, src, n, RowsThrough(c.db, src, n))
  {
    hide EntryOk;
    var m := RunLength(c, src);
    TrajectoryContiguous(c.db, src, m);
    hide Trajectory;
    var t := Trajectory(c.db, src);
    forall i | 0 <= i < |t| ensures t[i].seqNo == i + 1 { SeqNoOf(c, src, i + 1); }
    FilterThrough(t, n);
  }

  lemma SeqNoOf(c: Core, r: RunId, k: nat)
    requires EntriesOk(c) && (r, k) in c.db.steps
    ensures c.db.steps[(r, k)].seqNo == k && KeyStep(c.db.steps[(r, k)].idemKey) == c.db.steps[(r, k)].stepName
    ensures 1 <= k <= Len(c.flow(r)) && c.db.steps[(r, k)].stepName == Spec(c.flow(r), k).name
  {
    assert EntryOk(c, r, k);
  }

  lemma ValidCore(c: Core)
    requires EntriesOk(c) && MetasOk(c)
    ensures ValidDb(c.db) && forall p | p in c.db.steps :: p.1 >= 1
  {
    hide NativeOk, HasPrefix, SeededThrough, NativeBeyond, IsSafe;
    forall p | p in c.db.steps ensures c.db.steps[p].runId == p.0 && c.db.steps[p].seqNo == p.1 && p.1 >= 1 {
      assert EntryOk(c, p.0, p.1);
    }
    forall r | r in c.db.metas ensures c.db.metas[r].runId == r { assert MetaOk(c, r); }
  }

  lemma ValidatedOk(c: Core, plan: ForkPlan)
    requires EntriesOk(c) && MetasOk(c) && ForkPlanError(c.db, plan).None?
      && c.flow(plan.sourceRunId) == c.flow(plan.newRunId)
    ensures PlanOk(c, plan)
  {
    hide NativeOk;
    ValidCore(c);
    hide ForkPlanError;
    ForkPlanAccepted(c.db, plan);
  }

  lemma ForkerChanges(s: State, f: nat, me: Forker)
    requires StateOk(s) && ForkerOk(s.core, me)
    ensures Safe(s, s.(forkers := s.forkers[f := me]))
  {
    hide CoreOk, Grows, WorkerOk, ForkerOk, LogOk, ReturnedOk, AcceptedOk;
    GrowsReflexive(s.core);
    StateRebuilt(s, s.(forkers := s.forkers[f := me]));
  }

  lemma ForkerStops(s: State, f: nat, c': Core)
    requires StateOk(s) && CoreOk(c') && Grows(s.core, c') && c'.promise == s.core.promise
    ensures Safe(s, s.(core := c', forkers := s.forkers - {f}))
  {
    hide CoreOk, Grows, WorkerOk, ForkerOk, LogOk, ReturnedOk, AcceptedOk;
    StateRebuilt(s, s.(core := c', forkers := s.forkers - {f}));
  }

  lemma LoadSafe(s: State, f: nat)
    requires StateOk(s) && f in s.forkers
    ensures Safe(s, LoadStep(s, f, s.forkers[f]))
  {
    hide Grows, WorkerOk, LogOk, ReturnedOk, AcceptedOk, EntriesOk, MetasOk;
    hide RowsOk, KeysUnique, Forest, RowsThrough, RowsAre, IsSafe;
    NothingSafe(s);
    var me := s.forkers[f];
    if me.Validated? && me.plan.throughSeq >= 0 {
      LoadedRows(s.core, me.plan.sourceRunId, me.plan.throughSeq);
      ForkerChanges(s, f, Loaded(me.plan, RowsThrough(s.core.db, me.plan.sourceRunId, me.plan.throughSeq)));
    }
  }

  lemma CommittedFork(c: Core, me: Forker, now: string)
    requires CoreOk(c) && ForkerOk(c, me) && me.Loaded?
    requires CommitFork(c.db, me.rows, me.plan.sourceRunId, me.plan.newRunId, me.plan.throughSeq, me.plan.trajectory,
      now).Some?
    ensures var db' := CommitFork(c.db, me.rows, me.plan.sourceRunId, me.plan.newRunId, me.plan.throughSeq,
      me.plan.trajectory, now).value;
      CoreOk(c.(db := db')) && Grows(c, c.(db := db'))
  {
    hide CommitFork, EntryOk, MetaOk, RowOk, Grows, Forked, IsSafe, KeysUnique, Ranked, MetasOk, RowsOk;
    var src, dst, n := me.plan.sourceRunId, me.plan.newRunId, me.plan.throughSeq;
    var db' := CommitFork(c.db, me.rows, src, dst, n, me.plan.trajectory, now).value;
    StepHasMeta(c, src, n);
    forall k: nat | 1 <= k <= n ensures (src, k) in c.db.steps && c.db.steps[(src, k)].seqNo == k {
      assert (src, k) in c.db.steps;
      SeqNoOf(c, src, k);
    }
    CommitForkForks(c.db, me.rows, src, dst, n, me.plan.trajectory, now);
    ForkPreserves(c, c.(db := db'), src, dst, n, me.plan.trajectory, now);
  }

  lemma CommitForkSafe(s: State, f: nat, now: string)
    requires StateOk(s) && f in s.forkers
    ensures Safe(s, CommitForkStep(s, f, s.forkers[f], now))
  {
    hide CoreOk, Grows, WorkerOk, ForkerOk, LogOk, ReturnedOk, AcceptedOk, CommitFork;
    GrowsReflexive(s.core);
    NothingSafe(s);
    ForkerStops(s, f, s.core);
    var me := s.forkers[f];
    if me.Loaded? && me.plan.throughSeq >= 0 {
      var result := CommitFork(s.core.db, me.rows, me.plan.sourceRunId, me.plan.newRunId, me.plan.throughSeq,
        me.plan.trajectory, now);
      if result.Some? {
        CommittedFork(s.core, me, now);
        ForkerStops(s, f, s.core.(db := result.value));
      }
    }
  }

  lemma ForkSafe(s: State, f: nat, a: Action)
    requires StateOk(s) && f in s.forkers
    ensures Safe(s, StepFork(s, f, a))
  {
    hide CoreOk, Grows, WorkerOk, ForkerOk, LogOk, ReturnedOk, AcceptedOk, Safe, LoadStep, CommitForkStep;
    NothingSafe(s);
    GrowsReflexive(s.core);
    match a
    case LoadRows(_) => LoadSafe(s, f);
    case CommitForkRun(_, now) => CommitForkSafe(s, f, now);
    case DropFork(_) => ForkerStops(s, f, s.core);
    case _ =>
  }

  lemma ValidateSafe(s: State, f: nat, plan: ForkPlan)
    requires StateOk(s)
    ensures Safe(s, Step(s, ValidateFork(f, plan)))
  {
    hide Grows, WorkerOk, LogOk, ReturnedOk, AcceptedOk, EntriesOk;
    hide MetasOk, RowsOk, KeysUnique, Forest, ForkPlanError, PlanOk;
    NothingSafe(s);
    if ForkPlanError(s.core.db, plan).None? && s.core.flow(plan.sourceRunId) == s.core.flow(plan.newRunId) {
      ValidatedOk(s.core, plan);
      ForkerChanges(s, f, Validated(plan));
    }
  }

  // ---- Inputs ----

  lemma {:induction false} FirstForAppend(accepted: seq<Call>, call: Call, r: RunId)
    ensures FirstFor(accepted + [call], r) ==
      if FirstFor(accepted, r).Some? then FirstFor(accepted, r) else if call.run == r then Some(call.decision) else None
  {
    if |accepted| > 0 {
      assert (accepted + [call])[1..] == accepted[1..] + [call];
      FirstForAppend(accepted[1..], call, r);
    }
  }

  lemma ResolvedOk(c: Core, accepted: seq<Call>, call: Call)
    requires AcceptedOk(c.promise, accepted)
    ensures AcceptedOk(CoreResolve(c, call).promise, accepted + [call])
  {
    hide FirstFor;
    forall r: RunId
      ensures FirstFor(accepted + [call], r) ==
        if r in CoreResolve(c, call).promise then Some(CoreResolve(c, call).promise[r]) else None
    {
      FirstForAppend(accepted, call, r);
    }
  }

  lemma ResolveSafe(s: State, c: nat)
    requires StateOk(s) && c in s.calls
    ensures Safe(s, StepInput(s, Resolve(c)))
  {
    hide CoreOk, Grows, WorkerOk, ForkerOk, LogOk, ReturnedOk, AcceptedOk;
    ResolvePreserves(s.core, s.calls[c]);
    ResolvedOk(s.core, s.accepted, s.calls[c]);
    StateRebuilt(s, StepInput(s, Resolve(c)));
  }

  /** The substrate's pending calls and the offline queue hold nothing the invariant speaks of. */
  lemma BystandersSafe(s: State, calls: map<nat, Call>, queue: map<(string, RunId), Queued>)
    requires StateOk(s)
    ensures Safe(s, s.(calls := calls, queue := queue))
  {
    hide CoreOk, Grows, WorkerOk, ForkerOk, LogOk, ReturnedOk, AcceptedOk;
    GrowsReflexive(s.core);
  }

  lemma OnlyResolvingWrites(s: State, a: Action)
    requires !(a.Resolve? && a.c in s.calls)
    ensures var s' := StepInput(s, a); s' == s.(calls := s'.calls, queue := s'.queue)
  {
    hide HitlStateIn, CoreResolve;
  }

  lemma InputSafe(s: State, a: Action)
    requires StateOk(s)
    ensures Safe(s, StepInput(s, a))
  {
    hide StateOk, Safe, StepInput;
    var s' := StepInput(s, a);
    if a.Resolve? && a.c in s.calls {
      ResolveSafe(s, a.c);
    } else {
      OnlyResolvingWrites(s, a);
      BystandersSafe(s, s'.calls, s'.queue);
    }
  }

  lemma SubmitSafe(s: State, r: RunId, input: WorkflowInput)
    requires StateOk(s)
    ensures Safe(s, s.(core := CoreSubmit(s.core, r, input)))
  {
    hide CoreOk, Grows, WorkerOk, ForkerOk, LogOk, ReturnedOk, AcceptedOk;
    SubmitPreserves(s.core, r, input);
    StateRebuilt(s, s.(core := CoreSubmit(s.core, r, input)));
  }

  lemma SpawnedOk(c: Core, r: RunId)
    requires r in c.inputs
    ensures WorkerOk(c, Worker(r, None, [], Start))
  {
  }

  lemma SpawnSafe(s: State, w: nat, r: RunId)
    requires StateOk(s) && r in s.core.inputs
    ensures Safe(s, SetWorker(s, w, Worker(r, None, [], Start)))
  {
    hide CoreOk, Grows, WorkerOk, ForkerOk, LogOk, ReturnedOk, AcceptedOk;
    GrowsReflexive(s.core);
    SpawnedOk(s.core, r);
    WorkerMoves(s, SetWorker(s, w, Worker(r, None, [], Start)), w, Worker(r, None, [], Start));
  }

  // ---- Every action, every schedule ----

  /** One step of any process preserves the invariant and takes nothing back. */
  lemma StepSafe(s: State, a: Action)
    requires StateOk(s)
    ensures Safe(s, Step(s, a))
  {
    hide StateOk, Safe, StepWorker, StepFork, StepInput;
    NothingSafe(s);
    match a
    case Submit(r, input) => SubmitSafe(s, r, input);
    case Spawn(w, r) => if r in s.core.inputs { SpawnSafe(s, w, r); }
    case ValidateFork(f, plan) => ValidateSafe(s, f, plan);
    case LoadRows(f) => if f in s.forkers { ForkSafe(s, f, a); }
    case CommitForkRun(f, _) => if f in s.forkers { ForkSafe(s, f, a); }
    case DropFork(f) => if f in s.forkers { ForkSafe(s, f, a); }
    case Peek(_, _, _) => InputSafe(s, a);
    case Resolve(_) => InputSafe(s, a);
    case DropCall(_) => InputSafe(s, a);
    case Enqueue(_, _, _) => InputSafe(s, a);
    case FlushPeek(_, _, _) => InputSafe(s, a);
    case FlushMark(_, _) => InputSafe(s, a);
    case _ => if a.w in s.workers { WorkerSafe(s, a.w, a); }
  }

  lemma InitOk(flow: RunId -> Flow)
    ensures StateOk(Init(flow))
  {
    var none: map<RunId, nat> := map[];
    assert Ranked(Init(flow).core.db.metas, none);
  }

  /** Any schedule from a good state stays good, and only adds to what is durable. */
  lemma {:induction false} ScheduleSafe(s: State, schedule: seq<Action>)
    requires StateOk(s)
    ensures Safe(s, Exec(s, schedule))
    decreases |schedule|
  {
    hide StateOk, Grows, Step;
    if |schedule| == 0 {
      NothingSafe(s);
    } else {
      var s1 := Step(s, schedule[0]);
      StepSafe(s, schedule[0]);
      ScheduleSafe(s1, schedule[1..]);
      GrowsTransitive(s.core, s1.core, Exec(s, schedule).core);
    }
  }

  /** Every reachable state satisfies the invariant. */
  lemma Invariant(flow: RunId -> Flow, schedule: seq<Action>)
    ensures StateOk(Exec(Init(flow), schedule))
  {
    hide StateOk;
    InitOk(flow);
    ScheduleSafe(Init(flow), schedule);
  }
}
