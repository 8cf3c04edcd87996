/** Concrete schedules and stores on which the exceptions of the general theorems occur. */
module Examples {
  import opened AllRuns
  import opened Bundle
  import opened Descendants
  import opened EffectSink
  import opened Idempotency
  import opened Journal
  import opened Json
  import opened Lineage
  import opened Offline
  import opened OfflineTheorems
  import opened Ordering
  import opened Protocol
  import opened ProtocolInvariant
  import opened ProtocolSafety
  import opened Replay
  import opened Source
  import opened StepModel
  import opened TimeTravel
  import opened Workflow
  import opened Wrappers

  const AGENTS: RunId -> Flow := (r: RunId) => Agent

  const INPUT := WorkflowInput("p", None)

  // ---- Steps that are taken ----

  lemma Begins(s: State, w: nat, r: RunId, now: string)
    requires r !in s.core.inputs && w !in s.workers
    ensures Exec(s, [Submit(r, INPUT), Spawn(w, r), EnsureRun(w, now)]) ==
      s.(core := s.core.(inputs := s.core.inputs[r := INPUT], db := EnsureMeta(s.core.db, r, "main", now)),
         workers := s.workers[w := Worker(r, None, [], Ready)])
  {
    hide Step;
    var s1 := s.(core := s.core.(inputs := s.core.inputs[r := INPUT]));
    var s2 := s1.(workers := s.workers[w := Worker(r, None, [], Start)]);
    Submits(s, r);
    Spawns(s1, w, r);
    Ensures(s2, w, now);
    Three(s, Submit(r, INPUT), Spawn(w, r), EnsureRun(w, now));
    assert s2.workers[w := Worker(r, None, [], Ready)] == s.workers[w := Worker(r, None, [], Ready)];
  }

  lemma Three(s: State, a: Action, b: Action, c: Action)
    ensures Exec(s, [a, b, c]) == Step(Step(Step(s, a), b), c)
  {
    hide Step;
    assert [a, b, c][1..] == [b, c] && [b, c][1..] == [c] && [c][1..] == [];
    assert Exec(Step(s, a), [b, c]) == Exec(Step(Step(s, a), b), [c]);
    assert Exec(Step(Step(s, a), b), [c]) == Exec(Step(Step(Step(s, a), b), c), []);
  }

  lemma Submits(s: State, r: RunId)
    requires r !in s.core.inputs
    ensures Step(s, Submit(r, INPUT)) == s.(core := s.core.(inputs := s.core.inputs[r := INPUT]))
  {
  }

  lemma Spawns(s: State, w: nat, r: RunId)
    requires r in s.core.inputs && w !in s.workers
    ensures Step(s, Spawn(w, r)) == s.(workers := s.workers[w := Worker(r, None, [], Start)])
  {
  }

  lemma Ensures(s: State, w: nat, now: string)
    requires w in s.workers && s.workers[w].pc.Start? && s.workers[w].run in s.core.inputs
      && s.core.inputs[s.workers[w].run] == INPUT
    ensures Step(s, EnsureRun(w, now)) ==
      s.(core := s.core.(db := EnsureMeta(s.core.db, s.workers[w].run, "main", now)),
        workers := s.workers[w := s.workers[w].(pc := Ready)])
  {
  }

  lemma AgentLength()
    ensures Len(Agent) == 3
  {
  }

  lemma Misses(s: State, w: nat)
    requires w in s.workers && s.workers[w].pc.Ready? && CanEnter(s.core, s.workers[w])
    requires var me := s.workers[w]; (me.run, Next(me)) !in s.log && (me.run, Next(me)) !in s.core.db.steps
    requires DeriveKey(s.workers[w].run, Spec(s.core.flow(s.workers[w].run), Next(s.workers[w])).name).Ok?
    ensures Step(s, Read(w)) == s.(workers := s.workers[w := s.workers[w].(pc := Missed)])
  {
  }

  lemma Plans(s: State, w: nat, answer: string)
    requires w in s.workers && s.workers[w].pc.Missed? && s.workers[w].vals == [] && s.workers[w].run in s.core.inputs
    requires s.core.flow(s.workers[w].run) == Agent
    ensures Step(s, CallProducer(w, answer))
      == s.(workers := s.workers[w := s.workers[w].(pc := Produced(JStr(answer)))])
  {
    hide Table, Spec;
    AgentLength();
  }

  function PlanEntry(r: RunId, answer: string, now: string): Entry
  {
    NativeEntry(ArgsOf(Agent, 1, r), r + ":" + Spec(Agent, 1).name, JStr(answer), now)
  }

  lemma Inserts(s: State, w: nat, answer: string, now: string)
    requires w in s.workers && s.workers[w].pc == Produced(JStr(answer)) && s.workers[w].vals == []
      && s.core.flow(s.workers[w].run) == Agent
    requires forall p | p in s.core.db.steps :: p.0 != s.workers[w].run
    ensures var r := s.workers[w].run;
      Step(s, Insert(w, now)) ==
        s.(core := s.core.(db := s.core.db.(steps := s.core.db.steps[(r, 1) := PlanEntry(r, answer, now)])),
           workers := s.workers[w := s.workers[w].(pc := Got(JStr(answer)))])
  {
    hide Table, Spec;
    AgentLength();
  }

  /** A worker at the start of an agent run records the plan. */
  lemma RecordsPlan(s: State, w: nat, answer: string, now: string)
    requires w in s.workers && s.workers[w] == Worker(s.workers[w].run, None, [], Ready)
      && s.core.flow(s.workers[w].run) == Agent
    requires var r := s.workers[w].run;
      IsSafe(r) && r in s.core.inputs && (r, 1) !in s.log && forall p | p in s.core.db.steps :: p.0 != r
    ensures var r := s.workers[w].run;
      Exec(s, [Read(w), CallProducer(w, answer), Insert(w, now)]) ==
        s.(core := s.core.(db := s.core.db.(steps := s.core.db.steps[(r, 1) := PlanEntry(r, answer, now)])),
           workers := s.workers[w := Worker(r, None, [], Got(JStr(answer)))])
  {
    hide Step, Spec, DeriveKey, IsSafe;
    var r := s.workers[w].run;
    PlanKey(r);
    assert CanEnter(s.core, s.workers[w]) by { assert Next(s.workers[w]) == 1; }
    Misses(s, w);
    var s1 := s.(workers := s.workers[w := Worker(r, None, [], Missed)]);
    Plans(s1, w, answer);
    var s2 := s1.(workers := s1.workers[w := Worker(r, None, [], Produced(JStr(answer)))]);
    Inserts(s2, w, answer, now);
    Three(s, Read(w), CallProducer(w, answer), Insert(w, now));
    assert s2.workers[w := Worker(r, None, [], Got(JStr(answer)))]
      == s.workers[w := Worker(r, None, [], Got(JStr(answer)))];
  }

  lemma PlanKey(r: RunId)
    requires IsSafe(r)
    ensures DeriveKey(r, Spec(Agent, 1).name).Ok? && DeriveKey(r, Spec(Agent, 2).name).Ok?
  {
    StepNameSafe(Agent, 1);
    StepNameSafe(Agent, 2);
    DeriveSafe(r, Spec(Agent, 1).name);
    DeriveSafe(r, Spec(Agent, 2).name);
  }

  /** Worker 0 has recorded the plan of run r, created and recorded at one time. */
  function Planned(r: RunId, now: string): State
  {
    Init(AGENTS).(core := Init(AGENTS).core.(inputs := map[r := INPUT],
                                             db := Db(map[(r, 1) := PlanEntry(r, "x", now)],
                                               map[r := RunMeta(r, None, None, "main", now)])),
                  workers := map[0 := Worker(r, None, [], Got(JStr("x")))])
  }

  function PlanSchedule(r: RunId, now: string): seq<Action>
  {
    [Submit(r, INPUT), Spawn(0, r), EnsureRun(0, now)] + [Read(0), CallProducer(0, "x"), Insert(0, now)]
  }

  lemma PlanIsRecorded(r: RunId, now: string)
    requires IsSafe(r)
    ensures Exec(Init(AGENTS), PlanSchedule(r, now)) == Planned(r, now)
  {
    hide Exec, IsSafe, PlanEntry;
    var s := Init(AGENTS);
    Begins(s, 0, r, now);
    var s1 := Exec(s, [Submit(r, INPUT), Spawn(0, r), EnsureRun(0, now)]);
    assert s1.core.db == Db(map[], map[r := RunMeta(r, None, None, "main", now)]);
    RecordsPlan(s1, 0, "x", now);
    ExecAppend(s, [Submit(r, INPUT), Spawn(0, r), EnsureRun(0, now)], [Read(0), CallProducer(0, "x"), Insert(0, now)]);
  }

  // ---- An effect ahead of its tool step ----

  lemma Commits(s: State, w: nat, v: Json)
    requires w in s.workers && s.workers[w] == Worker(s.workers[w].run, None, [], Got(v))
    ensures Step(s, Commit(w)) ==
      s.(log := s.log[(s.workers[w].run, 1) := v],
        workers := s.workers[w := Worker(s.workers[w].run, None, [v], Ready)])
  {
    assert s.workers[w].vals == [] && Next(s.workers[w]) == 1;
    assert s.workers[w].vals + [v] == [v];
  }

  lemma Fires(s: State, w: nat, now: string, pid: nat)
    requires w in s.workers && s.workers[w].pc.Missed? && |s.workers[w].vals| == 1
      && s.core.flow(s.workers[w].run) == Agent
    requires s.workers[w].run in s.core.inputs && s.core.sink == []
    ensures var s' := Step(s, FireTool(w, now, pid));
      s'.core.db == s.core.db && |s'.core.sink| == 1 && s'.core.sink[0].runId == s.workers[w].run
        && s'.core.sink[0].id == s.core.lastId + 1
  {
    hide Table, Spec, Output, Payload, RowId;
    AgentLength();
  }

  /** Read, produce, commit, read, fire: the tool step is not inserted yet. */
  const AHEAD: seq<Action> := PlanSchedule("a", "1") + [Commit(0), Read(0), FireTool(0, "2", 7)]

  lemma FiredAhead()
    ensures var c := Exec(Init(AGENTS), AHEAD).core;
      c.db == Planned("a", "1").core.db && |c.sink| == 1 && c.sink[0].runId == "a" && c.sink[0].id == 1
  {
    hide Exec, Step, Spec, DeriveKey, PlanEntry;
    SafeNames();
    PlanIsRecorded("a", "1");
    PlanKey("a");
    AgentLength();
    var s := Planned("a", "1");
    Commits(s, 0, JStr("x"));
    var s1 := s.(log := s.log[("a", 1) := JStr("x")], workers := s.workers[0 := Worker("a", None, [JStr("x")], Ready)]);
    Misses(s1, 0);
    var s2 := s1.(workers := s1.workers[0 := s1.workers[0].(pc := Missed)]);
    Fires(s2, 0, "2", 7);
    Three(s, Commit(0), Read(0), FireTool(0, "2", 7));
    ExecAppend(Init(AGENTS), PlanSchedule("a", "1"), [Commit(0), Read(0), FireTool(0, "2", 7)]);
  }

  lemma SafeNames()
    ensures IsSafe("a") && IsSafe("b")
  {
  }

  /** A reachable state in which time travel to the last step omits an effect that replay shows. */
  lemma FiredAheadExample(date: DateParser)
    ensures var c := Exec(Init(AGENTS), AHEAD).core;
      var was, back := Reconstruct(Live(c.db, c.sink), date, "a"), StateAt(Live(c.db, c.sink), date, "a", 1);
      && back.Ok? && back.value.steps == was.steps && back.value.effects != was.effects
      && |c.sink| == 1 && c.sink[0].id == 1
  {
    hide Exec, Reconstruct, StateAt, CoreOk, PlanEntry;
    FiredAhead();
    Invariant(AGENTS, AHEAD);
    var s := Exec(Init(AGENTS), AHEAD);
    CoreOfState(s);
    GrowsReflexive(s.core);
    TravelBack(s.core, s.core, "a", 1, date);
    OneEffect(s.core.sink, "a");
  }

  lemma OneEffect(sink: seq<EffectRow>, r: RunId)
    requires |sink| == 1 && sink[0].runId == r
    ensures EffectsFor(sink, r) != []
  {
    FilterMembers(sink, (row: EffectRow) => row.runId == r);
    assert sink[0] in EffectsFor(sink, r);
  }

  // ---- A root without metadata ----

  /** One step of a run that was never given metadata. */
  const UNDESCRIBED := Db(map[("a", 1) := Entry("a", 1, "n", PLAN, "a:n", JNull, false, None, "1")], map[])

  /** Its bundle imports, but replay of the import shows metadata that the live store does not have. */
  lemma UndescribedExample(date: DateParser)
    ensures Sound(UNDESCRIBED, []) && AllExportable(LiveRecords(UNDESCRIBED, [], "a"))
    ensures Reconstruct(Reimported(UNDESCRIBED, [], "a"), date, "a") != Reconstruct(Live(UNDESCRIBED, []), date, "a")
  {
    hide Bundled, Reconstruct, Trajectory, Reimported;
    assert Ranked(UNDESCRIBED.metas, map[]);
    assert ':' in "a:n" by { assert "a:n"[1] == ':'; }
    NoEffectsExportable(UNDESCRIBED, "a");
    BundledExactly(UNDESCRIBED, [], "a");
    assert Up(UNDESCRIBED.metas, "a", 0) == Some("a");
    TrajectoryContiguous(UNDESCRIBED, "a", 1);
    OfflineReplay(UNDESCRIBED, [], "a", date, "a");
  }
}
