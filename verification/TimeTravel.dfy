/** Time travel: what stateAt(n) reports from a later journal against what replay showed back then. */
module TimeTravel {
  import opened EffectSink
  import opened Journal
  import opened Json
  import opened Lineage
  import opened Ordering
  import opened Protocol
  import opened ProtocolHitl
  import opened ProtocolInvariant
  import opened ProtocolSafety
  import opened ProtocolTheorems
  import opened Replay
  import opened Source
  import opened StepModel
  import opened Workflow
  import opened Wrappers

  // ---- Views of a prefix ----

  lemma {:induction false} StepsThroughPrefix(views: seq<ReplayStep>, n: nat)
    requires n <= |views| && forall i | 0 <= i < |views| :: views[i].seqNo == i + 1
    ensures StepsThrough(views, n) == views[..n]
  {
    var keep := (s: ReplayStep) => s.seqNo <= n;
    FilterAppend(views[..n], views[n..], keep);
    FilterAll(views[..n], keep);
    FilterNone(views[n..], keep);
    assert views[..n] + views[n..] == views;
    assert views[..n] + [] == views[..n];
  }

  lemma {:induction false} OutputOfLast(views: seq<ReplayStep>, n: nat)
    requires |views| > 0 && views[|views| - 1].seqNo == n && forall i | 0 <= i < |views| - 1 :: views[i].seqNo != n
    ensures OutputOf(views, n) == views[|views| - 1].output
  {
    if |views| > 1 { OutputOfLast(views[1..], n); }
  }

  lemma ViewsPrefix(date: DateParser, t: seq<Entry>, t': seq<Entry>, e: seq<ReplayEffect>, e': seq<ReplayEffect>)
    requires t <= t' && forall i | 0 <= i < |t| :: EffectsAtStep(e', t[i].stepName) == EffectsAtStep(e, t[i].stepName)
    ensures StepViews(date, t', e')[..|t|] == StepViews(date, t, e)
  {
    hide EffectsAtStep, Elapsed;
    forall i | 0 <= i < |t| ensures StepView(date, t', i, e') == StepView(date, t, i, e) {
      assert t'[i] == t[i];
      if i > 0 { assert t'[i - 1] == t[i - 1]; }
    }
  }

  lemma {:induction false} AllNamed(effects: seq<ReplayEffect>, name: string, tool: string)
    requires forall e | e in effects :: e.stepName == tool
    ensures EffectsAtStep(effects, name) == if name == tool then effects else []
  {
    if name == tool {
      FilterAll(effects, (e: ReplayEffect) => e.stepName == name);
    } else {
      FilterNone(effects, (e: ReplayEffect) => e.stepName == name);
    }
  }

  lemma EffectsWithin(effects: seq<ReplayEffect>, steps: seq<ReplayStep>, tool: string)
    requires forall e | e in effects :: e.stepName == tool
    ensures Filter(effects, (e: ReplayEffect) => NamesStep(steps, e.stepName))
      == if NamesStep(steps, tool) then effects else []
  {
    if NamesStep(steps, tool) {
      FilterAll(effects, (e: ReplayEffect) => NamesStep(steps, e.stepName));
    } else {
      FilterNone(effects, (e: ReplayEffect) => NamesStep(steps, e.stepName));
    }
  }

  // ---- The effects of a run ----

  lemma RowNames(c: Core, r: RunId)
    requires CoreOk(c)
    ensures forall row | row in EffectsFor(c.sink, r) :: row.stepName == ToolName(c.flow(r))
    ensures EffectsFor(c.sink, r) != [] ==> HasPrefix(c.db, r, ToolSeq(c.flow(r)) - 1)
  {
    hide EntriesOk, MetasOk, KeysUnique, Ranked, HasPrefix, Payload, NativeIfPresent;
    FilterMembers(c.sink, (row: EffectRow) => row.runId == r);
    var rows := EffectsFor(c.sink, r);
    forall row | row in rows ensures row.stepName == ToolName(c.flow(r)) && HasPrefix(c.db, r, ToolSeq(c.flow(r)) - 1) {
      var i :| 0 <= i < |c.sink| && c.sink[i] == row;
      assert RowOk(c, i);
    }
    if rows != [] { assert rows[0] in rows; }
  }

  /** A row added after the tool step was journaled belongs to another run. */
  lemma NewRowElsewhere(c: Core, c': Core, r: RunId, j: nat)
    requires CoreOk(c) && CoreOk(c') && Grows(c, c') && (r, ToolSeq(c.flow(r))) in c.db.steps
    requires |c.sink| <= j < |c'.sink|
    ensures c'.sink[j].runId != r
  {
    hide MetasOk, KeysUnique, Forest, Output, Outs, HasPrefix, Payload, Settled, FitsTable, RowsOk, HasRow;
    var k := ToolSeq(c.flow(r));
    assert EntryOk(c, r, k);
    if c'.sink[j].runId == r {
      LaterRowNative(c', j);
      assert c.db.steps[(r, k)].seededFrom.None?;
      HasRowOf(c, r);
      var i :| 0 <= i < |c.sink| && c.sink[i].idemKey == ToolKey(c, r);
      ToolKeyOwner(c, i, r);
      assert c'.sink[i] == c.sink[i];
      RowsPerRun(c', i, j);
    }
  }

  lemma LaterRowNative(c: Core, j: nat)
    requires CoreOk(c) && j < |c.sink|
    ensures var r := c.sink[j].runId; NativeIfPresent(c.db, r, ToolSeq(c.flow(r)))
  {
    assert RowOk(c, j);
  }

  lemma HasRowOf(c: Core, r: RunId)
    requires CoreOk(c) && (r, ToolSeq(c.flow(r))) in c.db.steps && c.db.steps[(r, ToolSeq(c.flow(r)))].seededFrom.None?
    ensures exists i :: 0 <= i < |c.sink| && c.sink[i].idemKey == ToolKey(c, r)
  {
    hide MetasOk, RowsOk, KeysUnique, Forest, Output, ToolKey;
    assert EntryOk(c, r, ToolSeq(c.flow(r)));
    assert HasRow(c.sink, ToolKey(c, r));
    var row :| row in c.sink && row.idemKey == ToolKey(c, r);
    var i :| 0 <= i < |c.sink| && c.sink[i] == row;
  }

  /** Once the tool step is journaled the run's effects never change. */
  lemma EffectsSettled(c: Core, c': Core, r: RunId)
    requires CoreOk(c) && CoreOk(c') && Grows(c, c') && (r, ToolSeq(c.flow(r))) in c.db.steps
    ensures EffectsFor(c'.sink, r) == EffectsFor(c.sink, r)
  {
    hide CoreOk, Settled, Kept;
    var more := c'.sink[|c.sink|..];
    assert c'.sink == c.sink + more;
    forall row | row in more ensures row.runId != r {
      var j :| 0 <= j < |more| && more[j] == row;
      NewRowElsewhere(c, c', r, |c.sink| + j);
    }
    FilterAppend(c.sink, more, (row: EffectRow) => row.runId == r);
    FilterNone(more, (row: EffectRow) => row.runId == r);
    assert EffectsFor(c.sink, r) + [] == EffectsFor(c.sink, r);
  }

  // ---- The journal of a run ----

  lemma PrefixKept(c: Core, c': Core, r: RunId, n: nat) returns (m: nat)
    requires CoreOk(c) && CoreOk(c') && Grows(c, c') && (r, n) in c.db.steps && (r, n + 1) !in c.db.steps
    ensures 1 <= n <= m <= Len(c'.flow(r)) && |Trajectory(c.db, r)| == n && |Trajectory(c'.db, r)| == m
    ensures Trajectory(c.db, r) <= Trajectory(c'.db, r)
    ensures forall i | 0 <= i < m :: var e := Trajectory(c'.db, r)[i];
      e.seqNo == i + 1 && e.stepName == Spec(c'.flow(r), i + 1).name
  {
    hide Trajectory, MetasOk, RowsOk, KeysUnique, Forest, Settled, EntryOk;
    var n0 := RunLength(c, r);
    m := RunLength(c', r);
    assert n0 == n;
    assert (r, n) in c'.db.steps;
    TrajectoryContiguous(c.db, r, n);
    TrajectoryContiguous(c'.db, r, m);
    forall i | 0 <= i < n ensures Trajectory(c'.db, r)[i] == Trajectory(c.db, r)[i] { assert (r, i + 1) in c.db.steps; }
    forall i | 0 <= i < m ensures var e := Trajectory(c'.db, r)[i];
      e.seqNo == i + 1 && e.stepName == Spec(c'.flow(r), i + 1).name {
      TableEntry(c', r, i + 1);
    }
  }

  lemma TableEntry(c: Core, r: RunId, k: nat)
    requires EntriesOk(c) && (r, k) in c.db.steps
    ensures 1 <= k <= Len(c.flow(r)) && c.db.steps[(r, k)].seqNo == k
      && c.db.steps[(r, k)].stepName == Spec(c.flow(r), k).name
  {
    assert EntryOk(c, r, k);
  }

  /** Entries that follow a workflow's step table from its first step. */
  predicate FollowsTable(f: Flow, t: seq<Entry>)
  {
    |t| <= Len(f) && forall i | 0 <= i < |t| :: t[i].seqNo == i + 1 && t[i].stepName == Spec(f, i + 1).name
  }

  /** Time travel over the views of a longer trajectory shows the views of the shorter one. */
  lemma TravelViews(f: Flow, date: DateParser, t: seq<Entry>, t': seq<Entry>, e: seq<ReplayEffect>,
                    e': seq<ReplayEffect>)
    requires FollowsTable(f, t') && t <= t' && |t| > 0
    requires forall x | x in e || x in e' :: x.stepName == ToolName(f)
    requires |t| >= ToolSeq(f) ==> e' == e
    ensures var back := StepsThrough(StepViews(date, t', e'), |t|);
      && back == StepViews(date, t, e) && OutputOf(back, |t|) == LastOutput(t)
      && Filter(e', (x: ReplayEffect) => NamesStep(back, x.stepName)) == if |t| >= ToolSeq(f) then e else []
  {
    hide Spec, Elapsed, EffectsAtStep, StepsThrough, Filter;
    var n := |t|;
    forall i | 0 <= i < n ensures EffectsAtStep(e', t[i].stepName) == EffectsAtStep(e, t[i].stepName) {
      assert t[i] == t'[i];
      AllNamed(e, t[i].stepName, ToolName(f));
      AllNamed(e', t[i].stepName, ToolName(f));
      if i + 1 != ToolSeq(f) { StepNamesDistinct(f, i + 1, ToolSeq(f)); }
    }
    ViewsPrefix(date, t, t', e, e');
    var views := StepViews(date, t', e');
    StepsThroughPrefix(views, n);
    OutputOfLast(views[..n], n);
    EffectsWithin(e', views[..n], ToolName(f));
    ToolWithin(f, views[..n], n);
  }

  /** The state of a run that holds exactly its first n steps, seen from any later state: the steps
      and the current output are what replay showed then, and so are the effects, except that an
      effect fired ahead of its tool step shows in the replay and not in the time travel. */
  lemma TravelBack(c: Core, c': Core, r: RunId, n: nat, date: DateParser)
    requires CoreOk(c) && CoreOk(c') && Grows(c, c') && (r, n) in c.db.steps && (r, n + 1) !in c.db.steps
    ensures var was, back := Reconstruct(Live(c.db, c.sink), date, r), StateAt(Live(c'.db, c'.sink), date, r, n);
      && back.Ok? && back.value.steps == was.steps && back.value.currentOutput == was.outcome
      && (back.value.effects == was.effects <==> n >= ToolSeq(c.flow(r)) || EffectsFor(c.sink, r) == [])
  {
    hide CoreOk, Trajectory, EffectsFor, Grows, Spec, DivergencePoints, TotalElapsed;
    hide StepView, EffectView, StepsThrough, OutputOf, Filter, NamesStep;
    FlowKept(c, c');
    var m := PrefixKept(c, c', r, n);
    var e, e' := EffectViews(EffectsFor(c.sink, r)), EffectViews(EffectsFor(c'.sink, r));
    ToolNamed(c, r, e);
    ToolNamed(c', r, e');
    EffectsOfPrefix(c, c', r, n);
    TravelViews(c.flow(r), date, Trajectory(c.db, r), Trajectory(c'.db, r), e, e');
    LastSeq(date, Trajectory(c'.db, r), e');
  }

  lemma LastSeq(date: DateParser, t: seq<Entry>, e: seq<ReplayEffect>)
    requires |t| > 0 && forall i | 0 <= i < |t| :: t[i].seqNo == i + 1
    ensures MaxSeq(StepViews(date, t, e)) == |t|
  {
  }

  lemma ToolWithin(f: Flow, steps: seq<ReplayStep>, n: nat)
    requires n == |steps| <= Len(f) && forall i | 0 <= i < n :: steps[i].stepName == Spec(f, i + 1).name
    ensures NamesStep(steps, ToolName(f)) <==> n >= ToolSeq(f)
  {
    hide Spec;
    var k := ToolSeq(f);
    if n >= k { assert steps[k - 1] in steps; }
    if NamesStep(steps, ToolName(f)) {
      var s :| s in steps && s.stepName == ToolName(f);
      var i :| 0 <= i < |steps| && steps[i] == s;
      if i + 1 != k { StepNamesDistinct(f, i + 1, k); }
    }
  }

  lemma ToolNamed(c: Core, r: RunId, views: seq<ReplayEffect>)
    requires CoreOk(c) && views == EffectViews(EffectsFor(c.sink, r))
    ensures forall e | e in views :: e.stepName == ToolName(c.flow(r))
    ensures views == [] <==> EffectsFor(c.sink, r) == []
  {
    hide CoreOk, EffectsFor, Spec;
    RowNames(c, r);
    var rows := EffectsFor(c.sink, r);
    forall e | e in views ensures e.stepName == ToolName(c.flow(r)) {
      var i :| 0 <= i < |views| && views[i] == e;
      assert rows[i] in rows;
    }
  }

  lemma EffectsOfPrefix(c: Core, c': Core, r: RunId, n: nat)
    requires CoreOk(c) && CoreOk(c') && Grows(c, c') && (r, n) in c.db.steps
    ensures n >= ToolSeq(c.flow(r)) ==> EffectsFor(c'.sink, r) == EffectsFor(c.sink, r)
  {
    hide MetasOk, RowsOk, KeysUnique, Forest, Settled, Kept, FitsTable, NativeOk, EffectsFor;
    if n >= ToolSeq(c.flow(r)) {
      assert EntryOk(c, r, n);
      EffectsSettled(c, c', r);
    }
  }

  /** At the moment step n is journaled nothing has fired ahead, so from every later state time
      travel to n shows exactly the steps, the effects and the outcome that replay showed then. */
  lemma FaithfulTimeTravel(flow: RunId -> Flow, schedule: seq<Action>, a: Action, more: seq<Action>, r: RunId,
                           n: nat, date: DateParser)
    requires var s := Exec(Init(flow), schedule);
      (r, n) !in s.core.db.steps && (r, n) in Step(s, a).core.db.steps && (r, n + 1) !in Step(s, a).core.db.steps
    ensures var now := Step(Exec(Init(flow), schedule), a);
      var later := Exec(now, more).core;
      var was, back := Reconstruct(Live(now.core.db, now.core.sink), date, r),
        StateAt(Live(later.db, later.sink), date, r, n);
      back.Ok? && back.value.steps == was.steps && back.value.effects == was.effects
        && back.value.currentOutput == was.outcome
  {
    hide Exec, Step, Reconstruct, StateAt, CoreOk, EffectsFor, Trajectory, Live;
    var s := Exec(Init(flow), schedule);
    var now := Step(s, a);
    Invariant(flow, schedule);
    StepSafe(s, a);
    ScheduleSafe(now, more);
    CoreOfState(now);
    CoreOfState(Exec(now, more));
    TravelBack(now.core, Exec(now, more).core, r, n, date);
    NothingAhead(s, a, r, n);
  }

  lemma CoreOfState(s: State)
    requires StateOk(s)
    ensures CoreOk(s.core)
  {
  }

  /** A step that journals (r, n) below the tool step finds no effect of r in the log. */
  lemma NothingAhead(s: State, a: Action, r: RunId, n: nat)
    requires StateOk(s) && (r, n) !in s.core.db.steps && (r, n) in Step(s, a).core.db.steps
    ensures n >= ToolSeq(Step(s, a).core.flow(r)) || EffectsFor(Step(s, a).core.sink, r) == []
  {
    hide Step, EffectsFor, HasPrefix, MetasOk, RowsOk, EntriesOk, KeysUnique, Forest, Settled;
    StepSafe(s, a);
    FlowKept(s.core, Step(s, a).core);
    StepAdds(s, a);
    JournalingKeepsSink(s, a);
    RowNames(s.core, r);
    FirstStep(Step(s, a).core, r, n);
    if EffectsFor(s.core.sink, r) != [] { NoGap(s.core.db, r, n, ToolSeq(s.core.flow(r)) - 1); }
  }

  lemma JournalingKeepsSink(s: State, a: Action)
    requires a.Insert? || a.CommitForkRun?
    ensures Step(s, a).core.sink == s.core.sink
  {
  }

  lemma NoGap(db: Db, r: RunId, n: nat, m: nat)
    requires (r, n) !in db.steps && HasPrefix(db, r, m) && n >= 1
    ensures n > m
  {
  }

  lemma FirstStep(c: Core, r: RunId, n: nat)
    requires CoreOk(c) && (r, n) in c.db.steps
    ensures n >= 1
  {
    assert EntryOk(c, r, n);
  }
}
