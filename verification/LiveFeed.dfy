/** The live feed of a run while the protocol goes on between any two reads of a connection. */
module LiveFeed {
  import opened Feed
  import opened Journal
  import opened Protocol
  import opened ProtocolHitl
  import opened ProtocolInvariant
  import opened ProtocolSafety
  import opened StepModel
  import opened Workflow
  import opened Wrappers
  import opened WsFrame

  // ---- What a run's reader sees later ----

  /** What any run's trajectory reads as, now and later. */
  lemma TrajectoryGrows(c: Core, c': Core, r: RunId)
    requires CoreOk(c) && CoreOk(c') && Grows(c, c')
    ensures Trajectory(c.db, r) <= Trajectory(c'.db, r) && Ascending(Trajectory(c.db, r))
      && Ascending(Trajectory(c'.db, r))
  {
    hide Trajectory, MetasOk, RowsOk, Settled, EntryOk;
    var n := RunLength(c, r);
    var m := RunLength(c', r);
    if n > 0 { assert (r, n) in c'.db.steps; }
    TrajectoryContiguous(c.db, r, n);
    TrajectoryContiguous(c'.db, r, m);
    forall i | 0 <= i < n ensures Trajectory(c.db, r)[i].seqNo == i + 1 { SeqNoOf(c, r, i + 1); }
    forall i | 0 <= i < m ensures Trajectory(c'.db, r)[i].seqNo == i + 1 { SeqNoOf(c', r, i + 1); }
    forall i | 0 <= i < n ensures Trajectory(c'.db, r)[i] == Trajectory(c.db, r)[i] { assert (r, i + 1) in c.db.steps; }
  }

  // ---- Polls along a schedule ----

  /** What happens before a poll reads the trajectory, and between that and its reading of the state. */
  datatype Gap = Gap(beforeSteps: seq<Action>, beforeState: seq<Action>)

  function Gaps(gaps: seq<Gap>): seq<Action>
  {
    if |gaps| == 0 then []
    else Gaps(gaps[..|gaps| - 1]) + gaps[|gaps| - 1].beforeSteps + gaps[|gaps| - 1].beforeState
  }

  /** The state in which the last poll read the trajectory. */
  function StepsRead(s: State, gaps: seq<Gap>): State
  {
    if |gaps| == 0 then s else Exec(s, Gaps(gaps[..|gaps| - 1]) + gaps[|gaps| - 1].beforeSteps)
  }

  function SnapshotsAlong(s: State, gaps: seq<Gap>, r: RunId): (polls: seq<Snapshot>)
    ensures |polls| == |gaps|
  {
    if |gaps| == 0 then []
    else
      var read, now := StepsRead(s, gaps), Exec(s, Gaps(gaps));
      SnapshotsAlong(s, gaps[..|gaps| - 1], r) + [Snapshot(Trajectory(read.core.db, r), HitlStateIn(now.core.db, r))]
  }

  lemma PrefixTransitive(a: seq<Entry>, b: seq<Entry>, c: seq<Entry>)
    requires a <= b && b <= c
    ensures a <= c
  {
    assert a == b[..|a|] == c[..|a|];
  }

  lemma ExtendOnce(initial: seq<Entry>, front: seq<Snapshot>, last: Snapshot)
    requires Extending(initial, front) && Ascending(last.steps) && Final(initial, front) <= last.steps
    ensures Extending(initial, front + [last])
  {
    hide Ascending;
    var polls := front + [last];
    if |front| > 0 { PrefixTransitive(initial, Final(initial, front), last.steps); }
    forall i | 0 <= i < |front| ensures front[i].steps <= last.steps {
      if i < |front| - 1 { assert front[i].steps <= front[|front| - 1].steps; }
      PrefixTransitive(front[i].steps, Final(initial, front), last.steps);
    }
  }

  /** No state read is behind one read before. */
  predicate Rising(states: seq<HitlState>)
  {
    forall i, j | 0 <= i < j < |states| :: HitlRank(states[i]) <= HitlRank(states[j])
  }

  predicate Below(states: seq<HitlState>, h: HitlState)
  {
    forall i | 0 <= i < |states| :: HitlRank(states[i]) <= HitlRank(h)
  }

  /** One gap: the journal grows up to the reading of the trajectory, and on to the reading of the state. */
  lemma GapGrows(s: State, gaps: seq<Gap>)
    requires StateOk(s) && |gaps| > 0
    ensures var was, read, now := Exec(s, Gaps(gaps[..|gaps| - 1])), StepsRead(s, gaps), Exec(s, Gaps(gaps));
      && StateOk(was) && StateOk(read) && StateOk(now)
      && Grows(was.core, read.core) && Grows(read.core, now.core) && Grows(was.core, now.core)
  {
    hide StateOk, Exec, Grows;
    var front, last := Gaps(gaps[..|gaps| - 1]), gaps[|gaps| - 1];
    ScheduleSafe(s, front);
    ExecAppend(s, front, last.beforeSteps);
    ScheduleSafe(Exec(s, front), last.beforeSteps);
    ExecAppend(s, front + last.beforeSteps, last.beforeState);
    ScheduleSafe(Exec(s, front + last.beforeSteps), last.beforeState);
    GrowsTransitive(Exec(s, front).core, StepsRead(s, gaps).core, Exec(s, Gaps(gaps)).core);
  }

  /** The last reading of the trajectory is no later than the present. */
  lemma ReadBefore(s: State, gaps: seq<Gap>)
    requires StateOk(s)
    ensures StateOk(StepsRead(s, gaps)) && StateOk(Exec(s, Gaps(gaps)))
      && Grows(StepsRead(s, gaps).core, Exec(s, Gaps(gaps)).core)
  {
    hide StateOk, Grows;
    if |gaps| == 0 { GrowsReflexive(s.core); } else { GapGrows(s, gaps); }
  }

  lemma {:induction false} AlongExtends(s: State, gaps: seq<Gap>, r: RunId)
    requires StateOk(s)
    ensures var initial, polls := Trajectory(s.core.db, r), SnapshotsAlong(s, gaps, r);
      Extending(initial, polls) && Final(initial, polls) == Trajectory(StepsRead(s, gaps).core.db, r)
    decreases |gaps|
  {
    hide Exec, Trajectory, Extending, Ascending, CoreOk, Grows, HitlStateIn;
    if |gaps| == 0 {
      TrajectoryItself(s.core, r);
      ExtendNone(Trajectory(s.core.db, r));
    } else {
      var front := gaps[..|gaps| - 1];
      AlongExtends(s, front, r);
      ReadBefore(s, front);
      GapGrows(s, gaps);
      var before, read := StepsRead(s, front), StepsRead(s, gaps);
      GrowsTransitive(before.core, Exec(s, Gaps(front)).core, read.core);
      TrajectoryGrows(before.core, read.core, r);
      var last := Snapshot(Trajectory(read.core.db, r), HitlStateIn(Exec(s, Gaps(gaps)).core.db, r));
      ExtendOnce(Trajectory(s.core.db, r), SnapshotsAlong(s, front, r), last);
    }
  }

  lemma TrajectoryItself(c: Core, r: RunId)
    requires CoreOk(c)
    ensures Ascending(Trajectory(c.db, r))
  {
    hide CoreOk, Trajectory, Ascending, Grows;
    GrowsReflexive(c);
    TrajectoryGrows(c, c, r);
  }

  lemma ExtendNone(t: seq<Entry>)
    requires Ascending(t)
    ensures Extending(t, [])
  {
  }

  lemma {:induction false} AlongRises(s: State, gaps: seq<Gap>, r: RunId, h: HitlState)
    requires StateOk(s) && HitlRank(h) <= HitlRank(HitlStateIn(s.core.db, r))
    ensures var states := [h] + StatesPolled(SnapshotsAlong(s, gaps, r));
      Rising(states) && Below(states, HitlStateIn(Exec(s, Gaps(gaps)).core.db, r))
    decreases |gaps|
  {
    hide Exec, Trajectory, CoreOk, Grows, HitlStateIn, HitlRank;
    if |gaps| == 0 {
      NoActions(s);
    } else {
      var front := gaps[..|gaps| - 1];
      AlongRises(s, front, r, h);
      GapGrows(s, gaps);
      var was, now := Exec(s, Gaps(front)), Exec(s, Gaps(gaps));
      RankGrows(was.core, now.core, r);
      var states := [h] + StatesPolled(SnapshotsAlong(s, front, r));
      assert [h] + StatesPolled(SnapshotsAlong(s, gaps, r)) == states + [HitlStateIn(now.core.db, r)];
    }
  }

  lemma NoActions(s: State)
    ensures Exec(s, []) == s
  {
  }

  // ---- State events of a rising sequence ----

  /** Of states that never fall back, the ones sent are strictly rising, and end with the last one. */
  lemma {:induction false} RisingChanges(states: seq<HitlState>)
    requires Rising(states) && |states| > 0
    ensures var sent := Changes(states);
      && (forall i, j | 0 <= i < j < |sent| :: HitlRank(sent[i]) < HitlRank(sent[j]))
      && 0 < |sent| <= 1 + HitlRank(states[|states| - 1]) <= 3
      && sent[0] == states[0] && sent[|sent| - 1] == states[|states| - 1]
    decreases |states|
  {
    if |states| > 1 {
      var front, last := states[..|states| - 1], states[|states| - 1];
      RisingChanges(front);
      var sent := Changes(front);
      if last != front[|front| - 1] {
        forall i | 0 <= i < |sent| ensures HitlRank(sent[i]) < HitlRank(last) {
          RanksDiffer(front[|front| - 1], last);
          if i < |sent| - 1 { assert HitlRank(sent[i]) < HitlRank(sent[|sent| - 1]); }
        }
      }
    }
  }

  lemma RanksDiffer(a: HitlState, b: HitlState)
    requires a != b && HitlRank(a) <= HitlRank(b)
    ensures HitlRank(a) < HitlRank(b)
  {
  }

  /** A connection reads the state, then the trajectory, and then polls, while the protocol goes on in
      any way between any two of its reads. The bytes it wrote decode to its messages; they are a greeting,
      every entry journaled between its first and its last reading of the trajectory, once each and in
      order, and at most two state events, each moving forward and the last one up to date. */
  lemma FeedAlong(flow: RunId -> Flow, schedule: seq<Action>, opening: seq<Action>, gaps: seq<Gap>, r: RunId,
                  pollMs: nat, utf8: string -> seq<Byte>)
    requires forall text :: |utf8(text)| < 0x8000_0000_0000_0000
    ensures var s := Exec(Init(flow), schedule);
      var s0 := Exec(s, opening);
      var h, initial := HitlStateIn(s.core.db, r), Trajectory(s0.core.db, r);
      var out := Polls(Open(r, h, initial, pollMs), r, SnapshotsAlong(s0, gaps, r)).out;
      var sent, now := StatesSent(out), Exec(s0, Gaps(gaps));
      && ReadStream(Stream(Messages(out, utf8))) == Some(Messages(out, utf8))
      && |out| > 0 && out[0] == Hello(r, |initial|, h, pollMs)
      && initial <= Trajectory(StepsRead(s0, gaps).core.db, r)
      && StepsSent(out) == Trajectory(StepsRead(s0, gaps).core.db, r)[|initial|..]
      && 1 <= |sent| <= 3 && sent[0] == h
      && (forall i, j | 0 <= i < j < |sent| :: HitlRank(sent[i]) < HitlRank(sent[j]))
      && (|gaps| > 0 ==> sent[|sent| - 1] == HitlStateIn(now.core.db, r))
  {
    hide Exec, Trajectory, HitlStateIn, Polls, StepsSent, StatesSent, Extending, StateOk, Grows, HitlRank;
    hide Stream, ReadStream, Changes, Rising, SnapshotsAlong, Gaps, StepsRead, Messages;
    Invariant(flow, schedule);
    var s := Exec(Init(flow), schedule);
    ScheduleSafe(s, opening);
    var s0 := Exec(s, opening);
    OpeningRank(s, s0, r);
    var h, initial, polls := HitlStateIn(s.core.db, r), Trajectory(s0.core.db, r), SnapshotsAlong(s0, gaps, r);
    AlongExtends(s0, gaps, r);
    FeedStream(r, h, initial, pollMs, polls, utf8);
    InitialPrefix(initial, polls);
    AlongRises(s0, gaps, r, h);
    RisingChanges([h] + StatesPolled(polls));
    if |gaps| > 0 { LastState(s0, gaps, r); }
  }

  lemma OpeningRank(s: State, s0: State, r: RunId)
    requires StateOk(s) && StateOk(s0) && Grows(s.core, s0.core)
    ensures HitlRank(HitlStateIn(s.core.db, r)) <= HitlRank(HitlStateIn(s0.core.db, r))
  {
    hide CoreOk, Grows, HitlStateIn, WorkerOk, ForkerOk, LogOk, ReturnedOk, AcceptedOk;
    RankGrows(s.core, s0.core, r);
  }

  lemma LastState(s: State, gaps: seq<Gap>, r: RunId)
    requires |gaps| > 0
    ensures StatesPolled(SnapshotsAlong(s, gaps, r))[|gaps| - 1] == HitlStateIn(Exec(s, Gaps(gaps)).core.db, r)
  {
    hide Exec, HitlStateIn, Trajectory, Gaps;
  }

  lemma InitialPrefix(initial: seq<Entry>, polls: seq<Snapshot>)
    requires Extending(initial, polls)
    ensures initial <= Final(initial, polls)
  {
  }
}
