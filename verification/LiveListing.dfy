/** The live list of runs, paged while the protocol goes on in any way under a clock that never goes back. */
module LiveListing {
  import opened Journal
  import opened LivePages
  import opened Protocol
  import opened ProtocolInvariant
  import opened ProtocolSafety
  import opened ProtocolWrites
  import opened RunsList
  import opened StepModel
  import opened Text
  import opened Workflow
  import opened Wrappers

  // ---- Actions whose runs and times a cursor can carry ----

  /** The creation time an action would store with a run. */
  function MetaTime(a: Action): Option<string>
  {
    match a
    case EnsureRun(_, now) => Some(now)
    case CommitForkRun(_, now) => Some(now)
    case _ => None
  }

  /** Times are dates, and submitted runs have names. */
  predicate Legible(a: Action)
  {
    (a.Submit? ==> a.r != "") && (MetaTime(a).Some? ==> MetaTime(a).value != "" && NulFree(MetaTime(a).value))
  }

  predicate AllLegible(schedule: seq<Action>) { forall i | 0 <= i < |schedule| :: Legible(schedule[i]) }

  // ---- What a step does to the metadata ----

  /** Runs stay; a row that is replaced is replaced by a fork's. */
  ghost predicate Moves(a: Db, b: Db)
  {
    forall r | r in a.metas :: r in b.metas && (b.metas[r] == a.metas[r] || b.metas[r].parentRun.Some?)
  }

  /** Every row has a followable cursor. */
  ghost predicate RowsLegible(c: Core)
  {
    "" !in c.inputs && forall r | r in c.db.metas ::
      r != "" && c.db.metas[r].createdAt != "" && NulFree(c.db.metas[r].createdAt)
  }

  /** What a step may do to the metadata: begin a run, or put a fork's row in place. */
  ghost predicate MetaMove(s: State, a: Action, s': State)
  {
    && s.core.db.metas.Keys <= s'.core.db.metas.Keys
    && s'.core.inputs.Keys == s.core.inputs.Keys + (if a.Submit? then {a.r} else {})
    && forall r | r in s'.core.db.metas ::
         || (r in s.core.db.metas && s'.core.db.metas[r] == s.core.db.metas[r])
         || NewRow(s, a, r, s'.core.db.metas[r])
  }

  ghost predicate NewRow(s: State, a: Action, r: RunId, m: RunMeta)
  {
    && MetaTime(a) == Some(m.createdAt)
    && (r in s.core.inputs || r != "")
    && (r in s.core.db.metas ==> m.parentRun.Some?)
  }

  lemma SameMetas(s: State, a: Action, s': State)
    requires s'.core.db.metas == s.core.db.metas
      && s'.core.inputs.Keys == s.core.inputs.Keys + (if a.Submit? then {a.r} else {})
    ensures MetaMove(s, a, s')
  {
    hide NewRow;
  }

  lemma InsertKeepsMetas(s: State, w: nat, me: Worker, now: string)
    ensures InsertStepOf(s, w, me, now).core.db.metas == s.core.db.metas
  {
    hide NewEntry, KeyTaken;
  }

  lemma WorkerMetas(s: State, w: nat, a: Action)
    requires w in s.workers && !a.Submit?
    ensures MetaMove(s, a, StepWorker(s, w, a))
  {
    hide AwaitStep, ReplayStep, ReadStep, ProduceStep, FireStep, InsertStepOf, CommitStep, ReturnStep;
    if a.Insert? { InsertKeepsMetas(s, w, s.workers[w], a.now); }
    if a.EnsureRun? { EnsureMetas(s, w, a.now); }
    if !a.EnsureRun? { SameMetas(s, a, StepWorker(s, w, a)); }
    hide MetaMove;
  }

  lemma EnsureMetas(s: State, w: nat, now: string)
    requires w in s.workers
    ensures MetaMove(s, EnsureRun(w, now), EnsureRunStep(s, w, s.workers[w], now))
  {
    hide Label;
  }

  lemma ForkMetas(s: State, f: nat, a: Action)
    requires f in s.forkers && ForkerOk(s.core, s.forkers[f]) && !a.Submit?
    ensures MetaMove(s, a, StepFork(s, f, a))
  {
    hide RowsAre, RowsThrough, HasPrefix;
    var me := s.forkers[f];
    assert me.plan.newRunId != "";
    if a.CommitForkRun? && me.Loaded? && me.plan.throughSeq >= 0 {
      CommitMetas(s.core.db, me.rows, me.plan.sourceRunId, me.plan.newRunId, me.plan.throughSeq, me.plan.trajectory,
        a.now);
      hide CommitFork;
    } else {
      SameMetas(s, a, StepFork(s, f, a));
    }
  }

  lemma CommitMetas(db: Db, rows: seq<Entry>, src: RunId, dst: RunId, n: nat, trajectory: string, now: string)
    ensures var result := CommitFork(db, rows, src, dst, n, trajectory, now);
      result.Some? ==> result.value.metas == db.metas[dst := RunMeta(dst, Some(src), Some(n), trajectory, now)]
  {
    hide SeedSteps;
    if CommitFork(db, rows, src, dst, n, trajectory, now).Some? {
      SeedStepsExact(db.(metas := db.metas[dst := RunMeta(dst, Some(src), Some(n), trajectory, now)]), rows, src, dst,
        now);
    }
  }

  lemma InputMetas(s: State, a: Action)
    ensures StepInput(s, a).core.db == s.core.db && StepInput(s, a).core.inputs == s.core.inputs
  {
    hide HitlStateIn;
  }

  lemma StepMetas(s: State, a: Action)
    requires forall f | f in s.forkers :: ForkerOk(s.core, s.forkers[f])
    ensures MetaMove(s, a, Step(s, a))
  {
    hide StepWorker, StepFork, StepInput, ForkPlanError, MetaMove, ForkerOk, CoreSubmit;
    InputMetas(s, a);
    if !a.Submit? { SameMetas(s, a, s); }
    match a
    case LoadRows(f) => if f in s.forkers { ForkMetas(s, f, a); }
    case CommitForkRun(f, _) => if f in s.forkers { ForkMetas(s, f, a); }
    case DropFork(f) => if f in s.forkers { ForkMetas(s, f, a); }
    case Submit(r, input) => SubmitMetas(s.core, r, input); SameMetas(s, a, Step(s, a));
    case Spawn(_, _) => SameMetas(s, a, Step(s, a));
    case ValidateFork(_, _) => SameMetas(s, a, Step(s, a));
    case Peek(_, _, _) => SameMetas(s, a, Step(s, a));
    case Resolve(_) => SameMetas(s, a, Step(s, a));
    case DropCall(_) => SameMetas(s, a, Step(s, a));
    case Enqueue(_, _, _) => SameMetas(s, a, Step(s, a));
    case FlushPeek(_, _, _) => SameMetas(s, a, Step(s, a));
    case FlushMark(_, _) => SameMetas(s, a, Step(s, a));
    case _ => if a.w in s.workers { WorkerMetas(s, a.w, a); }
  }

  lemma SubmitMetas(c: Core, r: RunId, input: WorkflowInput)
    ensures CoreSubmit(c, r, input).db == c.db && CoreSubmit(c, r, input).inputs.Keys == c.inputs.Keys + {r}
  {
  }

  lemma StepForkers(s: State)
    requires StateOk(s)
    ensures forall f | f in s.forkers :: ForkerOk(s.core, s.forkers[f])
  {
  }

  // ---- Whole schedules ----

  lemma StepMoves(s: State, a: Action)
    requires StateOk(s) && RowsLegible(s.core) && Legible(a)
    ensures RowsLegible(Step(s, a).core) && Moves(s.core.db, Step(s, a).core.db)
  {
    hide StateOk, Step, NulFree;
    StepForkers(s);
    StepMetas(s, a);
  }

  lemma {:induction false} ScheduleMoves(s: State, schedule: seq<Action>)
    requires StateOk(s) && RowsLegible(s.core) && AllLegible(schedule)
    ensures var s' := Exec(s, schedule); StateOk(s') && RowsLegible(s'.core) && Moves(s.core.db, s'.core.db)
    decreases |schedule|
  {
    hide StateOk, Step, RowsLegible, Legible, Grows;
    if |schedule| > 0 {
      StepMoves(s, schedule[0]);
      StepSafe(s, schedule[0]);
      ScheduleMoves(Step(s, schedule[0]), schedule[1..]);
    }
  }

  /** Once replaced, a row is a fork's, its run has entries, and it is never replaced again. */
  lemma ReplacedOnce(a: Db, b: Core, c: Core, r: RunId)
    requires Moves(a, b.db) && CoreOk(b) && Grows(b, c) && r in a.metas
    ensures b.db.metas[r] != a.metas[r] ==> r in c.db.metas && c.db.metas[r] == b.db.metas[r]
  {
    hide EntriesOk, RowsOk, NewNative;
    if b.db.metas[r] != a.metas[r] {
      assert MetaOk(b, r);
      assert (r, 1) in b.db.steps;
    }
  }

  // ---- The list as paged along a schedule ----

  /** The state after segment j of what follows s. */
  function StateAt(s: State, segments: seq<seq<Action>>, j: nat): State
    requires j < |segments|
  {
    Exec(s, Flatten(segments[..j + 1]))
  }

  /** What the requests for pages see when the protocol runs one segment before each of them. */
  function Along(s: State, segments: seq<seq<Action>>): (snapshots: seq<Db>)
    ensures |snapshots| == |segments|
    ensures forall j | 0 <= j < |segments| :: snapshots[j] == StateAt(s, segments, j).core.db
  {
    seq(|segments|, j requires 0 <= j < |segments| => StateAt(s, segments, j).core.db)
  }

  /** The part of a schedule between two pages. */
  lemma Parts(s: State, segments: seq<seq<Action>>, i: nat, j: nat)
    requires i <= j < |segments|
    ensures var first, middle, last := segments[..i + 1], segments[i + 1..j + 1], segments[j + 1..];
      && Flatten(segments) == Flatten(first) + Flatten(middle) + Flatten(last)
      && StateAt(s, segments, j) == Exec(StateAt(s, segments, i), Flatten(middle))
  {
    hide Exec, Flatten;
    var first, middle, last := segments[..i + 1], segments[i + 1..j + 1], segments[j + 1..];
    assert segments[..j + 1] == first + middle;
    assert segments == (first + middle) + last;
    FlattenAppend(first, middle);
    FlattenAppend(first + middle, last);
    ExecAppend(s, Flatten(first), Flatten(middle));
  }

  lemma Between(s: State, segments: seq<seq<Action>>, i: nat, j: nat)
    requires i <= j < |segments| && StateOk(s) && RowsLegible(s.core) && AllLegible(Flatten(segments))
    ensures var a, b := StateAt(s, segments, i), StateAt(s, segments, j);
      StateOk(a) && StateOk(b) && Grows(a.core, b.core) && Moves(a.core.db, b.core.db) && RowsLegible(b.core)
  {
    hide StateOk, RowsLegible, Grows, Moves, Exec, Flatten, Legible;
    var first, middle, last := segments[..i + 1], segments[i + 1..j + 1], segments[j + 1..];
    Parts(s, segments, i, j);
    PartsLegible(Flatten(first), Flatten(middle), Flatten(last));
    ScheduleMoves(s, Flatten(first));
    ScheduleMoves(StateAt(s, segments, i), Flatten(middle));
    ScheduleSafe(StateAt(s, segments, i), Flatten(middle));
  }

  lemma PartsLegible(a: seq<Action>, b: seq<Action>, c: seq<Action>)
    requires AllLegible(a + b + c)
    ensures AllLegible(a) && AllLegible(b)
  {
    hide Legible;
    forall i | 0 <= i < |a| ensures Legible(a[i]) { assert (a + b + c)[i] == a[i]; }
    forall i | 0 <= i < |b| ensures Legible(b[i]) { assert (a + b + c)[|a| + i] == b[i]; }
  }

  lemma CoreReadable(c: Core)
    requires CoreOk(c) && RowsLegible(c)
    ensures ValidDb(c.db) && AllListable(c.db)
  {
    ValidCore(c);
    hide EntriesOk, MetasOk, RowsOk, NulFree;
  }

  lemma PageReadable(s: State, segments: seq<seq<Action>>, i: nat)
    requires StateOk(s) && RowsLegible(s.core) && AllLegible(Flatten(segments)) && i < |segments|
    ensures ValidDb(Along(s, segments)[i]) && AllListable(Along(s, segments)[i])
  {
    hide RowsLegible, Grows, Moves, Exec, Legible, Flatten, ValidDb, AllListable, CoreOk;
    Between(s, segments, i, i);
    CoreReadable(StateAt(s, segments, i).core);
  }

  lemma NotReplacedTwice(a: State, b: State, c: State, r: RunId)
    requires StateOk(b) && Moves(a.core.db, b.core.db) && Grows(b.core, c.core) && r in a.core.db.metas
    ensures !Replaced(a.core.db, b.core.db, r) || !Replaced(b.core.db, c.core.db, r)
  {
    hide CoreOk, Grows, WorkerOk, ForkerOk, LogOk, ReturnedOk, AcceptedOk;
    ReplacedOnce(a.core.db, b.core, c.core, r);
  }

  lemma AlongSteady(s: State, segments: seq<seq<Action>>)
    requires StateOk(s) && RowsLegible(s.core) && AllLegible(Flatten(segments))
    ensures Steady(Along(s, segments))
  {
    hide StateOk, RowsLegible, Grows, Exec, Legible, Flatten, ValidDb, AllListable, Replaced;
    var snapshots := Along(s, segments);
    forall i | 0 <= i < |segments| ensures ValidDb(snapshots[i]) && AllListable(snapshots[i]) {
      PageReadable(s, segments, i);
    }
    forall i, j, r | 0 <= i < j < |segments| && r in snapshots[i].metas ensures r in snapshots[j].metas {
      Between(s, segments, i, j);
    }
    forall i, j, k, r | 0 <= i < j < k < |segments| && r in snapshots[i].metas
      ensures !Replaced(snapshots[i], snapshots[j], r) || !Replaced(snapshots[j], snapshots[k], r)
    {
      Between(s, segments, i, j);
      Between(s, segments, j, k);
      NotReplacedTwice(StateAt(s, segments, i), StateAt(s, segments, j), StateAt(s, segments, k), r);
    }
  }

  lemma InitLegible(flow: RunId -> Flow)
    ensures RowsLegible(Init(flow).core)
  {
  }

  /** Paging through the live list while runs are begun, forked and replaced in any way. No cursor is
      rejected and no run is listed more than twice. A finished walk lists a run twice exactly when its
      row was replaced, after the run had been listed, by one beyond the key of a request still to come;
      and it misses a run that was there when it began exactly when its row, still to come, was replaced
      by one behind the key of the next request. */
  lemma LivePagination(flow: RunId -> Flow, schedule: seq<Action>, segments: seq<seq<Action>>, limit: nat)
    requires limit >= 1 && AllLegible(schedule) && AllLegible(Flatten(segments))
    ensures var snapshots := Along(Exec(Init(flow), schedule), segments);
      var w, pages := Walk(snapshots, limit, None), Pages(snapshots, limit, None);
      && !w.failed && w.items == Together(pages) && |pages| <= |snapshots|
      && (forall r :: Times(w.items, r) <= 2)
      && (forall r :: Times(w.items, r) == 2 ==> Overtaken(snapshots, pages, r))
      && (w.done ==> forall r :: Overtaken(snapshots, pages, r) ==> Times(w.items, r) == 2)
      && (w.done ==> |snapshots| > 0)
      && (w.done ==>
            forall r | r in snapshots[0].metas :: Times(w.items, r) == 0 <==> PulledBack(snapshots, pages, r))
  {
    hide StateOk, Exec, Flatten, Times, Walk, Pages, Together, Along, Overtaken, PulledBack, Steady, AllLegible,
      RowsLegible;
    InitLegible(flow);
    InitOk(flow);
    ScheduleMoves(Init(flow), schedule);
    AlongSteady(Exec(Init(flow), schedule), segments);
    Relisting(Along(Exec(Init(flow), schedule), segments), limit);
  }

  // ---- Under a clock that does not go back ----

  predicate NoLater(a: string, b: string) { a == b || Less(a, b) }

  lemma NoLaterTransitive(a: string, b: string, c: string)
    requires NoLater(a, b) && NoLater(b, c)
    ensures NoLater(a, c)
  {
    if Less(a, b) && Less(b, c) { LessTransitive(a, b, c); }
  }

  function Ticks(clock: string, a: Action): string { if MetaTime(a).Some? then MetaTime(a).value else clock }

  /** Metadata is written in the order of its creation times. */
  predicate InTime(clock: string, schedule: seq<Action>)
    decreases |schedule|
  {
    |schedule| == 0
    || (NoLater(clock, Ticks(clock, schedule[0])) && InTime(Ticks(clock, schedule[0]), schedule[1..]))
  }

  function ClockAfter(clock: string, schedule: seq<Action>): string
    decreases |schedule|
  {
    if |schedule| == 0 then clock else ClockAfter(Ticks(clock, schedule[0]), schedule[1..])
  }

  lemma {:induction false} InTimeAppend(clock: string, a: seq<Action>, b: seq<Action>)
    ensures InTime(clock, a + b) <==> InTime(clock, a) && InTime(ClockAfter(clock, a), b)
    decreases |a|
  {
    hide NoLater, Ticks;
    if |a| == 0 {
      assert a + b == b;
    } else {
      assert (a + b)[1..] == a[1..] + b;
      InTimeAppend(Ticks(clock, a[0]), a[1..], b);
    }
  }

  ghost predicate Dated(db: Db, clock: string) { forall r | r in db.metas :: NoLater(db.metas[r].createdAt, clock) }

  ghost predicate Later(a: Db, b: Db)
  {
    forall r | r in a.metas :: r in b.metas && NoLater(a.metas[r].createdAt, b.metas[r].createdAt)
  }

  lemma StepLater(s: State, a: Action, clock: string)
    requires StateOk(s) && Dated(s.core.db, clock) && NoLater(clock, Ticks(clock, a))
    ensures Dated(Step(s, a).core.db, Ticks(clock, a)) && Later(s.core.db, Step(s, a).core.db)
  {
    hide StateOk, Step, Less;
    StepForkers(s);
    StepMetas(s, a);
    forall r | r in s.core.db.metas { NoLaterTransitive(s.core.db.metas[r].createdAt, clock, Ticks(clock, a)); }
  }

  lemma {:induction false} ScheduleLater(s: State, schedule: seq<Action>, clock: string)
    requires StateOk(s) && Dated(s.core.db, clock) && InTime(clock, schedule)
    ensures Dated(Exec(s, schedule).core.db, ClockAfter(clock, schedule)) && Later(s.core.db, Exec(s, schedule).core.db)
    decreases |schedule|
  {
    hide StateOk, Step, Dated, Ticks, Grows, Less;
    if |schedule| > 0 {
      var s' := Step(s, schedule[0]);
      StepLater(s, schedule[0], clock);
      StepSafe(s, schedule[0]);
      ScheduleLater(s', schedule[1..], Ticks(clock, schedule[0]));
      var end := Exec(s', schedule[1..]).core.db;
      forall r | r in s.core.db.metas {
        NoLaterTransitive(s.core.db.metas[r].createdAt, s'.core.db.metas[r].createdAt, end.metas[r].createdAt);
      }
    }
  }

  lemma LaterAdvances(a: Db, b: Db)
    requires ValidDb(a) && ValidDb(b) && Later(a, b)
    ensures Advances(a, b)
  {
    hide Less;
  }

  lemma NextAdvances(s: State, segments: seq<seq<Action>>, clock: string, j: nat)
    requires StateOk(s) && RowsLegible(s.core) && AllLegible(Flatten(segments))
    requires Dated(s.core.db, clock) && InTime(clock, Flatten(segments)) && j + 1 < |segments|
    ensures Advances(Along(s, segments)[j], Along(s, segments)[j + 1])
  {
    hide StateOk, RowsLegible, AllLegible, Grows, Exec, Flatten, Dated, InTime, Later, ValidDb, AllListable, Advances;
    var first, middle, last := segments[..j + 1], segments[j + 1..j + 2], segments[j + 2..];
    Parts(s, segments, j, j + 1);
    InTimeAppend(clock, Flatten(first) + Flatten(middle), Flatten(last));
    InTimeAppend(clock, Flatten(first), Flatten(middle));
    Between(s, segments, j, j + 1);
    ScheduleLater(s, Flatten(first), clock);
    ScheduleLater(StateAt(s, segments, j), Flatten(middle), ClockAfter(clock, Flatten(first)));
    PageReadable(s, segments, j);
    PageReadable(s, segments, j + 1);
    LaterAdvances(Along(s, segments)[j], Along(s, segments)[j + 1]);
  }

  /** When metadata is written in the order of its creation times, a finished walk has listed every run
      that was there when it began. */
  lemma NoneMissed(flow: RunId -> Flow, schedule: seq<Action>, segments: seq<seq<Action>>, limit: nat, r: RunId)
    requires limit >= 1 && AllLegible(schedule) && AllLegible(Flatten(segments))
    requires InTime("", schedule + Flatten(segments))
    ensures var snapshots := Along(Exec(Init(flow), schedule), segments);
      var w := Walk(snapshots, limit, None);
      w.done ==> |snapshots| > 0 && (r in snapshots[0].metas ==> 1 <= Times(w.items, r) <= 2)
  {
    hide StateOk, Exec, Flatten, Times, Walk, Pages, Together, Along, Overtaken, PulledBack;
    hide AllLegible, RowsLegible, Later, Advances, InTime;
    var s := Exec(Init(flow), schedule);
    InitLegible(flow);
    InitOk(flow);
    ScheduleMoves(Init(flow), schedule);
    InTimeAppend("", schedule, Flatten(segments));
    ScheduleLater(Init(flow), schedule, "");
    forall j | 0 <= j < |segments| - 1 ensures Advances(Along(s, segments)[j], Along(s, segments)[j + 1]) {
      NextAdvances(s, segments, ClockAfter("", schedule), j);
    }
    LivePagination(flow, schedule, segments, limit);
    NonePulledBack(Along(s, segments), Pages(Along(s, segments), limit, None), r);
  }
}
