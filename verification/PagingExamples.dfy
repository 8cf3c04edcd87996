/** Between two pages the row of a run is replaced by a fork that was validated before the run began: the
    run can be listed twice, and, when the fork's time was taken first, it can be missed. */
module PagingExamples {
  import opened Examples
  import opened Idempotency
  import opened Journal
  import opened LiveListing
  import opened Protocol
  import opened ProtocolInvariant
  import opened ProtocolSafety
  import opened ProtocolTheorems
  import opened RunsList
  import opened StepModel
  import opened Text
  import opened Wrappers

  // ---- Pages of one row ----

  /** A page of one row shows the first row beyond the key. */
  lemma FirstRow(db: Db, from: Option<Key>, r: RunId)
    requires ValidDb(db) && r in After(db, from)
    requires forall x | x in After(db, from) && x != r :: KeyLess(KeyOf(db.metas[r]), KeyOf(db.metas[x]))
    ensures PageAfter(db, 1, from) ==
      Page([db.metas[r]], if After(db, from) == {r} then None else Some(EncodeCursor(KeyOf(db.metas[r]))))
  {
    hide PageAfter, KeyLess, EncodeCursor, After;
    PageRows(db, 1, from);
    PageExact(db, 1, from);
    var page, ids := PageAfter(db, 1, from), Ordered(db, After(db, from));
    assert r in ids;
    var x := ids[0];
    assert x in ids && page.items[0] == db.metas[x];
    if x != r {
      KeyLessIrreflexive(KeyOf(db.metas[r]));
      KeyLessTransitive(KeyOf(db.metas[r]), KeyOf(db.metas[x]), KeyOf(db.metas[r]));
    }
    if |ids| > 1 {
      assert ids[1] in ids;
      assert ByCreation(db.metas)(ids[0], ids[1]);
      ByCreationTotal(db.metas, After(db, from));
      assert ids[1] != r;
    } else {
      assert ids == [r];
      assert After(db, from) == {r};
    }
  }

  /** The row of a when it is started, and when it is the fork of b. */
  function Started(now: string): RunMeta { RunMeta("a", None, None, "main", now) }

  function Forked(now: string): RunMeta { RunMeta("a", Some("b"), Some(1), "main", now) }

  const B1 := RunMeta("b", None, None, "main", "1")

  lemma Keys()
    ensures KeyLess(KeyOf(Started("1")), KeyOf(B1)) && KeyLess(KeyOf(B1), KeyOf(Forked("2")))
    ensures KeyLess(KeyOf(Started("1")), KeyOf(Forked("2"))) && KeyLess(KeyOf(B1), KeyOf(Started("2")))
    ensures !KeyLess(KeyOf(B1), KeyOf(B1)) && !KeyLess(KeyOf(B1), KeyOf(Forked("1")))
    ensures Listable(KeyOf(Started("1"))) && Listable(KeyOf(B1))
  {
    assert Less("a", "b") && Less("1", "2");
    LessIrreflexive("1");
    LessIrreflexive("b");
    assert !Less("b", "a");
  }

  /** a is listed, moves behind b, and is listed again. */
  lemma ThreePages(d1: Db, d2: Db)
    requires ValidDb(d1) && d1.metas == map["a" := Started("1"), "b" := B1]
    requires ValidDb(d2) && d2.metas == map["a" := Forked("2"), "b" := B1]
    ensures Walk([d1, d2, d2], 1, None) == Walked([Started("1"), B1, Forked("2")], true, false)
  {
    hide PageAfter, KeyLess, EncodeCursor, Walk, Listable, ValidDb;
    Keys();
    var k1, k2 := Some(KeyOf(Started("1"))), Some(KeyOf(B1));
    assert After(d1, None) == {"a", "b"};
    FirstRow(d1, None, "a");
    assert After(d2, k1) == {"a", "b"};
    FirstRow(d2, k1, "b");
    assert After(d2, k2) == {"a"};
    FirstRow(d2, k2, "a");
    hide After;
    WalkStep([d1, d2, d2], 1, None);
    WalkStep([d2, d2], 1, k1);
    WalkStep([d2], 1, k2);
    assert [d1, d2, d2][1..] == [d2, d2] && [d2, d2][1..] == [d2];
    assert [Started("1")] + ([B1] + [Forked("2")]) == [Started("1"), B1, Forked("2")];
  }

  /** b is listed, and a moves before it. */
  lemma TwoPages(d1: Db, d2: Db)
    requires ValidDb(d1) && d1.metas == map["a" := Started("2"), "b" := B1]
    requires ValidDb(d2) && d2.metas == map["a" := Forked("1"), "b" := B1]
    ensures Walk([d1, d2], 1, None) == Walked([B1], true, false)
  {
    hide PageAfter, KeyLess, EncodeCursor, Walk, Listable, ValidDb;
    Keys();
    var k := Some(KeyOf(B1));
    assert After(d1, None) == {"a", "b"};
    FirstRow(d1, None, "b");
    assert After(d2, k) == {};
    NoRow(d2, k);
    hide After;
    WalkStep([d1, d2], 1, None);
    WalkStep([d2], 1, k);
    assert [d1, d2][1..] == [d2];
    assert [B1] + [] == [B1];
  }

  lemma NoRow(db: Db, from: Option<Key>)
    requires After(db, from) == {}
    ensures PageAfter(db, 1, from) == Page([], None)
  {
    hide PageAfter, EncodeCursor, After;
    PageRows(db, 1, from);
    OrderedExact(db, After(db, from));
  }

  // ---- The schedule ----

  const FORK := ForkPlan("b", "a", 1, "p", "main")

  /** Run b records its plan; a fork of it onto a is validated and has read its rows; then a is started. */
  const BEFORE: seq<Action> :=
    PlanSchedule("b", "1") + ([ValidateFork(0, FORK), LoadRows(0)] + [Submit("a", INPUT), Spawn(1, "a")])

  lemma Validates(s: State)
    requires 0 !in s.forkers && s.core.flow == AGENTS && s.core.db == Planned("b", "1").core.db
    ensures Step(s, ValidateFork(0, FORK)) == s.(forkers := s.forkers[0 := Validated(FORK)])
  {
    hide IsSafe, ForkPlanError;
    SafeNames();
    ForkPlanAccepted(s.core.db, FORK);
  }

  lemma Loads(s: State)
    requires 0 in s.forkers && s.forkers[0] == Validated(FORK)
    ensures Step(s, LoadRows(0)) == s.(forkers := s.forkers[0 := Loaded(FORK, RowsThrough(s.core.db, "b", 1))])
  {
    hide RowsThrough;
  }

  function Waiting(): State
  {
    var s := Planned("b", "1");
    s.(core := s.core.(inputs := s.core.inputs["a" := INPUT]),
       forkers := map[0 := Loaded(FORK, RowsThrough(s.core.db, "b", 1))],
       workers := s.workers[1 := Worker("a", None, [], Start)])
  }

  lemma StartsAfterPlan(s: State)
    requires s == Planned("b", "1")
    ensures Exec(s, [ValidateFork(0, FORK), LoadRows(0)] + [Submit("a", INPUT), Spawn(1, "a")]) == Waiting()
  {
    hide Step, Exec, RowsThrough, PlanEntry;
    Validates(s);
    var s1 := s.(forkers := s.forkers[0 := Validated(FORK)]);
    Loads(s1);
    var s2 := s1.(forkers := s1.forkers[0 := Loaded(FORK, RowsThrough(s.core.db, "b", 1))]);
    Submits(s2, "a");
    var s3 := s2.(core := s2.core.(inputs := s2.core.inputs["a" := INPUT]));
    Spawns(s3, 1, "a");
    ExecTwo(s, ValidateFork(0, FORK), LoadRows(0));
    ExecTwo(s2, Submit("a", INPUT), Spawn(1, "a"));
    ExecAppend(s, [ValidateFork(0, FORK), LoadRows(0)], [Submit("a", INPUT), Spawn(1, "a")]);
    assert s2.forkers == map[0 := Loaded(FORK, RowsThrough(s.core.db, "b", 1))];
  }

  lemma WaitingAfter()
    ensures Exec(Init(AGENTS), BEFORE) == Waiting()
  {
    hide Step, Exec, IsSafe, Waiting, Planned;
    SafeNames();
    PlanIsRecorded("b", "1");
    StartsAfterPlan(Planned("b", "1"));
    ExecAppend(Init(AGENTS), PlanSchedule("b", "1"),
      [ValidateFork(0, FORK), LoadRows(0)] + [Submit("a", INPUT), Spawn(1, "a")]);
  }

  lemma ForkCommits(s: State, now: string)
    requires StateOk(s) && 0 in s.forkers && s.forkers[0].Loaded? && s.forkers[0].plan == FORK
    requires forall k: nat :: ("a", k) !in s.core.db.steps
    ensures Step(s, CommitForkRun(0, now)).core.db.metas == s.core.db.metas["a" := Forked(now)]
  {
    hide CommitFork, CoreOk;
    StepForkers(s);
    ForkCommitsExactly(s.core, s.forkers[0], now);
    CommitMetas(s.core.db, s.forkers[0].rows, "b", "a", 1, "main", now);
  }

  lemma NativeRow(now: string)
    ensures var s1 := Step(Waiting(), EnsureRun(1, now));
      && s1.core.db.metas == map["a" := Started(now), "b" := B1] && (forall k: nat :: ("a", k) !in s1.core.db.steps)
      && 0 in s1.forkers && s1.forkers[0].Loaded? && s1.forkers[0].plan == FORK
  {
    hide Step, PlanEntry, RowsThrough;
    Ensures(Waiting(), 1, now);
  }

  lemma StateValid(s: State)
    requires StateOk(s)
    ensures ValidDb(s.core.db)
  {
    hide EntriesOk, MetasOk, RowsOk;
    ValidCore(s.core);
  }

  /** The metadata after the start of a, and after the fork's commit. */
  lemma Replaces(now: string, later: string)
    ensures var s1 := Step(Waiting(), EnsureRun(1, now));
      var s2 := Step(s1, CommitForkRun(0, later));
      && ValidDb(s1.core.db) && s1.core.db.metas == map["a" := Started(now), "b" := B1]
      && ValidDb(s2.core.db) && s2.core.db.metas == map["a" := Forked(later), "b" := B1]
  {
    hide Step, Exec, CoreOk, StateOk, Waiting;
    WaitingAfter();
    var s := Waiting();
    var s1 := Step(s, EnsureRun(1, now));
    NativeRow(now);
    Invariant(AGENTS, BEFORE);
    StepSafe(s, EnsureRun(1, now));
    StepSafe(s1, CommitForkRun(0, later));
    StateValid(s1);
    StateValid(Step(s1, CommitForkRun(0, later)));
    ForkCommits(s1, later);
  }

  /** The first page is read once a has its row, the next ones once the fork has committed. */
  function Paged(now: string, later: string, more: seq<seq<Action>>): seq<seq<Action>>
  {
    [[EnsureRun(1, now)], [CommitForkRun(0, later)]] + more
  }

  lemma Snapshots(now: string, later: string, more: seq<seq<Action>>)
    requires more == [] || more == [[]]
    ensures var s1 := Step(Waiting(), EnsureRun(1, now));
      var s2 := Step(s1, CommitForkRun(0, later));
      Along(Exec(Init(AGENTS), BEFORE), Paged(now, later, more)) ==
        [s1.core.db, s2.core.db] + if more == [] then [] else [s2.core.db]
  {
    hide Exec, Step, Waiting;
    WaitingAfter();
    var s, paged := Waiting(), Paged(now, later, more);
    assert paged[..1] == [[EnsureRun(1, now)]] && paged[..2] == [[EnsureRun(1, now)], [CommitForkRun(0, later)]];
    assert Flatten(paged[..1]) == [EnsureRun(1, now)];
    assert paged[..2][..1] == paged[..1];
    assert Flatten(paged[..2]) == [EnsureRun(1, now), CommitForkRun(0, later)];
    if more != [] {
      assert paged[..3][..2] == paged[..2] && paged[..3][2] == [];
      assert Flatten(paged[..3]) == Flatten(paged[..2]);
    }
    hide Flatten;
    ExecOne(s, EnsureRun(1, now));
    ExecTwo(s, EnsureRun(1, now), CommitForkRun(0, later));
  }

  /** Paging one row at a time along this schedule lists a, then b, then a again. */
  lemma TwiceListedExample()
    ensures Walk(Along(Exec(Init(AGENTS), BEFORE), Paged("1", "2", [[]])), 1, None)
      == Walked([Started("1"), B1, Forked("2")], true, false)
  {
    hide Exec, Step, Walk, Flatten, Waiting, Along;
    Replaces("1", "2");
    Snapshots("1", "2", [[]]);
    var s1 := Step(Waiting(), EnsureRun(1, "1"));
    var d1, d2 := s1.core.db, Step(s1, CommitForkRun(0, "2")).core.db;
    assert [d1, d2] + [d2] == [d1, d2, d2];
    ThreePages(d1, d2);
  }

  /** The fork has taken its time before a started, and commits later: paging ends, and a, there from
      beginning to end, is not listed. */
  lemma MissedExample()
    ensures var snapshots := Along(Exec(Init(AGENTS), BEFORE), Paged("2", "1", []));
      && Walk(snapshots, 1, None) == Walked([B1], true, false)
      && |snapshots| == 2 && "a" in snapshots[0].metas && "a" in snapshots[1].metas
  {
    hide Exec, Step, Walk, Flatten, Waiting, Along;
    Replaces("2", "1");
    Snapshots("2", "1", []);
    var s1 := Step(Waiting(), EnsureRun(1, "2"));
    var d1, d2 := s1.core.db, Step(s1, CommitForkRun(0, "1")).core.db;
    assert [d1, d2] + [] == [d1, d2];
    TwoPages(d1, d2);
  }
}
