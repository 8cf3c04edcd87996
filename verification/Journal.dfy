/** The step journal: two tables, the writes that change them, and the reads over them. */
module Journal {
  import opened Idempotency
  import opened Json
  import opened Ordering
  import opened StepModel
  import opened Text
  import opened Wrappers

  /** step_journal under its primary key (run_id, seq), and run_meta under run_id. */
  datatype Db = Db(steps: map<(RunId, nat), Entry>, metas: map<RunId, RunMeta>)

  const EMPTY_DB := Db(map[], map[])

  /** Every row is stored under its own key. */
  ghost predicate ValidDb(db: Db)
  {
    && (forall p | p in db.steps :: db.steps[p].runId == p.0 && db.steps[p].seqNo == p.1)
    && (forall r | r in db.metas :: db.metas[r].runId == r)
  }

  // ---- Reads ----

  function SeqNos(db: Db, r: RunId): set<nat> { set p | p in db.steps && p.0 == r :: p.1 }

  predicate NatLess(a: nat, b: nat) { a < b }

  function Rows(db: Db, r: RunId, ks: seq<nat>): (rows: seq<Entry>)
    requires forall k | k in ks :: (r, k) in db.steps
    ensures |rows| == |ks| && forall i | 0 <= i < |ks| :: rows[i] == db.steps[(r, ks[i])]
  {
    if |ks| == 0 then [] else [db.steps[(r, ks[0])]] + Rows(db, r, ks[1..])
  }

  /** The steps of a run, ORDER BY seq. */
  function Trajectory(db: Db, r: RunId): seq<Entry>
  {
    OrderByProperties(SeqNos(db, r), NatLess);
    Rows(db, r, OrderBy(SeqNos(db, r), NatLess))
  }

  lemma TrajectoryAt(db: Db, r: RunId)
    ensures var ks, t := OrderBy(SeqNos(db, r), NatLess), Trajectory(db, r);
      && |t| == |ks|
      && (forall i | 0 <= i < |ks| :: (r, ks[i]) in db.steps && t[i] == db.steps[(r, ks[i])])
      && (forall k: nat :: (r, k) in db.steps <==> k in ks)
      && (forall i, j | 0 <= i < j < |ks| :: ks[i] < ks[j])
  {
    var S := SeqNos(db, r);
    OrderByProperties(S, NatLess);
    hide OrderBy;
    var ks := OrderBy(S, NatLess);
    forall k: nat ensures (r, k) in db.steps <==> k in ks {
      if (r, k) in db.steps { assert (r, k).1 in S; }
    }
    forall i, j | 0 <= i < j < |ks| ensures ks[i] < ks[j] { assert NatLess(ks[i], ks[j]); }
  }

  /** A trajectory holds exactly the run's rows, in ascending seq. */
  lemma TrajectoryExact(db: Db, r: RunId)
    requires ValidDb(db)
    ensures var t := Trajectory(db, r);
      && (forall i, j | 0 <= i < j < |t| :: t[i].seqNo < t[j].seqNo)
      && (forall e | e in t :: (r, e.seqNo) in db.steps && db.steps[(r, e.seqNo)] == e)
      && (forall k: nat | (r, k) in db.steps :: db.steps[(r, k)] in t)
      && (forall e | e in t :: e.runId == r)
  {
    TrajectoryAt(db, r);
    hide Trajectory;
    hide OrderBy;
    var ks, t := OrderBy(SeqNos(db, r), NatLess), Trajectory(db, r);
    forall k: nat | (r, k) in db.steps ensures db.steps[(r, k)] in t {
      var i :| 0 <= i < |ks| && ks[i] == k;
      assert t[i] == db.steps[(r, k)];
    }
  }

  function Range(n: nat): (s: seq<nat>)
    ensures |s| == n && forall i | 0 <= i < n :: s[i] == i + 1
  {
    seq(n, i => i + 1)
  }

  /** A run recorded without gaps reads back as its rows 1, 2, …, n. */
  lemma TrajectoryContiguous(db: Db, r: RunId, n: nat)
    requires forall k: nat :: (r, k) in db.steps <==> 1 <= k <= n
    ensures |Trajectory(db, r)| == n
    ensures forall i | 0 <= i < n :: Trajectory(db, r)[i] == db.steps[(r, i + 1)]
  {
    var S := SeqNos(db, r);
    OrderByProperties(S, NatLess);
    var range := Range(n);
    forall x ensures x in range <==> x in S {
      if x in range { assert (r, x) in db.steps; assert (r, x).1 in S; }
      if x in S { assert (r, x) in db.steps; assert range[x - 1] == x; }
    }
    AscendingUnique(OrderBy(S, NatLess), range, S, NatLess);
  }

  function RunMetaOf(db: Db, r: RunId): Option<RunMeta>
  {
    if r in db.metas then Some(db.metas[r]) else None
  }

  /** ORDER BY created_at, run_id over rows of run_meta. */
  predicate MetaBefore(metas: map<RunId, RunMeta>, a: RunId, b: RunId)
  {
    a in metas && b in metas &&
    (Less(metas[a].createdAt, metas[b].createdAt) || (metas[a].createdAt == metas[b].createdAt && Less(a, b)))
  }

  function ByCreation(metas: map<RunId, RunMeta>): (RunId, RunId) -> bool
  {
    (a, b) => MetaBefore(metas, a, b)
  }

  lemma ByCreationTotal(metas: map<RunId, RunMeta>, S: set<RunId>)
    requires S <= metas.Keys
    ensures TotalOn(ByCreation(metas), S)
  {
    var lt := ByCreation(metas);
    forall x | x in S ensures !lt(x, x) { LessIrreflexive(x); LessIrreflexive(metas[x].createdAt); }
    forall x, y | x in S && y in S ensures x == y || lt(x, y) || lt(y, x) {
      LessTotal(x, y);
      LessTotal(metas[x].createdAt, metas[y].createdAt);
    }
    forall x, y, z | x in S && y in S && z in S && lt(x, y) && lt(y, z) ensures lt(x, z) {
      if Less(metas[x].createdAt, metas[y].createdAt) && Less(metas[y].createdAt, metas[z].createdAt) {
        LessTransitive(metas[x].createdAt, metas[y].createdAt, metas[z].createdAt);
      }
      if Less(x, y) && Less(y, z) { LessTransitive(x, y, z); }
    }
  }

  function Ordered(db: Db, S: set<RunId>): seq<RunId>
    requires S <= db.metas.Keys
  {
    ByCreationTotal(db.metas, S);
    OrderBy(S, ByCreation(db.metas))
  }

  lemma OrderedExact(db: Db, S: set<RunId>)
    requires S <= db.metas.Keys
    ensures Ascending(Ordered(db, S), ByCreation(db.metas))
    ensures forall r :: r in Ordered(db, S) <==> r in S
    ensures |Ordered(db, S)| == |S|
  {
    ByCreationTotal(db.metas, S);
    OrderByProperties(S, ByCreation(db.metas));
  }

  function MetasOf(db: Db, ids: seq<RunId>): (ms: seq<RunMeta>)
    requires forall r | r in ids :: r in db.metas
    ensures |ms| == |ids| && forall i | 0 <= i < |ids| :: ms[i] == db.metas[ids[i]]
  {
    if |ids| == 0 then [] else [db.metas[ids[0]]] + MetasOf(db, ids[1..])
  }

  function ChildSet(db: Db, parent: RunId): (S: set<RunId>)
    ensures S <= db.metas.Keys
  {
    set r | r in db.metas && db.metas[r].parentRun == Some(parent)
  }

  /** Direct forks of a run, ORDER BY created_at, run_id. */
  function ChildRuns(db: Db, parent: RunId): seq<RunMeta>
  {
    OrderedExact(db, ChildSet(db, parent));
    MetasOf(db, Ordered(db, ChildSet(db, parent)))
  }

  function AllRunIds(db: Db): seq<RunId> { Ordered(db, db.metas.Keys) }

  function HitlStateIn(db: Db, r: RunId): HitlState { HitlStateOf(Trajectory(db, r)) }

  // ---- Writes ----

  /** The unique index on (run_id, idem_key). */
  predicate KeyTaken(db: Db, r: RunId, key: string)
  {
    exists p | p in db.steps :: p.0 == r && db.steps[p].idemKey == key
  }

  /** INSERT INTO step_journal; None is the uniqueness error. */
  function InsertStep(db: Db, e: Entry): Option<Db>
  {
    if (e.runId, e.seqNo) in db.steps || KeyTaken(db, e.runId, e.idemKey) then None
    else Some(db.(steps := db.steps[(e.runId, e.seqNo) := e]))
  }

  /** INSERT OR IGNORE INTO run_meta. */
  function EnsureMeta(db: Db, r: RunId, trajectory: string, now: string): Db
  {
    if r in db.metas then db else db.(metas := db.metas[r := RunMeta(r, None, None, trajectory, now)])
  }

  /** The copy of a source row that a fork stores: the source's key, under the new run. */
  function Seeded(e: Entry, src: RunId, dst: RunId, now: string): Entry
  {
    e.(runId := dst, seededFrom := Some(src), recordedAt := now)
  }

  function SeedSteps(db: Db, rows: seq<Entry>, src: RunId, dst: RunId, now: string): Option<Db>
    decreases |rows|
  {
    if |rows| == 0 then Some(db)
    else match InsertStep(db, Seeded(rows[0], src, dst, now))
      case None => None
      case Some(db') => SeedSteps(db', rows[1..], src, dst, now)
  }

  function RowsThrough(db: Db, src: RunId, throughSeq: nat): seq<Entry>
  {
    Filter(Trajectory(db, src), (e: Entry) => e.seqNo <= throughSeq)
  }

  /** The transaction of forkRun: the lineage row replaces any row the target has, then the copies. */
  function CommitFork(db: Db, rows: seq<Entry>, src: RunId, dst: RunId, throughSeq: nat, trajectory: string,
                      now: string)
    : Option<Db>
  {
    SeedSteps(db.(metas := db.metas[dst := RunMeta(dst, Some(src), Some(throughSeq), trajectory, now)]), rows, src, dst,
      now)
  }

  /** A seeding that goes through adds exactly the copies, and nothing else changes. */
  lemma {:induction false} SeedStepsExact(db: Db, rows: seq<Entry>, src: RunId, dst: RunId, now: string)
    requires SeedSteps(db, rows, src, dst, now).Some?
    ensures var db' := SeedSteps(db, rows, src, dst, now).value;
      && db'.metas == db.metas
      && (forall p | p in db.steps :: p in db'.steps && db'.steps[p] == db.steps[p])
      && (forall i | 0 <= i < |rows| :: (dst, rows[i].seqNo) !in db.steps)
      && (forall i | 0 <= i < |rows| ::
            (dst, rows[i].seqNo) in db'.steps && db'.steps[(dst, rows[i].seqNo)] ==
              rows[i].(runId := dst, seededFrom := Some(src), recordedAt := now))
      && (forall p | p in db'.steps && p !in db.steps ::
            p.0 == dst && exists i | 0 <= i < |rows| :: rows[i].seqNo == p.1)
    decreases |rows|
  {
    if |rows| > 0 {
      var mid := InsertStep(db, Seeded(rows[0], src, dst, now)).value;
      SeedStepsExact(mid, rows[1..], src, dst, now);
      var db' := SeedSteps(db, rows, src, dst, now).value;
      assert db' == SeedSteps(mid, rows[1..], src, dst, now).value;
      forall i | 0 <= i < |rows|
        ensures (dst, rows[i].seqNo) !in db.steps
        ensures (dst, rows[i].seqNo) in db'.steps && db'.steps[(dst, rows[i].seqNo)] == Seeded(rows[i], src, dst, now)
      {
        if i > 0 { assert rows[i] == rows[1..][i - 1]; }
      }
      forall p | p in db'.steps && p !in db.steps
        ensures p.0 == dst && exists i | 0 <= i < |rows| :: rows[i].seqNo == p.1
      {
        if p !in mid.steps {
          var i :| 0 <= i < |rows[1..]| && rows[1..][i].seqNo == p.1;
          assert rows[i + 1].seqNo == p.1;
        } else {
          assert rows[0].seqNo == p.1;
        }
      }
    }
  }

  /** Copies with distinct seqs and distinct keys go into a run that has no rows. */
  lemma {:induction false} SeedStepsSucceeds(db: Db, rows: seq<Entry>, src: RunId, dst: RunId, now: string)
    requires forall i, j | 0 <= i < j < |rows| :: rows[i].seqNo != rows[j].seqNo && rows[i].idemKey != rows[j].idemKey
    requires forall i | 0 <= i < |rows| :: (dst, rows[i].seqNo) !in db.steps && !KeyTaken(db, dst, rows[i].idemKey)
    ensures SeedSteps(db, rows, src, dst, now).Some?
    decreases |rows|
  {
    if |rows| > 0 {
      var mid := InsertStep(db, Seeded(rows[0], src, dst, now)).value;
      var rest := rows[1..];
      forall i | 0 <= i < |rest|
        ensures (dst, rest[i].seqNo) !in mid.steps && !KeyTaken(mid, dst, rest[i].idemKey)
      {
        assert rest[i] == rows[i + 1];
        assert rows[0].seqNo != rows[i + 1].seqNo && rows[0].idemKey != rows[i + 1].idemKey;
      }
      SeedStepsSucceeds(mid, rest, src, dst, now);
    }
  }

  // ---- recordStep ----

  datatype RecordResult = RecordResult(value: Json, replayed: bool, idemKey: string)

  datatype StepArgs = StepArgs(runId: RunId, seqNo: nat, stepName: string, kind: string, sideEffect: bool)

  function NativeEntry(a: StepArgs, key: string, output: Json, now: string): Entry
  {
    Entry(a.runId, a.seqNo, a.stepName, a.kind, key, output, a.sideEffect, None, now)
  }

  function Lookup(db: Db, r: RunId, k: nat): Option<Json>
  {
    if (r, k) in db.steps then Some(db.steps[(r, k)].output) else None
  }

  /** recordStep with nobody else writing between its read and its insert. */
  function RecordStep(db: Db, a: StepArgs, producer: string -> Json, now: string): (Db, Result<RecordResult>)
  {
    match DeriveKey(a.runId, a.stepName)
    case Err(m) => (db, Err(m))
    case Ok(key) =>
      match Lookup(db, a.runId, a.seqNo)
      case Some(v) => (db, Ok(RecordResult(v, true, key)))
      case None =>
        match InsertStep(db, NativeEntry(a, key, producer(key), now))
        case None => (db, Err(UniqueConstraint))
        case Some(db') => (db', Ok(RecordResult(producer(key), false, key)))
  }

  /** Everything recordStep does: a recorded step is answered from its row; a new one is produced, with the
      step's key, and stored with exactly what it was recorded as; an unsafe name, or a key some other step
      of the run holds, is an error and stores nothing. */
  lemma RecordExactly(db: Db, a: StepArgs, producer: string -> Json, now: string)
    ensures var key := a.runId + ":" + a.stepName;
      var (db', r) := RecordStep(db, a, producer, now);
      var row := Entry(a.runId, a.seqNo, a.stepName, a.kind, key, producer(key), a.sideEffect, None, now);
      if !IsSafe(a.runId) || !IsSafe(a.stepName) then r.Err? && db' == db
      else if (a.runId, a.seqNo) in db.steps then
        db' == db && r == Ok(RecordResult(db.steps[(a.runId, a.seqNo)].output, true, key))
      else if exists p | p in db.steps :: p.0 == a.runId && db.steps[p].idemKey == key then
        db' == db && r == Err(UniqueConstraint)
      else
        db' == Db(db.steps[(a.runId, a.seqNo) := row], db.metas) && r == Ok(RecordResult(producer(key), false, key))
  {
    assert !IsSafe("");
    hide IsSafe;
  }

  /** Record once, replay ever after: a second call returns the recorded value whatever its own
      producer would have returned, and leaves the journal alone. */
  lemma RecordOnce(db: Db, a: StepArgs, p1: string -> Json, p2: string -> Json, now1: string, now2: string)
    requires RecordStep(db, a, p1, now1).1.Ok?
    ensures var (db', r1) := RecordStep(db, a, p1, now1);
      RecordStep(db', a, p2, now2) == (db', Ok(r1.value.(replayed := true)))
  {
  }

  // ---- Fork validation ----

  datatype ForkPlan = ForkPlan(sourceRunId: RunId, newRunId: RunId, throughSeq: int, prompt: string, trajectory: string)

  /** The first error validateForkPlan throws, or None. */
  function ForkPlanError(db: Db, plan: ForkPlan): Option<Error>
  {
    if plan.sourceRunId == "" || plan.newRunId == "" then Some(MissingRunId)
    else if plan.sourceRunId == plan.newRunId then Some(ForkOntoItself)
    else match DeriveKey(plan.newRunId, "probe")
      case Err(m) => Some(m)
      case Ok(_) =>
        var src := Trajectory(db, plan.sourceRunId);
        if |src| == 0 then Some(EmptySource)
        else if plan.throughSeq < 1 || plan.throughSeq > src[|src| - 1].seqNo then Some(ForkPointOutOfRange)
        else if (plan.sourceRunId, plan.throughSeq) !in db.steps then Some(NoStepAtForkPoint)
        else if plan.newRunId in db.metas || |Trajectory(db, plan.newRunId)| > 0 then Some(TargetExists)
        else None
  }

  lemma HasStepWithin(db: Db, r: RunId, k: nat)
    requires ValidDb(db) && (r, k) in db.steps
    ensures var t := Trajectory(db, r); |t| > 0 && k <= t[|t| - 1].seqNo
  {
    TrajectoryExact(db, r);
    hide Trajectory;
    var t := Trajectory(db, r);
    var i :| 0 <= i < |t| && t[i] == db.steps[(r, k)];
    assert i == |t| - 1 || t[i].seqNo < t[|t| - 1].seqNo;
  }

  /** A plan passes exactly when it copies an existing step onto a safe, unused, different run id. */
  lemma ForkPlanAccepted(db: Db, plan: ForkPlan)
    requires ValidDb(db)
    ensures ForkPlanError(db, plan).None? <==>
      && plan.sourceRunId != "" && plan.sourceRunId != plan.newRunId && IsSafe(plan.newRunId)
      && plan.throughSeq >= 1 && (plan.sourceRunId, plan.throughSeq) in db.steps
      && plan.newRunId !in db.metas && forall k: nat :: (plan.newRunId, k) !in db.steps
  {
    assert IsSafe("probe");
    NoRows(db, plan.newRunId);
    if plan.throughSeq >= 1 && (plan.sourceRunId, plan.throughSeq) in db.steps {
      HasStepWithin(db, plan.sourceRunId, plan.throughSeq);
    }
    hide Trajectory;
    hide IsSafe;
  }

  lemma NoRows(db: Db, r: RunId)
    ensures |Trajectory(db, r)| == 0 <==> forall k: nat :: (r, k) !in db.steps
  {
    TrajectoryAt(db, r);
    hide OrderBy;
    hide Trajectory;
    var ks := OrderBy(SeqNos(db, r), NatLess);
    if |ks| > 0 { assert ks[0] in ks; }
  }

  // ---- The store ----

  /** journal.db, written by recordStep, ensureRunMeta and forkRun. */
  class JournalStore {
    var steps: map<(RunId, nat), Entry>
    var metas: map<RunId, RunMeta>

    function Contents(): Db
      reads this
    {
      Db(steps, metas)
    }

    constructor ()
      ensures Contents() == EMPTY_DB
    {
      steps, metas := map[], map[];
    }

    method EnsureRunMeta(r: RunId, trajectory: string, now: string)
      modifies this
      ensures Contents() == EnsureMeta(old(Contents()), r, trajectory, now)
    {
      if r !in metas {
        metas := metas[r := RunMeta(r, None, None, trajectory, now)];
      }
    }

    method Insert(e: Entry) returns (ok: bool)
      modifies this
      ensures ok <==> InsertStep(old(Contents()), e).Some?
      ensures Contents() == if ok then InsertStep(old(Contents()), e).value else old(Contents())
    {
      ok := (e.runId, e.seqNo) !in steps && !KeyTaken(Contents(), e.runId, e.idemKey);
      if ok {
        steps := steps[(e.runId, e.seqNo) := e];
      }
    }

    method Record(a: StepArgs, producer: string -> Json, now: string) returns (r: Result<RecordResult>)
      modifies this
      ensures (Contents(), r) == RecordStep(old(Contents()), a, producer, now)
      ensures r.Ok? && !r.value.replayed ==>
        var key := a.runId + ":" + a.stepName;
        && r.value == RecordResult(producer(key), false, key) && metas == old(metas)
        && steps == old(steps)[(a.runId, a.seqNo) :=
             Entry(a.runId, a.seqNo, a.stepName, a.kind, key, producer(key), a.sideEffect, None, now)]
      ensures r.Ok? && r.value.replayed ==>
        && (a.runId, a.seqNo) in steps && r.value.value == steps[(a.runId, a.seqNo)].output
        && Contents() == old(Contents())
      ensures r.Err? ==> Contents() == old(Contents())
    {
      RecordExactly(Contents(), a, producer, now);
      var key := DeriveKey(a.runId, a.stepName);
      if key.Err? { return Err(key.error); }
      var existing := Lookup(Contents(), a.runId, a.seqNo);
      if existing.Some? { return Ok(RecordResult(existing.value, true, key.value)); }
      var value := producer(key.value);
      var ok := Insert(NativeEntry(a, key.value, value, now));
      if !ok { return Err(UniqueConstraint); }
      r := Ok(RecordResult(value, false, key.value));
    }

    /** All or nothing: the copies of the source's rows, or the journal as it was. */
    method ForkRun(src: RunId, dst: RunId, throughSeq: nat, trajectory: string, now: string)
      returns (seeded: Option<nat>)
      modifies this
      ensures var rows := RowsThrough(old(Contents()), src, throughSeq);
        var result := CommitFork(old(Contents()), rows, src, dst, throughSeq, trajectory, now);
        && (seeded.Some? <==> result.Some?)
        && (seeded.Some? ==> seeded.value == |rows|)
        && Contents() == if result.Some? then result.value else old(Contents())
    {
      var rows := RowsThrough(Contents(), src, throughSeq);
      var savedSteps, savedMetas := steps, metas;
      metas := metas[dst := RunMeta(dst, Some(src), Some(throughSeq), trajectory, now)];
      ghost var begun := Contents();
      var i := 0;
      while i < |rows|
        invariant 0 <= i <= |rows|
        invariant SeedSteps(Contents(), rows[i..], src, dst, now) == SeedSteps(begun, rows, src, dst, now)
      {
        assert rows[i..][0] == rows[i] && rows[i..][1..] == rows[i + 1..];
        var ok := Insert(Seeded(rows[i], src, dst, now));
        if !ok {
          steps, metas := savedSteps, savedMetas;
          return None;
        }
        i := i + 1;
      }
      seeded := Some(|rows|);
    }

    /** Validate, then seed: an invalid plan changes nothing. */
    method SeedFork(plan: ForkPlan, now: string) returns (r: Result<nat>)
      modifies this
      ensures ForkPlanError(old(Contents()), plan).Some? ==> r.Err? && Contents() == old(Contents())
      ensures ForkPlanError(old(Contents()), plan).None? ==>
        var rows := RowsThrough(old(Contents()), plan.sourceRunId, plan.throughSeq);
        var result := CommitFork(old(Contents()), rows, plan.sourceRunId, plan.newRunId, plan.throughSeq,
          plan.trajectory, now);
        && (r.Ok? <==> result.Some?)
        && (r.Ok? ==> r.value == |rows|)
        && Contents() == if result.Some? then result.value else old(Contents())
    {
      var error := ForkPlanError(Contents(), plan);
      if error.Some? { return Err(error.value); }
      var seeded := ForkRun(plan.sourceRunId, plan.newRunId, plan.throughSeq, plan.trajectory, now);
      if seeded.None? { return Err(UniqueConstraint); }
      r := Ok(seeded.value);
    }
  }
}
