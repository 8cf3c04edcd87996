/** Comparing two trajectories seq by seq, and where runs of one fork family can first differ. */
module Diff {
  import opened EffectSink
  import opened Idempotency
  import opened Journal
  import opened Json
  import opened Lineage
  import opened Ordering
  import opened Protocol
  import opened ProtocolInvariant
  import opened ProtocolSafety
  import opened ProtocolTheorems
  import opened StepModel
  import opened Workflow
  import opened Wrappers

  datatype Status = Same | Changed | OnlyA | OnlyB

  datatype StepDiff = StepDiff(seqNo: nat, status: Status, stepName: string, aOutput: Option<Json>,
      bOutput: Option<Json>, seeded: bool)

  /** new Map(t.map(e => [e.seq, e])).get(k): the last entry with that seq. */
  function At(t: seq<Entry>, k: nat): Option<Entry>
  {
    if |t| == 0 then None
    else if t[|t| - 1].seqNo == k then Some(t[|t| - 1])
    else At(t[..|t| - 1], k)
  }

  function Seqs(t: seq<Entry>): set<nat> { set e | e in t :: e.seqNo }

  lemma {:induction false} AtSeqs(t: seq<Entry>, k: nat)
    ensures At(t, k).Some? <==> k in Seqs(t)
    ensures At(t, k).Some? ==> At(t, k).value in t && At(t, k).value.seqNo == k
  {
    if |t| > 0 {
      AtSeqs(t[..|t| - 1], k);
      assert t == t[..|t| - 1] + [t[|t| - 1]];
    }
  }

  function OutputAt(t: seq<Entry>, k: nat): Option<Json>
  {
    match At(t, k) case Some(e) => Some(e.output) case None => None
  }

  /** At seq k both trajectories have the same output, or neither has an entry. */
  predicate Agree(a: seq<Entry>, b: seq<Entry>, k: nat) { OutputAt(a, k) == OutputAt(b, k) }

  function StatusAt(a: seq<Entry>, b: seq<Entry>, k: nat): Status
  {
    match (At(a, k), At(b, k))
    case (Some(x), Some(y)) => if Print(x.output) == Print(y.output) then Same else Changed
    case (Some(_), None) => OnlyA
    case _ => OnlyB
  }

  function DiffAt(a: seq<Entry>, b: seq<Entry>, k: nat): StepDiff
  {
    var ea, eb := At(a, k), At(b, k);
    StepDiff(k, StatusAt(a, b, k), if ea.Some? then ea.value.stepName else if eb.Some? then eb.value.stepName else "",
             OutputAt(a, k), OutputAt(b, k),
             (ea.Some? && ea.value.seededFrom.Some?) || (eb.Some? && eb.value.seededFrom.Some?))
  }

  lemma SameIsAgree(a: seq<Entry>, b: seq<Entry>, k: nat)
    requires At(a, k).Some? || At(b, k).Some?
    ensures StatusAt(a, b, k) == Same <==> Agree(a, b, k)
  {
    hide Print;
    if At(a, k).Some? && At(b, k).Some? && Print(At(a, k).value.output) == Print(At(b, k).value.output) {
      PrintInjective(At(a, k).value.output, At(b, k).value.output);
    }
  }

  /** Entry i is the one a trajectory shows at seq k: the last with that seq. */
  ghost predicate ShownAt(t: seq<Entry>, k: nat, i: nat)
  {
    i < |t| && t[i].seqNo == k && forall j | i < j < |t| :: t[j].seqNo != k
  }

  lemma {:induction false} AtShown(t: seq<Entry>, k: nat, i: nat)
    requires ShownAt(t, k, i)
    ensures At(t, k) == Some(t[i])
  {
    if i < |t| - 1 {
      assert t[|t| - 1].seqNo != k;
      AtShown(t[..|t| - 1], k, i);
    }
  }

  ghost predicate Absent(t: seq<Entry>, k: nat) { forall e | e in t :: e.seqNo != k }

  lemma AtAbsent(t: seq<Entry>, k: nat)
    requires Absent(t, k)
    ensures At(t, k) == None
  {
    AtSeqs(t, k);
  }

  /** A row of the comparison where both runs have the seq. */
  lemma RowOfBoth(a: seq<Entry>, b: seq<Entry>, k: nat, i: nat, j: nat)
    requires ShownAt(a, k, i) && ShownAt(b, k, j)
    ensures DiffAt(a, b, k) == StepDiff(k, if a[i].output == b[j].output then Same else Changed, a[i].stepName,
      Some(a[i].output), Some(b[j].output), a[i].seededFrom != None || b[j].seededFrom != None)
  {
    AtShown(a, k, i);
    AtShown(b, k, j);
    SameIsAgree(a, b, k);
    hide At, Print;
  }

  /** Rows of the comparison where only one of the runs has the seq. */
  lemma RowOfOne(a: seq<Entry>, b: seq<Entry>, k: nat, i: nat)
    ensures ShownAt(a, k, i) && Absent(b, k) ==>
      DiffAt(a, b, k) == StepDiff(k, OnlyA, a[i].stepName, Some(a[i].output), None, a[i].seededFrom != None)
    ensures Absent(a, k) && ShownAt(b, k, i) ==>
      DiffAt(a, b, k) == StepDiff(k, OnlyB, b[i].stepName, None, Some(b[i].output), b[i].seededFrom != None)
  {
    hide At, Print;
    if ShownAt(a, k, i) && Absent(b, k) {
      AtShown(a, k, i);
      AtAbsent(b, k);
    }
    if Absent(a, k) && ShownAt(b, k, i) {
      AtAbsent(a, k);
      AtShown(b, k, i);
    }
  }

  lemma NatTotal(S: set<nat>)
    ensures TotalOn(NatLess, S)
  {
  }

  /** The seqs either trajectory has, in ascending order. */
  function AllSeqs(a: seq<Entry>, b: seq<Entry>): seq<nat>
  {
    NatTotal(Seqs(a) + Seqs(b));
    OrderBy(Seqs(a) + Seqs(b), NatLess)
  }

  lemma AllSeqsExact(a: seq<Entry>, b: seq<Entry>)
    ensures forall k :: k in AllSeqs(a, b) <==> At(a, k).Some? || At(b, k).Some?
    ensures forall i, j | 0 <= i < j < |AllSeqs(a, b)| :: AllSeqs(a, b)[i] < AllSeqs(a, b)[j]
  {
    hide At, OrderBy;
    var S, ks := Seqs(a) + Seqs(b), AllSeqs(a, b);
    NatTotal(S);
    OrderByProperties(S, NatLess);
    forall k ensures k in ks <==> At(a, k).Some? || At(b, k).Some? {
      AtSeqs(a, k);
      AtSeqs(b, k);
    }
    forall i, j | 0 <= i < j < |ks| ensures ks[i] < ks[j] { assert NatLess(ks[i], ks[j]); }
  }

  /** `first` is the least seq at which the two trajectories differ, or None when they never do. */
  ghost predicate IsFirstDivergence(a: seq<Entry>, b: seq<Entry>, first: Option<nat>)
  {
    match first
    case None => forall k :: Agree(a, b, k)
    case Some(k) => !Agree(a, b, k) && forall j: nat | j < k :: Agree(a, b, j)
  }

  /** One row per seq of either run, in ascending order, and the least seq at which they differ. */
  method DiffTrajectories(a: seq<Entry>, b: seq<Entry>) returns (first: Option<nat>, steps: seq<StepDiff>)
    ensures IsFirstDivergence(a, b, first)
    ensures |steps| == |AllSeqs(a, b)| && forall i | 0 <= i < |steps| :: steps[i] == DiffAt(a, b, AllSeqs(a, b)[i])
  {
    hide At, OrderBy, StatusAt, AllSeqs;
    var ks := AllSeqs(a, b);
    AllSeqsExact(a, b);
    first, steps := None, [];
    for i := 0 to |ks|
      invariant |steps| == i && forall j | 0 <= j < i :: steps[j] == DiffAt(a, b, ks[j])
      invariant first.None? ==> forall j | 0 <= j < i :: Agree(a, b, ks[j])
      invariant first.Some? ==>
        && !Agree(a, b, first.value)
        && exists n :: 0 <= n < i && ks[n] == first.value && forall j | 0 <= j < n :: Agree(a, b, ks[j])
    {
      assert ks[i] in ks;
      SameIsAgree(a, b, ks[i]);
      if StatusAt(a, b, ks[i]) != Same && first.None? { first := Some(ks[i]); }
      steps := steps + [DiffAt(a, b, ks[i])];
    }
    FirstIsLeast(a, b, first);
  }

  /** Seqs that neither run has cannot differ. */
  lemma FirstIsLeast(a: seq<Entry>, b: seq<Entry>, first: Option<nat>)
    requires first.None? ==> forall j | 0 <= j < |AllSeqs(a, b)| :: Agree(a, b, AllSeqs(a, b)[j])
    requires first.Some? ==> !Agree(a, b, first.value) && exists n ::
      0 <= n < |AllSeqs(a, b)| && AllSeqs(a, b)[n] == first.value
        && forall j | 0 <= j < n :: Agree(a, b, AllSeqs(a, b)[j])
    ensures IsFirstDivergence(a, b, first)
  {
    hide At, OrderBy, AllSeqs;
    AllSeqsExact(a, b);
    var ks := AllSeqs(a, b);
    forall k: nat | first.None? || k < first.value ensures Agree(a, b, k) {
      if k in ks {
        var i :| 0 <= i < |ks| && ks[i] == k;
        if first.Some? {
          var n :| 0 <= n < |ks| && ks[n] == first.value && forall j | 0 <= j < n :: Agree(a, b, ks[j]);
        }
      }
    }
  }

  // ---- Runs of one family ----

  lemma AtTrajectory(db: Db, r: RunId, k: nat)
    requires ValidDb(db)
    ensures At(Trajectory(db, r), k) == if (r, k) in db.steps then Some(db.steps[(r, k)]) else None
  {
    hide At, Trajectory;
    TrajectoryExact(db, r);
    AtSeqs(Trajectory(db, r), k);
    if (r, k) in db.steps { assert db.steps[(r, k)] in Trajectory(db, r); }
  }

  lemma {:induction false} WithinForksBelow(metas: map<RunId, RunMeta>, r: RunId, n: nat, k: nat, j: nat)
    requires WithinForks(metas, r, n, k) && j <= k
    ensures WithinForks(metas, r, n, j)
    decreases n
  {
    if n > 0 { WithinForksBelow(metas, metas[r].parentRun.value, n - 1, k, j); }
  }

  /** Two runs of one fork family first differ, if they do, only after the fork points on both their
      paths from a common ancestor. */
  lemma FamilyDivergence(flow: RunId -> Flow, schedule: seq<Action>, r1: RunId, n1: nat, r2: RunId, n2: nat,
                         a: RunId, k: nat, first: Option<nat>)
    requires n1 >= 1 || n2 >= 1
    requires var metas := Exec(Init(flow), schedule).core.db.metas;
      Up(metas, r1, n1) == Some(a) && Up(metas, r2, n2) == Some(a) && WithinForks(metas, r1, n1, k)
        && WithinForks(metas, r2, n2, k)
    requires var db := Exec(Init(flow), schedule).core.db;
      IsFirstDivergence(Trajectory(db, r1), Trajectory(db, r2), first)
    ensures first.Some? ==> first.value > k
  {
    hide Exec, EntriesOk, MetasOk, RowsOk, WithinForks, Trajectory, At;
    Invariant(flow, schedule);
    var c := Exec(Init(flow), schedule).core;
    ValidCore(c);
    if first.Some? && first.value <= k {
      var j := first.value;
      AtTrajectory(c.db, r1, j);
      AtTrajectory(c.db, r2, j);
      if j >= 1 {
        WithinForksBelow(c.db.metas, r1, n1, k, j);
        WithinForksBelow(c.db.metas, r2, n2, k, j);
        FamilyPrefix(flow, schedule, r1, n1, r2, n2, a, j);
      }
      assert false;
    }
  }
}
