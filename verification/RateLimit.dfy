/** The submission rate limit: fixed windows per run, opened by the first submission in them. */
module RateLimit {
  import opened StepModel
  import opened Wrappers

  const WINDOW := 60000
  const MAX_PER_WINDOW := 30

  datatype Bucket = Bucket(count: nat, resetAt: int)

  type Buckets = map<RunId, Bucket>

  datatype Request = Request(runId: RunId, at: int)

  /** A submission is allowed when the run has no open window, or room in the open one. */
  predicate Allowed(buckets: Buckets, q: Request)
  {
    q.runId !in buckets || q.at >= buckets[q.runId].resetAt || buckets[q.runId].count < MAX_PER_WINDOW
  }

  function Next(buckets: Buckets, q: Request): Buckets
  {
    if q.runId !in buckets || q.at >= buckets[q.runId].resetAt then buckets[q.runId := Bucket(1, q.at + WINDOW)]
    else if buckets[q.runId].count >= MAX_PER_WINDOW then buckets
    else buckets[q.runId := Bucket(buckets[q.runId].count + 1, buckets[q.runId].resetAt)]
  }

  class RateLimiter {
    var buckets: Buckets

    constructor ()
      ensures buckets == map[]
    {
      buckets := map[];
    }

    method AllowHitlInputSubmit(runId: RunId, now: int) returns (allowed: bool)
      modifies this
      ensures allowed <==> Allowed(old(buckets), Request(runId, now))
      ensures buckets == Next(old(buckets), Request(runId, now))
    {
      if runId !in buckets || now >= buckets[runId].resetAt {
        buckets := buckets[runId := Bucket(1, now + WINDOW)];
        return true;
      }
      var cur := buckets[runId];
      if cur.count >= MAX_PER_WINDOW { return false; }
      buckets := buckets[runId := cur.(count := cur.count + 1)];
      allowed := true;
    }
  }

  // ---- Whole request sequences ----

  function After(requests: seq<Request>): Buckets
  {
    if |requests| == 0 then map[] else Next(After(requests[..|requests| - 1]), requests[|requests| - 1])
  }

  /** How many submissions of r were allowed at times in [lo, hi). */
  function Accepted(requests: seq<Request>, r: RunId, lo: int, hi: int): nat
  {
    if |requests| == 0 then 0
    else
      var front, q := requests[..|requests| - 1], requests[|requests| - 1];
      Accepted(front, r, lo, hi) + if q.runId == r && lo <= q.at < hi && Allowed(After(front), q) then 1 else 0
  }

  /** The clock never goes back. */
  ghost predicate Monotone(requests: seq<Request>)
  {
    forall i, j | 0 <= i < j < |requests| :: requests[i].at <= requests[j].at
  }

  lemma {:induction false} NoneBefore(requests: seq<Request>, r: RunId, lo: int, hi: int)
    requires Monotone(requests) && (|requests| > 0 ==> requests[|requests| - 1].at < lo)
    ensures Accepted(requests, r, lo, hi) == 0
  {
    if |requests| > 0 {
      var front := requests[..|requests| - 1];
      if |front| > 0 { assert front[|front| - 1].at <= requests[|requests| - 1].at; }
      NoneBefore(front, r, lo, hi);
    }
  }

  /** What the open window of r says about the submissions allowed in [t, t + WINDOW). */
  ghost predicate Bounded(buckets: Buckets, r: RunId, t: int, accepted: nat, now: int)
  {
    if r !in buckets then accepted == 0
    else
      var b := buckets[r];
      var start := b.resetAt - WINDOW;
      && 1 <= b.count <= MAX_PER_WINDOW && start <= now
      && (if start < t then accepted <= b.count - 1
          else if start < t + WINDOW then accepted <= MAX_PER_WINDOW - 1 + b.count
          else accepted <= 2 * MAX_PER_WINDOW - 1)
  }

  lemma {:induction false} WindowBound(requests: seq<Request>, r: RunId, t: int)
    requires Monotone(requests)
    ensures Bounded(After(requests), r, t, Accepted(requests, r, t, t + WINDOW),
      if |requests| > 0 then requests[|requests| - 1].at else 0)
      || (|requests| == 0 && Accepted(requests, r, t, t + WINDOW) == 0)
  {
    if |requests| > 0 {
      var front, q := requests[..|requests| - 1], requests[|requests| - 1];
      WindowBound(front, r, t);
      if |front| > 0 { assert front[|front| - 1].at <= q.at; }
      if q.at < t { NoneBefore(front, r, t, t + WINDOW); }
      hide Accepted, After;
      BoundKept(After(front), q, r, t, Accepted(front, r, t, t + WINDOW),
        if |front| > 0 then front[|front| - 1].at else q.at);
      AcceptedLast(requests, r, t, t + WINDOW);
    }
  }

  lemma AcceptedLast(requests: seq<Request>, r: RunId, lo: int, hi: int)
    requires |requests| > 0
    ensures var front, q := requests[..|requests| - 1], requests[|requests| - 1];
      && Accepted(requests, r, lo, hi)
        == Accepted(front, r, lo, hi) + (if q.runId == r && lo <= q.at < hi && Allowed(After(front), q) then 1 else 0)
      && After(requests) == Next(After(front), q)
  {
  }

  lemma BoundKept(buckets: Buckets, q: Request, r: RunId, t: int, accepted: nat, now: int)
    requires Bounded(buckets, r, t, accepted, now) && now <= q.at && (q.at < t ==> accepted == 0)
    ensures Bounded(Next(buckets, q), r, t,
      accepted + (if q.runId == r && t <= q.at < t + WINDOW && Allowed(buckets, q) then 1 else 0), q.at)
  {
  }

  /** At most 59 submissions of a run are allowed in any half-open interval of one window's length,
      wherever it starts and whatever else is submitted. */
  lemma RateBound(requests: seq<Request>, r: RunId, t: int)
    requires Monotone(requests)
    ensures Accepted(requests, r, t, t + 60000) <= 59
  {
    WindowBound(requests, r, t);
  }

  /** The open window of a run counts exactly the submissions allowed in it, and never more than 30. */
  lemma {:induction false} PerWindow(requests: seq<Request>, r: RunId)
    requires Monotone(requests) && r in After(requests)
    ensures var b := After(requests)[r];
      1 <= b.count <= 30 && Accepted(requests, r, b.resetAt - 60000, b.resetAt) == b.count
      && |requests| > 0 && b.resetAt - 60000 <= requests[|requests| - 1].at
  {
    var front, q := requests[..|requests| - 1], requests[|requests| - 1];
    var b := After(requests)[r];
    AcceptedLast(requests, r, b.resetAt - WINDOW, b.resetAt);
    if r in After(front) {
      PerWindow(front, r);
      assert front[|front| - 1].at <= q.at;
      if q.runId == r && q.at >= After(front)[r].resetAt { OldWindow(front, r, q.at); }
    } else {
      NothingYet(front, r, b.resetAt - WINDOW, b.resetAt);
    }
  }

  lemma {:induction false} NothingYet(requests: seq<Request>, r: RunId, lo: int, hi: int)
    requires r !in After(requests)
    ensures Accepted(requests, r, lo, hi) == 0
  {
    if |requests| > 0 { NothingYet(requests[..|requests| - 1], r, lo, hi); }
  }

  /** Whatever was allowed so far was allowed before the open window's end. */
  lemma {:induction false} OldWindow(requests: seq<Request>, r: RunId, lo: int)
    requires Monotone(requests) && r in After(requests) && lo >= After(requests)[r].resetAt
    ensures Accepted(requests, r, lo, lo + WINDOW) == 0
  {
    var front, q := requests[..|requests| - 1], requests[|requests| - 1];
    AcceptedLast(requests, r, lo, lo + WINDOW);
    if r in After(front) {
      if After(front)[r].resetAt <= lo { OldWindow(front, r, lo); }
    } else {
      NothingYet(front, r, lo, lo + WINDOW);
    }
  }

  /** A submission is refused exactly when a window of the run is open and 30 were allowed in it. */
  lemma RefusedExactly(requests: seq<Request>, q: Request)
    requires Monotone(requests + [q])
    ensures !Allowed(After(requests), q) <==>
      q.runId in After(requests)
      && var end := After(requests)[q.runId].resetAt;
         end - 60000 <= q.at < end && Accepted(requests, q.runId, end - 60000, end) == 30
  {
    forall i, j | 0 <= i < j < |requests| ensures requests[i].at <= requests[j].at {
      assert (requests + [q])[i].at <= (requests + [q])[j].at;
    }
    if q.runId in After(requests) {
      hide Accepted, After;
      PerWindow(requests, q.runId);
      assert (requests + [q])[|requests| - 1].at <= (requests + [q])[|requests|].at;
    }
  }

  // ---- The bound is reached ----

  function Burst(r: RunId, at: int, n: nat): (requests: seq<Request>)
    ensures |requests| == n && forall i | 0 <= i < n :: requests[i] == Request(r, at)
  {
    if n == 0 then [] else Burst(r, at, n - 1) + [Request(r, at)]
  }

  /** n submissions at one instant of an open window with room for them are all allowed. */
  lemma {:induction false} BurstAllowed(before: seq<Request>, r: RunId, at: int, n: nat, lo: int, hi: int)
    requires r in After(before) && at < After(before)[r].resetAt && After(before)[r].count + n <= MAX_PER_WINDOW
      && lo <= at < hi
    ensures var all := before + Burst(r, at, n);
      && Accepted(all, r, lo, hi) == Accepted(before, r, lo, hi) + n
      && r in After(all) && After(all)[r] == Bucket(After(before)[r].count + n, After(before)[r].resetAt)
  {
    var all := before + Burst(r, at, n);
    if n == 0 {
      assert all == before;
    } else {
      BurstAllowed(before, r, at, n - 1, lo, hi);
      assert all[..|all| - 1] == before + Burst(r, at, n - 1);
      AcceptedLast(all, r, lo, hi);
    }
  }

  /** One submission that opens a window, 29 just before it closes, 30 when the next one opens: 59
      are allowed within one window's length, so the bound of 59 cannot be improved. */
  lemma RateBoundTight(r: RunId) returns (requests: seq<Request>)
    ensures Monotone(requests)
    ensures Accepted(requests, r, 59999, 119999) == 59
  {
    hide Accepted, After;
    var first := [Request(r, 0)];
    var lo, hi := WINDOW - 1, 2 * WINDOW - 1;
    AcceptedLast(first, r, lo, hi);
    assert first[..0] == [];
    Nothing(r, lo, hi);
    BurstAllowed(first, r, WINDOW - 1, 29, lo, hi);
    var second := first + Burst(r, WINDOW - 1, 29);
    var third := second + [Request(r, WINDOW)];
    assert third[..|second|] == second;
    AcceptedLast(third, r, lo, hi);
    BurstAllowed(third, r, WINDOW, 29, lo, hi);
    requests := third + Burst(r, WINDOW, 29);
  }

  lemma Nothing(r: RunId, lo: int, hi: int)
    ensures Accepted([], r, lo, hi) == 0 && After([]) == map[]
  {
  }

  // ---- Runs do not affect each other ----

  function OfRun(requests: seq<Request>, r: RunId): seq<Request>
  {
    if |requests| == 0 then []
    else
      var q := requests[|requests| - 1];
      OfRun(requests[..|requests| - 1], r) + if q.runId == r then [q] else []
  }

  /** What is allowed for a run is what would be allowed if no other run submitted anything. */
  lemma {:induction false} Independent(requests: seq<Request>, r: RunId, lo: int, hi: int)
    ensures Accepted(requests, r, lo, hi) == Accepted(OfRun(requests, r), r, lo, hi)
    ensures r in After(requests) <==> r in After(OfRun(requests, r))
    ensures r in After(requests) ==> After(requests)[r] == After(OfRun(requests, r))[r]
  {
    if |requests| > 0 {
      var front, q := requests[..|requests| - 1], requests[|requests| - 1];
      Independent(front, r, lo, hi);
      AcceptedLast(requests, r, lo, hi);
      var own := OfRun(requests, r);
      if q.runId == r {
        assert own[..|own| - 1] == OfRun(front, r);
        AcceptedLast(own, r, lo, hi);
      } else {
        assert own == OfRun(front, r);
      }
    }
  }
}
