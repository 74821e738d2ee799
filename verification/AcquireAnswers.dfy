/**
 What an acquisition answers, read off its surroundings: the first reading that is not retried
 decides a turn of the loop, and where the call goes on is told by the chain alone.
 */
module AcquireAnswers {
  import opened Options
  import opened RetryBudget
  import opened Failover
  import opened Acquisition

  /** Readings `first` to `first + k` are transient failures in time, and what comes next is not
      one, or the `spare` retries are used up. */
  ghost predicate DecidesAfter(env: nat -> Reading, first: nat, spare: nat, k: nat) {
    && k <= spare
    && (forall t: nat :: first <= t < first + k ==> env(t).attempt == Transient && !env(t).pastDeadline && !env(t).cancelled)
    && (k == spare || env(first + k).attempt != Transient || env(first + k).pastDeadline || env(first + k).cancelled)
  }

  lemma {:induction false} AttemptsIs(env: nat -> Reading, first: nat, spare: nat, k: nat)
    requires DecidesAfter(env, first, spare, k)
    ensures Attempts(env, first, spare) == k
    decreases k
  {
    if k > 0 {
      assert first + 1 + (k - 1) == first + k;
      AttemptsIs(env, first + 1, spare - 1, k - 1);
    } else {
      assert first + 0 == first;
    }
  }

  /** One record per retried attempt, of this endpoint, stamped when the attempt failed. */
  lemma {:induction false} RetriedAre(env: nat -> Reading, first: nat, n: nat, e: string)
    ensures forall i :: 0 <= i < n ==> Retried(env, first, n, e)[i] == Retry(Some(e), env(first + i).now)
  {
    if n > 0 { RetriedAre(env, first, n - 1, e); }
  }

  /** The reason a chain is exhausted: there never was a backup, none is left, some that is left
      could be built but does not fit, or none could be built. */
  ghost predicate RightReason(ps: seq<Profile>, idx: nat, builds: Profile -> bool, fits: nat -> bool, reason: Exhaustion) {
    match reason
    case NoFailoverConfigured => |ps| == 1
    case AllBackupsExhausted => |ps| > 1 && idx + 1 == |ps|
    case AllCandidatesInfeasible => |ps| > 1 && exists k :: idx < k < |ps| && builds(ps[k]) && !fits(ps[k].window)
    case AllCandidatesUnbuildable => idx + 1 < |ps| && forall k :: idx < k < |ps| ==> !builds(ps[k])
  }

  lemma ReasonIsRight(ps: seq<Profile>, idx: nat, builds: Profile -> bool, fits: nat -> bool)
    requires idx < |ps| && NoTarget(ps, idx, builds, fits)
    ensures RightReason(ps, idx, builds, fits, ReasonFor(ps, idx, builds, fits))
  {
  }

  /** At most one reason is right. */
  lemma OneReason(ps: seq<Profile>, idx: nat, builds: Profile -> bool, fits: nat -> bool, a: Exhaustion, b: Exhaustion)
    requires idx < |ps| && RightReason(ps, idx, builds, fits, a) && RightReason(ps, idx, builds, fits, b)
    ensures a == b
  {
  }

  /** A failover from `s`: cancelled, out of profiles for the right reason, over the token budget
      at the next usable profile, or on its way there. */
  ghost predicate FailsOver(w: World, s: State, r: Reading, horizon: nat, t: State, result: Result)
    requires s.idx < |w.ps| && horizon > 0
  {
    && (r.cancelled ==> (t, result) == (s, Result.Cancelled))
    && (!r.cancelled && NoTarget(w.ps, s.idx, w.builds, w.fits) ==>
          t == s && result.Exhausted? && RightReason(w.ps, s.idx, w.builds, w.fits, result.reason))
    && (forall j :: !r.cancelled && IsTarget(w.ps, s.idx, w.builds, w.fits, j) ==>
          (t, result) == if r.compaction == OverBudget then (s.(idx := j), OverTokenBudget) else Acquire(w, s.(idx := j), horizon - 1))
  }

  lemma FailAnswers(w: World, s: State, r: Reading, horizon: nat)
    requires s.idx < |w.ps| && horizon > 0
    ensures var (t, result) := Fail(w, s, r, horizon); FailsOver(w, s, r, horizon, t, result)
  {
    TargetIsNextUsable(w.ps, s.idx, w.builds, w.fits);
    if NoTarget(w.ps, s.idx, w.builds, w.fits) { ReasonIsRight(w.ps, s.idx, w.builds, w.fits); }
  }

  /** A stream that dropped: failover once the endpoint's budget is spent; until then a cancelled
      wait ends the call, and any other puts one retry on record and tries the profile again. */
  ghost predicate DropAnswered(w: World, e: string, s: State, horizon: nat, t: State, result: Result)
    requires s.idx < |w.ps| && horizon > 0
  {
    var r, waited := w.env(s.tick), s.(tick := s.tick + 1);
    if Count(s.log, e, r.now, w.window) >= w.max then FailsOver(w, waited, r, horizon, t, result)
    else if r.cancelled then (t, result) == (waited, Result.Cancelled)
    else
      var log := Newest(Retain(s.log + [Retry(Some(e), r.now)], Monus(w.env(s.tick + 1).now, w.window)));
      (t, result) == Acquire(w, State(log, s.sent, s.tick + 2, s.idx), horizon - 1)
  }

  lemma DropAnswers(w: World, e: string, s: State, horizon: nat)
    requires s.idx < |w.ps| && horizon > 0
    ensures var (t, result) := Drop(w, e, s, horizon); DropAnswered(w, e, s, horizon, t, result)
  {
    FailAnswers(w, s.(tick := s.tick + 1), w.env(s.tick), horizon);
  }

  /** The deciding reading `r`, after which the call stands at `s`, is answered like this; `spent`
      when no retry was left. */
  ghost predicate Answered(w: World, e: string, s: State, r: Reading, spent: bool, horizon: nat, t: State, result: Result)
    requires s.idx < |w.ps| && s.tick > 0 && horizon > 0
  {
    match r.attempt
    case BadRequest => (t, result) == (s, Fatal)
    case Aborted => (t, result) == (s, Result.Cancelled)
    case EndpointFailure => FailsOver(w, s, w.env(s.tick - 1), horizon, t, result)
    case Transient =>
      if spent || r.pastDeadline then FailsOver(w, s, w.env(s.tick - 1), horizon, t, result)
      else (t, result) == (s, Result.Cancelled)
    case Opened(Completed) => (t, result) == (s, Consumed)
    case Opened(StreamCancelled) => (t, result) == (s, Result.Cancelled)
    case Opened(Dropped) => DropAnswered(w, e, s, horizon, t, result)
  }

  lemma VerdictAnswers(w: World, e: string, s: State, r: Reading, spent: bool, horizon: nat)
    requires s.idx < |w.ps| && s.tick > 0 && horizon > 0
    ensures var (t, result) := Decide(w, e, s, Verdict(r, spent), horizon); Answered(w, e, s, r, spent, horizon, t, result)
  {
    FailAnswers(w, s, w.env(s.tick - 1), horizon);
    DropAnswers(w, e, s, horizon);
  }

  /** The records of `k` retried attempts of this endpoint. */
  ghost predicate RecordsOf(env: nat -> Reading, first: nat, k: nat, e: string, records: seq<Retry>) {
    |records| == k && forall i :: 0 <= i < k ==> records[i] == Retry(Some(e), env(first + i).now)
  }

  lemma RequestComesTo(w: World, s: State, e: string, spare: nat, k: nat, records: seq<Retry>, mid: State)
    requires w.env(s.tick + 1).prepared && DecidesAfter(w.env, s.tick + 1, spare, k)
    requires spare == Monus(w.max, Count(s.log, e, w.env(s.tick).now, w.window)) && RecordsOf(w.env, s.tick + 1, k, e, records)
    requires mid == State(if k == 0 then s.log else Newest(Retain(s.log + records, Monus(w.env(s.tick + k + 2).now, w.window))),
                          s.sent + k + 1, s.tick + k + 3, s.idx)
    ensures SendStep(w, e, s) == (mid, Verdict(w.env(s.tick + 1 + k), k == spare))
  {
    AttemptsIs(w.env, s.tick + 1, spare, k);
    SameRecords(w.env, s.tick + 1, k, e, records);
    Prepared(w, e, s, spare, k, mid, Verdict(w.env(s.tick + k + 1), k == spare));
  }

  lemma SameRecords(env: nat -> Reading, first: nat, k: nat, e: string, records: seq<Retry>)
    requires RecordsOf(env, first, k, e, records)
    ensures Retried(env, first, k, e) == records
  {
    RetriedAre(env, first, k, e);
  }

  /** One turn of the call: with `k` transient attempts in time the request is out `k + 1` times
      at the same profile, those `k` are on record, and reading `k` answers it. */
  lemma FirstReadingDecides(w: World, s: State, horizon: nat, e: string, spare: nat, k: nat, records: seq<Retry>, mid: State)
    requires s.idx < |w.ps| && horizon > 0 && w.env(s.tick + 1).prepared && e == w.ps[s.idx].endpoint
    requires spare == Monus(w.max, Count(s.log, e, w.env(s.tick).now, w.window)) && DecidesAfter(w.env, s.tick + 1, spare, k)
    requires RecordsOf(w.env, s.tick + 1, k, e, records)
    requires mid == State(if k == 0 then s.log else Newest(Retain(s.log + records, Monus(w.env(s.tick + k + 2).now, w.window))),
                          s.sent + k + 1, s.tick + k + 3, s.idx)
    ensures var (t, result) := Acquire(w, s, horizon);
            Answered(w, e, mid, w.env(s.tick + 1 + k), k == spare, horizon, t, result)
  {
    RequestComesTo(w, s, e, spare, k, records, mid);
    RoundComesTo(w, s, horizon, e, mid, Verdict(w.env(s.tick + 1 + k), k == spare));
    VerdictAnswers(w, e, mid, w.env(s.tick + 1 + k), k == spare, horizon);
  }

  lemma RoundComesTo(w: World, s: State, horizon: nat, e: string, mid: State, request: Request)
    requires s.idx < |w.ps| && horizon > 0 && e == w.ps[s.idx].endpoint && SendStep(w, e, s) == (mid, request)
    requires mid.idx == s.idx && mid.tick > 0
    ensures Acquire(w, s, horizon) == Decide(w, e, mid, request, horizon)
  {
    assert Acquire(w, s, horizon) == Round(w, s, horizon);
  }

  /** A request that cannot be prepared is never sent and ends the call. */
  lemma UnpreparedIsFatal(w: World, s: State, horizon: nat)
    requires s.idx < |w.ps| && horizon > 0 && !w.env(s.tick + 1).prepared
    ensures Acquire(w, s, horizon) == (s.(tick := s.tick + 2), Fatal)
  {
    var e, mid := w.ps[s.idx].endpoint, s.(tick := s.tick + 2);
    Unprepared(w, e, s);
    RoundComesTo(w, s, horizon, e, mid, RequestFatal);
    FatalEnds(w, e, mid, horizon);
  }

  lemma FatalEnds(w: World, e: string, mid: State, horizon: nat)
    requires mid.idx < |w.ps| && mid.tick > 0 && horizon > 0
    ensures Decide(w, e, mid, RequestFatal, horizon) == (mid, Fatal)
  {
  }

  /** There is a reading that decides. */
  lemma {:induction false} SomeReadingDecides(env: nat -> Reading, first: nat, spare: nat) returns (k: nat)
    ensures DecidesAfter(env, first, spare, k)
    decreases spare
  {
    k := Attempts(env, first, spare);
    AttemptsStop(env, first, spare);
  }
}
