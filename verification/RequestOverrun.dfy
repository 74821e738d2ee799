/**
 The condition on the chain is exact. Where the log cannot hold what the chain offers between
 two profiles of one endpoint, there are surroundings in which a call sends more than one
 request per profile and one budget per endpoint, however fast the clock goes, as long as the
 window outlasts the readings it takes; where the log cannot hold one budget, there are
 surroundings in which the call does not end.
 */
module RequestOverrun {
  import opened Options
  import opened RetryBudget
  import opened Failover
  import opened Acquisition
  import opened RequestBound

  // ---------------------------------------------------------------- planned surroundings

  function Burst(e: string, at: nat, n: nat): (r: seq<Retry>)
    ensures |r| == n && forall x :: x in r ==> x == Retry(Some(e), at)
  {
    if n == 0 then [] else Burst(e, at, n - 1) + [Retry(Some(e), at)]
  }

  /** A profile either spends what is left of its budget on transient failures or fails over at
      once. */
  function Mode(spend: bool, now: nat): Reading {
    Reading(now, true, if spend then Transient else EndpointFailure, false, false, NothingToCompact)
  }

  /** A plan: the positions that use their budget up. Its own records all carry the time `at`. */
  datatype Site = Site(ps: seq<Profile>, plan: set<nat>, at: nat, window: nat, max: nat)

  /** What position `p` records under a plan after `made`. */
  function Spends(c: Site, made: seq<Retry>, p: nat): (n: nat)
    requires p < |c.ps|
    ensures n <= c.max
  {
    if p in c.plan then Monus(c.max, Count(Newest(made), c.ps[p].endpoint, c.at, c.window)) else 0
  }

  /** All records of a plan from position `p`, after `made`. */
  function Total(c: Site, made: seq<Retry>, p: nat): seq<Retry>
    decreases |c.ps| - p, 1
  {
    if p >= |c.ps| then made else Beyond(c, made, p)
  }

  function Beyond(c: Site, made: seq<Retry>, p: nat): seq<Retry>
    requires p < |c.ps|
    decreases |c.ps| - p, 0
  {
    Total(c, made + Burst(c.ps[p].endpoint, c.at, Spends(c, made, p)), p + 1)
  }

  lemma TotalNext(c: Site, made: seq<Retry>, p: nat, n: nat)
    requires p < |c.ps| && n == Spends(c, made, p)
    ensures Total(c, made, p) == Total(c, made + Burst(c.ps[p].endpoint, c.at, n), p + 1)
  {
    assert Total(c, made, p) == Beyond(c, made, p);
  }

  ghost predicate Ticking(clock: nat -> nat) {
    forall i: nat, j: nat {:trigger clock(i), clock(j)} :: i <= j ==> clock(i) <= clock(j)
  }

  /** Reading `t` of surroundings that reach position `p` at reading `begun` and keep to the plan,
      under any clock. */
  function PlanAt(c: Site, made: seq<Retry>, p: nat, clock: nat -> nat, begun: nat, t: nat): (r: Reading)
    ensures r.now == clock(t)
    decreases |c.ps| - p, 1
  {
    if p >= |c.ps| then Mode(false, clock(t)) else PlanHere(c, made, p, clock, begun, t)
  }

  function PlanHere(c: Site, made: seq<Retry>, p: nat, clock: nat -> nat, begun: nat, t: nat): (r: Reading)
    requires p < |c.ps|
    ensures r.now == clock(t)
    decreases |c.ps| - p, 0
  {
    var n := Spends(c, made, p);
    if t < begun + n + 3 then Mode(p in c.plan, clock(t))
    else PlanAt(c, made + Burst(c.ps[p].endpoint, c.at, n), p + 1, clock, begun + n + 3, t)
  }

  lemma PlanSplits(c: Site, made: seq<Retry>, p: nat, clock: nat -> nat, begun: nat, t: nat, n: nat)
    requires p < |c.ps| && n == Spends(c, made, p)
    ensures PlanAt(c, made, p, clock, begun, t)
            == if t < begun + n + 3 then Mode(p in c.plan, clock(t))
               else PlanAt(c, made + Burst(c.ps[p].endpoint, c.at, n), p + 1, clock, begun + n + 3, t)
  {
    assert PlanAt(c, made, p, clock, begun, t) == PlanHere(c, made, p, clock, begun, t);
  }

  ghost predicate Follows(w: World, c: Site, made: seq<Retry>, s: State, clock: nat -> nat) {
    && c == Site(w.ps, c.plan, c.at, w.window, w.max)
    && forall t: nat {:trigger w.env(t)} :: t >= s.tick ==> w.env(t) == PlanAt(c, made, s.idx, clock, s.tick, t)
  }

  ghost predicate AllUsable(w: World) {
    forall i :: 0 <= i < |w.ps| ==> Usable(w.builds, w.fits, w.ps[i])
  }

  lemma {:induction false} AttemptsAll(env: nat -> Reading, first: nat, spare: nat)
    requires forall t :: first <= t < first + spare ==> Retries(env(t))
    ensures Attempts(env, first, spare) == spare
    decreases spare
  {
    if spare > 0 { AttemptsAll(env, first + 1, spare - 1); }
  }

  /** In a steady mode a request records exactly what the plan says and fails over. */
  lemma PlannedSend(w: World, s: State, e: string, spend: bool, clock: nat -> nat, n: nat)
    requires n == if spend then Spare(w, s.log, e, clock(s.tick)) else 0
    requires forall t: nat :: s.tick <= t < s.tick + n + 3 ==> w.env(t) == Mode(spend, clock(t))
    ensures SendStep(w, e, s)
            == (State(After(s.log, Retried(w.env, s.tick + 1, n, e), clock(s.tick + n + 2), w.window), s.sent + n + 1, s.tick + n + 3, s.idx),
                RequestFailover)
  {
    assert w.env(s.tick) == Mode(spend, clock(s.tick)) && w.env(s.tick + 1) == Mode(spend, clock(s.tick + 1));
    assert w.env(s.tick + n + 1) == Mode(spend, clock(s.tick + n + 1)) && w.env(s.tick + n + 2) == Mode(spend, clock(s.tick + n + 2));
    if spend { AttemptsAll(w.env, s.tick + 1, n); }
  }

  /** A failed request moves on to the next profile, or ends the call at the last one. */
  lemma PlannedFail(w: World, s: State, e: string, next: State, horizon: nat)
    requires s.idx < |w.ps| && e == w.ps[s.idx].endpoint && SendStep(w, e, s) == (next, RequestFailover) && next.idx == s.idx
    requires next.tick > 0 && !w.env(next.tick - 1).cancelled && w.env(next.tick - 1).compaction != OverBudget
    requires AllUsable(w) && horizon > 0
    ensures if s.idx + 1 < |w.ps| then Acquire(w, s, horizon) == Acquire(w, next.(idx := s.idx + 1), horizon - 1)
            else Acquire(w, s, horizon) == (next, Exhausted(ReasonFor(w.ps, s.idx, w.builds, w.fits)))
  {
    assert Acquire(w, s, horizon) == Round(w, s, horizon) == Decide(w, e, next, RequestFailover, horizon);
    assert Decide(w, e, next, RequestFailover, horizon) == Fail(w, next, w.env(next.tick - 1), horizon);
  }

  // ---------------------------------------------------------------- logged and planned records

  /** The same endpoints in the same order; those of `logged` recorded since `start`, those of
      `made` all at `at`. */
  predicate Alike(logged: seq<Retry>, made: seq<Retry>, start: nat, at: nat) {
    && |logged| == |made|
    && (logged == [] ||
        (logged[0].endpoint == made[0].endpoint && logged[0].at >= start && made[0].at == at && Alike(logged[1..], made[1..], start, at)))
  }

  lemma {:induction false} AlikeOf(logged: seq<Retry>, made: seq<Retry>, start: nat, at: nat, e: string)
    requires Alike(logged, made, start, at)
    ensures Of(logged, e) == Of(made, e)
    ensures (forall r :: r in logged ==> r.at >= start) && forall r :: r in made ==> r.at == at
  {
    if logged != [] { AlikeOf(logged[1..], made[1..], start, at, e); }
  }

  lemma {:induction false} AlikeDrop(logged: seq<Retry>, made: seq<Retry>, start: nat, at: nat, k: nat)
    requires Alike(logged, made, start, at) && k <= |logged|
    ensures Alike(logged[k..], made[k..], start, at)
  {
    if k == 0 {
      assert logged[0..] == logged && made[0..] == made;
    } else {
      AlikeDrop(logged[1..], made[1..], start, at, k - 1);
      assert logged[1..][k - 1..] == logged[k..] && made[1..][k - 1..] == made[k..];
    }
  }

  lemma AlikeNewest(logged: seq<Retry>, made: seq<Retry>, start: nat, at: nat)
    requires Alike(logged, made, start, at)
    ensures Alike(Newest(logged), Newest(made), start, at)
  {
    if |logged| > RETRY_LOG_KEEP { AlikeDrop(logged, made, start, at, |logged| - RETRY_LOG_KEEP); }
  }

  /** While the window lasts, the log counts what the plan counts. */
  lemma AlikeCount(logged: seq<Retry>, made: seq<Retry>, e: string, now: nat, window: nat, start: nat, at: nat)
    requires Alike(logged, made, start, at) && start <= now < start + window
    ensures Count(Newest(logged), e, now, window) == Count(Newest(made), e, at, window)
  {
    AlikeNewest(logged, made, start, at);
    AlikeOf(Newest(logged), Newest(made), start, at, e);
    OfIsCount(Newest(logged), e, now, window);
    OfIsCount(Newest(made), e, at, window);
  }

  lemma {:induction false} AlikeMore(logged: seq<Retry>, made: seq<Retry>, add: seq<Retry>, more: seq<Retry>, start: nat, at: nat)
    requires Alike(logged, made, start, at) && Alike(add, more, start, at)
    ensures Alike(logged + add, made + more, start, at)
  {
    if logged == [] {
      assert logged + add == add && made + more == more;
    } else {
      AlikeMore(logged[1..], made[1..], add, more, start, at);
      assert (logged + add)[1..] == logged[1..] + add && (made + more)[1..] == made[1..] + more;
    }
  }

  lemma NewestAfter(logged: seq<Retry>, made: seq<Retry>, add: seq<Retry>, more: seq<Retry>, now: nat, window: nat, start: nat, at: nat)
    requires Alike(logged, made, start, at) && Alike(add, more, start, at) && now < start + window
    ensures After(Newest(logged), add, now, window) == Newest(logged + add)
  {
    if add == [] {
      assert logged + add == logged;
    } else {
      AlikeNewest(logged, made, start, at);
      AlikeOf(Newest(logged), Newest(made), start, at, "");
      AlikeOf(add, more, start, at, "");
      RetainAll(Newest(logged) + add, Monus(now, window));
      NewestAgain(logged, add);
    }
  }

  lemma {:induction false} RetriedLike(env: nat -> Reading, first: nat, n: nat, e: string, start: nat, at: nat)
    requires forall t: nat {:trigger env(t)} :: first <= t < first + n ==> env(t).now >= start
    ensures Alike(Retried(env, first, n, e), Burst(e, at, n), start, at)
  {
    if n > 0 {
      RetriedLike(env, first, n - 1, e, start, at);
      var a, b := Retry(Some(e), env(first + n - 1).now), Retry(Some(e), at);
      assert [a][1..] == [] && [b][1..] == [];
      AlikeMore(Retried(env, first, n - 1, e), Burst(e, at, n - 1), [a], [b], start, at);
    }
  }

  /** The log is the newest of `logged`, which is like the plan's `made`. */
  ghost predicate LogLike(log: seq<Retry>, logged: seq<Retry>, made: seq<Retry>, start: nat, at: nat) {
    log == Newest(logged) && Alike(logged, made, start, at)
  }

  /** From reading `first` to reading `last` nothing recorded since `start` expires. */
  ghost predicate InTime(clock: nat -> nat, first: nat, last: nat, start: nat, window: nat) {
    forall t: nat {:trigger clock(t)} :: first <= t <= last ==> start <= clock(t) < start + window
  }

  /** A planned run half way, with time up to reading `last`. */
  ghost predicate Under(w: World, c: Site, made: seq<Retry>, logged: seq<Retry>, s: State, clock: nat -> nat, start: nat, last: nat) {
    && s.idx < |w.ps| && AllUsable(w) && Follows(w, c, made, s, clock)
    && LogLike(s.log, logged, made, start, c.at) && InTime(clock, s.tick, last, start, w.window)
    && s.tick + Times(|w.ps| - s.idx, w.max + 3) <= last
  }

  /** The state after position `s.idx` has had its request. */
  function Passed(w: World, s: State, n: nat, clock: nat -> nat): State
    requires s.idx < |w.ps|
  {
    State(After(s.log, Retried(w.env, s.tick + 1, n, w.ps[s.idx].endpoint), clock(s.tick + n + 2), w.window),
          s.sent + n + 1, s.tick + n + 3, s.idx)
  }

  lemma PlannedModes(w: World, c: Site, made: seq<Retry>, s: State, clock: nat -> nat, n: nat)
    requires s.idx < |w.ps| && Follows(w, c, made, s, clock) && n == Spends(c, made, s.idx)
    ensures forall t: nat :: s.tick <= t < s.tick + n + 3 ==> w.env(t) == Mode(s.idx in c.plan, clock(t))
  {
    forall t: nat | s.tick <= t < s.tick + n + 3 ensures w.env(t) == Mode(s.idx in c.plan, clock(t)) {
      PlanSplits(c, made, s.idx, clock, s.tick, t, n);
    }
  }

  lemma PlannedSpare(w: World, c: Site, made: seq<Retry>, logged: seq<Retry>, s: State, clock: nat -> nat, start: nat, last: nat)
    requires Under(w, c, made, logged, s, clock, start, last) && s.idx in c.plan
    ensures Spare(w, s.log, w.ps[s.idx].endpoint, clock(s.tick)) == Spends(c, made, s.idx)
  {
    AlikeCount(logged, made, w.ps[s.idx].endpoint, clock(s.tick), w.window, start, c.at);
  }

  /** One turn of a planned run. */
  lemma PlannedTurn(w: World, c: Site, made: seq<Retry>, logged: seq<Retry>, s: State, clock: nat -> nat, start: nat, last: nat,
                    n: nat, e: string, next: State)
    requires Under(w, c, made, logged, s, clock, start, last) && n == Spends(c, made, s.idx) && e == w.ps[s.idx].endpoint
    requires next == Passed(w, s, n, clock)
    ensures SendStep(w, e, s) == (next, RequestFailover)
    ensures !w.env(next.tick - 1).cancelled && w.env(next.tick - 1).compaction != OverBudget
  {
    if s.idx in c.plan { PlannedSpare(w, c, made, logged, s, clock, start, last); }
    PlannedModes(w, c, made, s, clock, n);
    PlannedSend(w, s, e, s.idx in c.plan, clock, n);
    assert w.env(next.tick - 1) == Mode(s.idx in c.plan, clock(next.tick - 1));
  }

  lemma FollowsNext(w: World, c: Site, made: seq<Retry>, s: State, clock: nat -> nat, n: nat, next: State, more: seq<Retry>)
    requires s.idx < |w.ps| && Follows(w, c, made, s, clock) && n == Spends(c, made, s.idx)
    requires next.idx == s.idx + 1 && next.tick == s.tick + n + 3
    requires more == made + Burst(c.ps[s.idx].endpoint, c.at, n)
    ensures Follows(w, c, more, next, clock)
  {
    forall t: nat | t >= next.tick ensures w.env(t) == PlanAt(c, more, next.idx, clock, next.tick, t) {
      PlanSplits(c, made, s.idx, clock, s.tick, t, n);
    }
  }

  /** The records of one position, logged and planned. */
  lemma LogLikeNext(log: seq<Retry>, logged: seq<Retry>, made: seq<Retry>, start: nat, at: nat, env: nat -> Reading, first: nat,
                    n: nat, e: string, now: nat, window: nat, add: seq<Retry>, more: seq<Retry>)
    requires LogLike(log, logged, made, start, at) && start <= now < start + window
    requires forall t: nat {:trigger env(t)} :: first <= t < first + n ==> env(t).now >= start
    requires add == Retried(env, first, n, e) && more == Burst(e, at, n)
    ensures LogLike(After(log, add, now, window), logged + add, made + more, start, at)
  {
    RetriedLike(env, first, n, e, start, at);
    AlikeMore(logged, made, add, more, start, at);
    NewestAfter(logged, made, add, more, now, window, start, at);
  }

  lemma NextLog(w: World, c: Site, made: seq<Retry>, logged: seq<Retry>, s: State, clock: nat -> nat, start: nat, last: nat, n: nat,
                e: string, more: seq<Retry>, logged1: seq<Retry>, log1: seq<Retry>)
    requires Under(w, c, made, logged, s, clock, start, last) && s.tick + n + 3 <= last && more == made + Burst(e, c.at, n)
    requires logged1 == logged + Retried(w.env, s.tick + 1, n, e)
    requires log1 == After(s.log, Retried(w.env, s.tick + 1, n, e), clock(s.tick + n + 2), w.window)
    ensures LogLike(log1, logged1, more, start, c.at)
  {
    forall t: nat | s.tick + 1 <= t < s.tick + 1 + n ensures w.env(t).now >= start { assert w.env(t).now == clock(t); }
    LogLikeNext(s.log, logged, made, start, c.at, w.env, s.tick + 1, n, e, clock(s.tick + n + 2), w.window,
                Retried(w.env, s.tick + 1, n, e), Burst(e, c.at, n));
  }

  lemma TimesStep(left: nat, max: nat, tick: nat, n: nat, last: nat)
    requires left > 0 && n <= max && tick + Times(left, max + 3) <= last
    ensures tick + n + 3 <= last && tick + n + 3 + Times(left - 1, max + 3) <= last
  {
  }

  lemma UnderNext(w: World, c: Site, made: seq<Retry>, logged: seq<Retry>, s: State, clock: nat -> nat, start: nat, last: nat,
                  more: seq<Retry>, logged1: seq<Retry>, next: State)
    requires Under(w, c, made, logged, s, clock, start, last) && s.idx + 1 < |w.ps| && next.idx == s.idx + 1 && s.tick <= next.tick
    requires Follows(w, c, more, next, clock) && LogLike(next.log, logged1, more, start, c.at)
    requires next.tick + Times(|w.ps| - s.idx - 1, w.max + 3) <= last
    ensures Under(w, c, more, logged1, next, clock, start, last)
  {
  }

  /** One position of a planned run: the run goes on from `next`, or ends there. */
  lemma PlannedStep(w: World, c: Site, made: seq<Retry>, logged: seq<Retry>, s: State, clock: nat -> nat, start: nat, last: nat, horizon: nat)
    returns (next: State, more: seq<Retry>, logged1: seq<Retry>)
    requires Under(w, c, made, logged, s, clock, start, last) && horizon > 0
    ensures Total(c, made, s.idx) == Total(c, more, s.idx + 1) && |more| >= |made|
    ensures next.sent == s.sent + |more| - |made| + 1 && s.tick < next.tick <= last
    ensures if s.idx + 1 < |w.ps|
            then next.idx == s.idx + 1 && Under(w, c, more, logged1, next, clock, start, last)
                 && Acquire(w, s, horizon) == Acquire(w, next, horizon - 1)
            else Acquire(w, s, horizon).0 == next
  {
    var e, n := w.ps[s.idx].endpoint, Spends(c, made, s.idx);
    next, more, logged1 := Passed(w, s, n, clock), made + Burst(e, c.at, n), [];
    TotalNext(c, made, s.idx, n);
    StepRuns(w, c, made, logged, s, clock, start, last, n, e, next, horizon);
    if s.idx + 1 < |w.ps| {
      next := next.(idx := s.idx + 1);
      logged1 := logged + Retried(w.env, s.tick + 1, n, e);
      StepUnder(w, c, made, logged, s, clock, start, last, n, e, more, logged1, next);
    }
  }

  lemma StepRuns(w: World, c: Site, made: seq<Retry>, logged: seq<Retry>, s: State, clock: nat -> nat, start: nat, last: nat,
                 n: nat, e: string, next: State, horizon: nat)
    requires Under(w, c, made, logged, s, clock, start, last) && n == Spends(c, made, s.idx) && e == w.ps[s.idx].endpoint
    requires next == Passed(w, s, n, clock) && horizon > 0
    ensures next.tick <= last
    ensures if s.idx + 1 < |w.ps| then Acquire(w, s, horizon) == Acquire(w, next.(idx := s.idx + 1), horizon - 1)
            else Acquire(w, s, horizon).0 == next
  {
    TimesStep(|w.ps| - s.idx, w.max, s.tick, n, last);
    PlannedTurn(w, c, made, logged, s, clock, start, last, n, e, next);
    PlannedFail(w, s, e, next, horizon);
  }

  lemma StepUnder(w: World, c: Site, made: seq<Retry>, logged: seq<Retry>, s: State, clock: nat -> nat, start: nat, last: nat,
                  n: nat, e: string, more: seq<Retry>, logged1: seq<Retry>, next: State)
    requires Under(w, c, made, logged, s, clock, start, last) && n == Spends(c, made, s.idx) && e == w.ps[s.idx].endpoint
    requires s.idx + 1 < |w.ps| && next == Passed(w, s, n, clock).(idx := s.idx + 1)
    requires more == made + Burst(e, c.at, n) && logged1 == logged + Retried(w.env, s.tick + 1, n, e)
    ensures Under(w, c, more, logged1, next, clock, start, last)
  {
    TimesStep(|w.ps| - s.idx, w.max, s.tick, n, last);
    NextLog(w, c, made, logged, s, clock, start, last, n, e, more, logged1, next.log);
    FollowsNext(w, c, made, s, clock, n, next, more);
    UnderNext(w, c, made, logged, s, clock, start, last, more, logged1, next);
  }

  /** A planned run visits every profile left, with one request more than it records at each. */
  lemma {:induction false} PlannedRun(w: World, c: Site, made: seq<Retry>, logged: seq<Retry>, s: State, clock: nat -> nat, start: nat,
                                      last: nat, horizon: nat, t: State, left: nat)
    requires Under(w, c, made, logged, s, clock, start, last) && left == |w.ps| - s.idx <= horizon && t == Acquire(w, s, horizon).0
    ensures t.sent - s.sent == |Total(c, made, s.idx)| - |made| + left && s.tick < t.tick <= last
    decreases left
  {
    var next, more, logged1 := PlannedStep(w, c, made, logged, s, clock, start, last, horizon);
    if left > 1 {
      PlannedRun(w, c, more, logged1, next, clock, start, last, horizon - 1, t, left - 1);
    } else {
      assert Total(c, more, s.idx + 1) == more;
    }
  }

  // ---------------------------------------------------------------- spending one budget twice

  lemma EndpointsGrow(ps: seq<Profile>, a: nat, p: nat)
    requires a <= p < |ps|
    ensures Endpoints(ps[a..p + 1]) == Endpoints(ps[a..p]) + {ps[p].endpoint}
  {
    assert ps[a..p + 1] == ps[a..p] + [ps[p]];
  }

  lemma EndpointsJoin(ps: seq<Profile>, a: nat, b: nat, c: nat)
    requires a <= b <= c <= |ps|
    ensures Endpoints(ps[a..c]) == Endpoints(ps[a..b]) + Endpoints(ps[b..c])
  {
    assert ps[a..c] == ps[a..b] + ps[b..c];
  }

  /** Exactly the endpoints in `spent` have records, all made at `at`. */
  ghost predicate Spent(made: seq<Retry>, spent: set<string>, at: nat) {
    && (forall r :: r in made ==> r.at == at)
    && forall e {:trigger Of(made, e)} :: e !in spent ==> Of(made, e) == 0
  }

  /** An endpoint without records has its whole budget. */
  lemma Unspent(made: seq<Retry>, spent: set<string>, e: string, at: nat, window: nat)
    requires Spent(made, spent, at) && e !in spent && window > 0
    ensures Count(Newest(made), e, at, window) == 0
  {
    CountNewest(made, e, at, window);
    OfIsCount(made, e, at, window);
  }

  lemma SpentMore(made: seq<Retry>, spent: set<string>, e: string, at: nat, n: nat)
    requires Spent(made, spent, at)
    ensures Spent(made + Burst(e, at, n), spent + {e}, at)
  {
    forall x | x !in spent + {e} ensures Of(made + Burst(e, at, n), x) == 0 {
      OfConcat(made, Burst(e, at, n), x);
      OfUniform(Burst(e, at, n), e, x);
      assert Of(made, x) == 0;
    }
  }

  /** From `p` to `q` the plan spends exactly on endpoints that are not closed and not yet
      passed. */
  ghost predicate OnNew(ps: seq<Profile>, plan: set<nat>, closed: set<string>, p: nat, q: nat) {
    && p <= q <= |ps|
    && forall k {:trigger k in plan} :: p <= k < q ==> (k in plan <==> ps[k].endpoint !in closed + Endpoints(ps[p..k]))
  }

  lemma OnNewNext(ps: seq<Profile>, plan: set<nat>, closed: set<string>, p: nat, q: nat)
    requires OnNew(ps, plan, closed, p, q) && p < q
    ensures p in plan <==> ps[p].endpoint !in closed
    ensures OnNew(ps, plan, closed + {ps[p].endpoint}, p + 1, q)
  {
    assert ps[p..p] == [];
    forall k | p + 1 <= k < q
      ensures closed + Endpoints(ps[p..k]) == closed + {ps[p].endpoint} + Endpoints(ps[p + 1..k])
    {
      EndpointsJoin(ps, p, p + 1, k);
      assert ps[p..p + 1] == [ps[p]];
    }
  }

  /** The plan's records over a leg of the chain. */
  ghost predicate Leg(made: seq<Retry>, next: seq<Retry>, closed: set<string>, closed': set<string>, max: nat) {
    && made <= next && |next| - Times(|closed'|, max) == |made| - Times(|closed|, max)
    && forall x {:trigger Of(next, x)} :: x in closed ==> Of(next, x) == Of(made, x)
  }

  lemma LegStep(made: seq<Retry>, e: string, at: nat, closed: set<string>, max: nat)
    requires e !in closed
    ensures Leg(made, made + Burst(e, at, max), closed, closed + {e}, max)
  {
    forall x | x in closed ensures Of(made + Burst(e, at, max), x) == Of(made, x) {
      OfConcat(made, Burst(e, at, max), x);
      OfUniform(Burst(e, at, max), e, x);
    }
  }

  lemma LegThen(a: seq<Retry>, b: seq<Retry>, c: seq<Retry>, closed: set<string>, mid: set<string>, end: set<string>, max: nat)
    requires Leg(a, b, closed, mid, max) && Leg(b, c, mid, end, max) && closed <= mid
    ensures Leg(a, c, closed, end, max)
  {
    forall x | x in closed ensures Of(c, x) == Of(a, x) { assert Of(b, x) == Of(a, x); }
  }

  lemma PlanStep(c: Site, made: seq<Retry>, p: nat, closed: set<string>, skip: set<string>) returns (next: seq<Retry>)
    requires p < |c.ps| && c.window > 0 && skip <= closed && Spent(made, closed - skip, c.at)
    requires p in c.plan <==> c.ps[p].endpoint !in closed
    ensures Total(c, made, p) == Total(c, next, p + 1)
    ensures next == if p in c.plan then made + Burst(c.ps[p].endpoint, c.at, c.max) else made
    ensures Leg(made, next, closed, closed + {c.ps[p].endpoint}, c.max)
    ensures Spent(next, closed + {c.ps[p].endpoint} - skip, c.at)
  {
    var e := c.ps[p].endpoint;
    if p in c.plan {
      Unspent(made, closed - skip, e, c.at, c.window);
      next := made + Burst(e, c.at, c.max);
      TotalNext(c, made, p, c.max);
      SpentMore(made, closed - skip, e, c.at, c.max);
      LegStep(made, e, c.at, closed, c.max);
      assert closed + {e} - skip == (closed - skip) + {e};
    } else {
      next := made;
      TotalNext(c, made, p, 0);
      assert made + [] == made;
      assert closed + {e} == closed;
    }
  }

  lemma ClosedNext(ps: seq<Profile>, p: nat, q: nat, closed: set<string>)
    requires p < q <= |ps|
    ensures closed + Endpoints(ps[p..q]) == closed + {ps[p].endpoint} + Endpoints(ps[p + 1..q])
  {
    EndpointsJoin(ps, p, p + 1, q);
    assert ps[p..p + 1] == [ps[p]];
  }

  /** A leg spends one budget for every endpoint it is the first to pass. */
  lemma {:induction false} PlanLeg(c: Site, made: seq<Retry>, p: nat, q: nat, closed: set<string>, skip: set<string>,
                                   end: set<string>, all: seq<Retry>)
    returns (next: seq<Retry>)
    requires c.window > 0 && skip <= closed && Spent(made, closed - skip, c.at) && OnNew(c.ps, c.plan, closed, p, q)
    requires end == closed + Endpoints(c.ps[p..q]) && all == Total(c, made, p)
    ensures all == Total(c, next, q) && Leg(made, next, closed, end, c.max) && Spent(next, end - skip, c.at)
    decreases q - p
  {
    if p == q {
      next := made;
      assert c.ps[p..q] == [] && end == closed;
    } else {
      var closed1 := closed + {c.ps[p].endpoint};
      OnNewNext(c.ps, c.plan, closed, p, q);
      var mid := PlanStep(c, made, p, closed, skip);
      ClosedNext(c.ps, p, q, closed);
      next := PlanLeg(c, mid, p + 1, q, closed1, skip, end, all);
      LegThen(made, mid, next, closed, closed1, end, c.max);
    }
  }

  // ---------------------------------------------------------------- the overrun

  /** Each endpoint of the stretch `i..j` spends at its first position there, every other one at
      its first position in the chain, and position `j` spends again. */
  predicate SpendsAt(ps: seq<Profile>, from: nat, i: nat, j: nat, p: nat)
    requires from <= i < j < |ps| && from <= p < |ps|
  {
    if p == j then true
    else if i <= p < j then ps[p].endpoint !in Endpoints(ps[i..p])
    else ps[p].endpoint !in Endpoints(ps[i..j]) && ps[p].endpoint !in Endpoints(ps[from..p])
  }

  ghost predicate Twice(c: Site, from: nat, i: nat, j: nat) {
    && from <= i < j < |c.ps| && c.ps[i].endpoint == c.ps[j].endpoint && c.window > 0 && c.max > 0
    && forall p {:trigger p in c.plan} :: from <= p < |c.ps| ==> (p in c.plan <==> SpendsAt(c.ps, from, i, j, p))
  }

  lemma {:induction false} TimesAdd(m: nat, n: nat, max: nat)
    ensures Times(m + n, max) == Times(m, max) + Times(n, max)
  {
    if n > 0 {
      TimesAdd(m, n - 1, max);
      assert m + n - 1 == m + (n - 1);
    }
  }

  lemma StretchIn(ps: seq<Profile>, i: nat, j: nat, k: nat)
    requires i <= k < j <= |ps|
    ensures ps[k].endpoint in Endpoints(ps[i..j])
  {
    assert ps[i..j][k - i] == ps[k];
  }

  lemma TimesSum(m: nat, n: nat, all: nat, max: nat)
    requires all == m + n
    ensures Times(all, max) == Times(m, max) + Times(n, max)
  {
    TimesAdd(m, n, max);
  }

  lemma UnionSize(a: set<string>, b: set<string>, all: set<string>)
    requires a !! b && all == a + b
    ensures |all| == |a| + |b|
  {
  }

  lemma BeforeIsNew(c: Site, from: nat, i: nat, j: nat)
    requires Twice(c, from, i, j)
    ensures OnNew(c.ps, c.plan, Endpoints(c.ps[i..j]), from, i)
  {
  }

  /** Before the stretch: one budget for every endpoint the stretch does not have. */
  lemma BeforeStretch(c: Site, from: nat, i: nat, stretch: set<string>, before: set<string>, all: seq<Retry>)
    returns (made: seq<Retry>)
    requires from <= i <= |c.ps| && c.window > 0 && OnNew(c.ps, c.plan, stretch, from, i)
    requires before == Endpoints(c.ps[from..i]) - stretch && all == Total(c, [], from)
    ensures all == Total(c, made, i) && Spent(made, before, c.at) && |made| == Times(|before|, c.max)
  {
    var end := stretch + Endpoints(c.ps[from..i]);
    assert stretch - stretch == {} && end - stretch == before;
    made := PlanLeg(c, [], from, i, stretch, stretch, end, all);
    UnionSize(before, stretch, end);
    TimesSum(|before|, |stretch|, |end|, c.max);
  }

  lemma StretchIsNew(c: Site, from: nat, i: nat, j: nat, before: set<string>)
    requires Twice(c, from, i, j) && before !! Endpoints(c.ps[i..j])
    ensures i in c.plan && c.ps[i].endpoint !in before
    ensures OnNew(c.ps, c.plan, before + {c.ps[i].endpoint}, i + 1, j)
  {
    StretchIn(c.ps, i, j, i);
    assert c.ps[i..i] == [];
    forall k | i + 1 <= k < j
      ensures k in c.plan <==> c.ps[k].endpoint !in before + {c.ps[i].endpoint} + Endpoints(c.ps[i + 1..k])
    {
      StretchIn(c.ps, i, j, k);
      ClosedNext(c.ps, i, k, {});
    }
  }

  /** Through the stretch: one budget for each of its endpoints, the shared one's first. */
  lemma ThroughStretch(c: Site, from: nat, i: nat, j: nat, pre: seq<Retry>, before: set<string>, end: set<string>)
    returns (made: seq<Retry>)
    requires Twice(c, from, i, j) && before !! Endpoints(c.ps[i..j]) && end == before + Endpoints(c.ps[i..j])
    requires Spent(pre, before, c.at) && |pre| == Times(|before|, c.max)
    ensures Total(c, pre, i) == Total(c, made, j) && Spent(made, end, c.at) && |made| == Times(|end|, c.max)
    ensures pre <= made && |pre| < |made| && made[|pre|].endpoint == Some(c.ps[i].endpoint)
    ensures Of(made, c.ps[i].endpoint) == c.max
  {
    var e := c.ps[i].endpoint;
    StretchIsNew(c, from, i, j, before);
    var mid := PlanStep(c, pre, i, before, {});
    ClosedNext(c.ps, i, j, before);
    made := PlanLeg(c, mid, i + 1, j, before + {e}, {}, end, Total(c, mid, i + 1));
    assert Burst(e, c.at, c.max)[0] in Burst(e, c.at, c.max);
    assert made[|pre|] == mid[|pre|] == Burst(e, c.at, c.max)[0];
    OfConcat(pre, Burst(e, c.at, c.max), e);
    OfUniform(Burst(e, c.at, c.max), e, e);
    assert Of(made, e) == Of(mid, e);
  }

  lemma PassedEndpoints(ps: seq<Profile>, from: nat, i: nat, j: nat, k: nat)
    requires from <= i < j < k <= |ps| && ps[i].endpoint == ps[j].endpoint
    ensures Endpoints(ps[from..k]) == Endpoints(ps[from..j]) + Endpoints(ps[j + 1..k])
    ensures Endpoints(ps[i..j]) <= Endpoints(ps[from..j]) && ps[j].endpoint in Endpoints(ps[from..j])
  {
    StretchIn(ps, from, j, i);
    EndpointsJoin(ps, from, i, j);
    EndpointsGrow(ps, from, j);
    JoinAt(ps, from, j + 1, k, Endpoints(ps[from..j]), ps[j].endpoint);
  }

  lemma JoinAt(ps: seq<Profile>, from: nat, m: nat, k: nat, spent: set<string>, e: string)
    requires from <= m <= k <= |ps| && Endpoints(ps[from..m]) == spent + {e} && e in spent
    ensures Endpoints(ps[from..k]) == spent + Endpoints(ps[m..k])
  {
    EndpointsJoin(ps, from, m, k);
  }

  lemma RestIsNew(c: Site, from: nat, i: nat, j: nat, spent: set<string>)
    requires Twice(c, from, i, j) && spent == Endpoints(c.ps[from..j])
    ensures OnNew(c.ps, c.plan, spent, j + 1, |c.ps|)
  {
    forall k | j + 1 <= k < |c.ps| ensures k in c.plan <==> c.ps[k].endpoint !in spent + Endpoints(c.ps[j + 1..k]) {
      PassedEndpoints(c.ps, from, i, j, k);
    }
  }

  lemma BackStep(c: Site, made: seq<Retry>, j: nat, n: nat, spent: set<string>)
    requires j < |c.ps| && j in c.plan && Spent(made, spent, c.at) && c.ps[j].endpoint in spent
    requires n == Monus(c.max, Count(Newest(made), c.ps[j].endpoint, c.at, c.window))
    ensures Total(c, made, j) == Total(c, made + Burst(c.ps[j].endpoint, c.at, n), j + 1)
    ensures Spent(made + Burst(c.ps[j].endpoint, c.at, n), spent, c.at)
  {
    TotalNext(c, made, j, n);
    SpentMore(made, spent, c.ps[j].endpoint, c.at, n);
    assert spent + {c.ps[j].endpoint} == spent;
  }

  lemma RestOfChain(c: Site, made: seq<Retry>, p: nat, spent: set<string>, end: set<string>, all: seq<Retry>)
    requires p <= |c.ps| && c.window > 0 && OnNew(c.ps, c.plan, spent, p, |c.ps|) && Spent(made, spent, c.at)
    requires end == spent + Endpoints(c.ps[p..|c.ps|]) && all == Total(c, made, p) && |made| > Times(|spent|, c.max)
    ensures |all| > Times(|end|, c.max)
  {
    assert spent - {} == spent;
    var final := PlanLeg(c, made, p, |c.ps|, spent, {}, end, all);
  }

  /** Back at the endpoint: part of its budget is there again, and the rest of the chain spends
      one budget for every endpoint it is the first to pass. */
  lemma BackAgain(c: Site, from: nat, i: nat, j: nat, made: seq<Retry>, spent: set<string>, all: seq<Retry>)
    requires Twice(c, from, i, j) && spent == Endpoints(c.ps[from..j]) && all == Total(c, made, j)
    requires Spent(made, spent, c.at) && |made| == Times(|spent|, c.max)
    requires Count(Newest(made), c.ps[j].endpoint, c.at, c.window) < c.max
    ensures |all| > Times(|Endpoints(c.ps[from..])|, c.max)
  {
    var n := Monus(c.max, Count(Newest(made), c.ps[j].endpoint, c.at, c.window));
    RestIsNew(c, from, i, j, spent);
    PassedEndpoints(c.ps, from, i, j, |c.ps|);
    assert c.ps[from..|c.ps|] == c.ps[from..];
    BackStep(c, made, j, n, spent);
    RestOfChain(c, made + Burst(c.ps[j].endpoint, c.at, n), j + 1, spent, Endpoints(c.ps[from..]), all);
  }

  lemma GoneFromLog(c: Site, pre: seq<Retry>, made: seq<Retry>, e: string)
    requires pre <= made && |made| - |pre| > RETRY_LOG_KEEP && made[|pre|].endpoint == Some(e) && Of(made, e) <= c.max
    requires c.window > 0 && forall r :: r in made ==> r.at == c.at
    ensures Count(Newest(made), e, c.at, c.window) < c.max
  {
    var since := made[|pre|..];
    assert made == pre + since;
    SpendsAgain(c, pre, since, e);
  }

  lemma FromStretch(c: Site, from: nat, i: nat, j: nat, pre: seq<Retry>, before: set<string>, spent: set<string>, all: seq<Retry>)
    requires Twice(c, from, i, j) && Times(|Endpoints(c.ps[i..j])|, c.max) > RETRY_LOG_KEEP
    requires before !! Endpoints(c.ps[i..j]) && spent == before + Endpoints(c.ps[i..j]) == Endpoints(c.ps[from..j])
    requires all == Total(c, pre, i) && Spent(pre, before, c.at) && |pre| == Times(|before|, c.max)
    ensures |all| > Times(|Endpoints(c.ps[from..])|, c.max)
  {
    var made := ThroughStretch(c, from, i, j, pre, before, spent);
    UnionSize(before, Endpoints(c.ps[i..j]), spent);
    TimesSum(|before|, |Endpoints(c.ps[i..j])|, |spent|, c.max);
    GoneFromLog(c, pre, made, c.ps[j].endpoint);
    BackAgain(c, from, i, j, made, spent, all);
  }

  lemma Halves(ps: seq<Profile>, from: nat, i: nat, j: nat, stretch: set<string>, before: set<string>)
    requires from <= i <= j <= |ps| && stretch == Endpoints(ps[i..j]) && before == Endpoints(ps[from..i]) - stretch
    ensures before !! stretch && before + stretch == Endpoints(ps[from..j])
  {
    EndpointsJoin(ps, from, i, j);
  }

  /** The plan records more than one budget for each endpoint of the chain. */
  lemma Overrun(c: Site, from: nat, i: nat, j: nat, all: seq<Retry>)
    requires Twice(c, from, i, j) && Times(|Endpoints(c.ps[i..j])|, c.max) > RETRY_LOG_KEEP && all == Total(c, [], from)
    ensures |all| > Times(|Endpoints(c.ps[from..])|, c.max)
  {
    var stretch := Endpoints(c.ps[i..j]);
    var before := Endpoints(c.ps[from..i]) - stretch;
    BeforeIsNew(c, from, i, j);
    var pre := BeforeStretch(c, from, i, stretch, before, all);
    Halves(c.ps, from, i, j, stretch, before);
    FromStretch(c, from, i, j, pre, before, Endpoints(c.ps[from..j]), all);
  }

  /** Coming back to the endpoint: its oldest record is gone from the log. */
  lemma SpendsAgain(c: Site, pre: seq<Retry>, since: seq<Retry>, e: string)
    requires |since| > RETRY_LOG_KEEP && since[0].endpoint == Some(e) && Of(pre + since, e) <= c.max && c.window > 0
    requires forall r :: r in pre + since ==> r.at == c.at
    ensures Count(Newest(pre + since), e, c.at, c.window) < c.max
  {
    NewestOfSuffix(pre, since);
    var later := since[1..];
    NewestOfSuffix([since[0]], later);
    assert [since[0]] + later == since;
    CountNewest(later, e, c.at, c.window);
    OfIsCount(later, e, c.at, c.window);
    OfConcat(pre, since, e);
  }

  // ---------------------------------------------------------------- streams that always drop

  function Dropping(at: nat): Reading {
    Reading(at, true, Opened(Dropped), false, false, NothingToCompact)
  }

  lemma RecordedIsKept(log: seq<Retry>, add: seq<Retry>, now: nat, window: nat)
    ensures |log| <= RETRY_LOG_KEEP ==> |After(log, add, now, window)| <= RETRY_LOG_KEEP
  {
  }

  /** A budget larger than the log is never seen spent: the same profile is retried for as long
      as one cares to watch, whatever the clock does. */
  lemma {:induction false} DropsForever(w: World, s: State, clock: nat -> nat, horizon: nat)
    requires s.idx < |w.ps| && |s.log| <= RETRY_LOG_KEEP < w.max && forall t: nat :: w.env(t) == Dropping(clock(t))
    ensures var (t, result) := Acquire(w, s, horizon);
            result == StillTrying && t.sent == s.sent + horizon && t.tick == s.tick + 5 * horizon
    decreases horizon
  {
    if horizon > 0 {
      var e := w.ps[s.idx].endpoint;
      assert w.env(s.tick + 1) == Dropping(clock(s.tick + 1));
      var mid := State(s.log, s.sent + 1, s.tick + 3, s.idx);
      assert SendStep(w, e, s) == (mid, Streaming(Dropped));
      assert Acquire(w, s, horizon) == Round(w, s, horizon) == Decide(w, e, mid, Streaming(Dropped), horizon);
      DropGoesOn(w, e, mid, clock, horizon);
      DropsForever(w, Redone(w, e, mid), clock, horizon - 1);
    }
  }

  lemma DropGoesOn(w: World, e: string, s: State, clock: nat -> nat, horizon: nat)
    requires s.idx < |w.ps| && |s.log| <= RETRY_LOG_KEEP < w.max && horizon > 0 && s.tick > 0
    requires w.env(s.tick) == Dropping(clock(s.tick))
    ensures Decide(w, e, s, Streaming(Dropped), horizon) == Acquire(w, Redone(w, e, s), horizon - 1)
    ensures |Redone(w, e, s).log| <= RETRY_LOG_KEEP
  {
    CountAtMost(s.log, e, clock(s.tick), w.window);
    RecordedIsKept(s.log, [Retry(Some(e), w.env(s.tick).now)], w.env(s.tick + 1).now, w.window);
  }

  // ---------------------------------------------------------------- exact conditions

  /** A call on this chain and policy, from position `from`, with its own clock. */
  ghost predicate CallOn(ps: seq<Profile>, from: nat, max: nat, window: nat, w: World, s: State) {
    w.ps == ps && w.max == max && w.window == window && s.idx == from && Clock(w.env)
  }

  ghost predicate ByClock(w: World, s: State, clock: nat -> nat) {
    s.tick == 0 && forall t: nat {:trigger w.env(t)} :: w.env(t).now == clock(t)
  }

  /** In all surroundings, with any log and however long one watches: while no record of the
      call expires, it sends at most one request per profile left and one budget per endpoint
      left. */
  ghost predicate BoundHolds(ps: seq<Profile>, from: nat, max: nat, window: nat)
    requires from < |ps|
  {
    forall w: World, s: State, horizon: nat {:trigger Acquire(w, s, horizon)} ::
      CallOn(ps, from, max, window, w, s) && Unexpired(w, s, horizon) ==>
        Acquire(w, s, horizon).0.sent - s.sent <= Bound(ps, from, max)
  }

  /** The same in all surroundings that keep to one given clock. */
  ghost predicate BoundHoldsBy(ps: seq<Profile>, from: nat, max: nat, window: nat, clock: nat -> nat)
    requires from < |ps|
  {
    forall w: World, s: State, horizon: nat {:trigger Acquire(w, s, horizon)} ::
      CallOn(ps, from, max, window, w, s) && ByClock(w, s, clock) && Unexpired(w, s, horizon) ==>
        Acquire(w, s, horizon).0.sent - s.sent <= Bound(ps, from, max)
  }

  /** In all surroundings that keep to one given clock: while no record of the call expires, it
      ends by itself. */
  ghost predicate EndsBy(ps: seq<Profile>, from: nat, max: nat, window: nat, clock: nat -> nat)
    requires from < |ps|
  {
    forall w: World, s: State, horizon: nat {:trigger Acquire(w, s, horizon)} ::
      CallOn(ps, from, max, window, w, s) && ByClock(w, s, clock) && Unexpired(w, s, horizon)
      && horizon > (|ps| - from) * (max + 1) ==>
        Acquire(w, s, horizon).1 != StillTrying
  }

  ghost predicate AlwaysEnds(ps: seq<Profile>, from: nat, max: nat, window: nat)
    requires from < |ps|
  {
    forall w: World, s: State, horizon: nat {:trigger Acquire(w, s, horizon)} ::
      CallOn(ps, from, max, window, w, s) && Unexpired(w, s, horizon) && horizon > (|ps| - from) * (max + 1) ==>
        Acquire(w, s, horizon).1 != StillTrying
  }

  lemma NothingUnexpired(w: World, s: State, horizon: nat)
    requires s.idx < |w.ps| && Clock(w.env) && w.window == 0
    ensures !Unexpired(w, s, horizon)
  {
    var t := Acquire(w, s, horizon).0;
    assert w.env(s.tick).now <= w.env(if t.tick > s.tick then t.tick - 1 else s.tick).now;
  }

  lemma DropWorld(ps: seq<Profile>, from: nat, max: nat, window: nat, clock: nat -> nat, horizon: nat) returns (w: World, s: State)
    requires from < |ps| && max > RETRY_LOG_KEEP && Ticking(clock) && clock(5 * horizon) < clock(0) + window
    ensures CallOn(ps, from, max, window, w, s) && ByClock(w, s, clock) && Unexpired(w, s, horizon)
    ensures Acquire(w, s, horizon).1 == StillTrying && Acquire(w, s, horizon).0.sent == s.sent + horizon
  {
    w := World(ps, p => true, n => true, max, window, (t: nat) => Dropping(clock(t)));
    s := State([], 0, 0, from);
    DropCall(w, s, clock, horizon);
  }

  lemma DropCall(w: World, s: State, clock: nat -> nat, horizon: nat)
    requires s.idx < |w.ps| && s.log == [] && s.tick == 0 && w.max > RETRY_LOG_KEEP && forall t: nat :: w.env(t) == Dropping(clock(t))
    requires Ticking(clock) && clock(5 * horizon) < clock(0) + w.window
    ensures ByClock(w, s, clock) && Clock(w.env) && Unexpired(w, s, horizon)
    ensures Acquire(w, s, horizon).1 == StillTrying && Acquire(w, s, horizon).0.sent == s.sent + horizon
  {
    DropsForever(w, s, clock, horizon);
    EndsBefore(w, s, horizon, clock, 5 * horizon);
  }

  lemma EndsBefore(w: World, s: State, horizon: nat, clock: nat -> nat, last: nat)
    requires s.idx < |w.ps| && ByClock(w, s, clock) && Ticking(clock) && clock(last) < clock(0) + w.window
    requires Acquire(w, s, horizon).0.tick <= last
    ensures Unexpired(w, s, horizon) && Clock(w.env)
  {
    var t := Acquire(w, s, horizon).0;
    assert clock(if t.tick > 0 then t.tick - 1 else 0) <= clock(last);
    forall i: nat, j: nat | i <= j ensures w.env(i).now <= w.env(j).now { assert clock(i) <= clock(j); }
  }

  lemma PlanWorld(ps: seq<Profile>, from: nat, max: nat, window: nat, clock: nat -> nat, c: Site) returns (w: World, s: State)
    requires from < |ps| && c == Site(ps, c.plan, 0, window, max)
    requires Ticking(clock) && clock(Times(|ps| - from, max + 3)) < clock(0) + window
    ensures CallOn(ps, from, max, window, w, s) && ByClock(w, s, clock) && Unexpired(w, s, |ps|)
    ensures Acquire(w, s, |ps|).0.sent - s.sent == |Total(c, [], from)| + (|ps| - from)
  {
    w := World(ps, p => true, n => true, max, window, (t: nat) => PlanAt(c, [], from, clock, 0, t));
    s := State([], 0, 0, from);
    assert Newest([]) == [];
    var last := Times(|ps| - from, max + 3);
    forall t: nat | t <= last ensures clock(0) <= clock(t) <= clock(last) { }
    assert Under(w, c, [], [], s, clock, clock(0), last);
    PlannedRun(w, c, [], [], s, clock, clock(0), last, |ps|, Acquire(w, s, |ps|).0, |ps| - from);
    EndsBefore(w, s, |ps|, clock, last);
  }

  lemma OverrunWorld(ps: seq<Profile>, from: nat, max: nat, window: nat, clock: nat -> nat, i: nat, j: nat) returns (w: World, s: State)
    requires from <= i < j < |ps| && ps[i].endpoint == ps[j].endpoint && max * |Endpoints(ps[i..j])| > RETRY_LOG_KEEP
    requires Ticking(clock) && clock(Times(|ps| - from, max + 3)) < clock(0) + window
    ensures CallOn(ps, from, max, window, w, s) && ByClock(w, s, clock) && Unexpired(w, s, |ps|)
    ensures Acquire(w, s, |ps|).0.sent - s.sent > Bound(ps, from, max)
  {
    var c := Site(ps, set p | from <= p < |ps| && SpendsAt(ps, from, i, j, p), 0, window, max);
    assert clock(0) <= clock(Times(|ps| - from, max + 3));
    assert Twice(c, from, i, j);
    TimesIs(|Endpoints(ps[i..j])|, max);
    TimesIs(|Endpoints(ps[from..])|, max);
    Overrun(c, from, i, j, Total(c, [], from));
    w, s := PlanWorld(ps, from, max, window, clock, c);
  }

  /** Readings enough for every run below. */
  function Readings(n: nat, max: nat): nat {
    5 * (n * (max + 1) + 1)
  }

  lemma {:induction false} EndpointsAtMost(ps: seq<Profile>)
    ensures |Endpoints(ps)| <= |ps|
  {
    if ps != [] {
      EndpointsAtMost(ps[1..]);
      assert Endpoints(ps) == {ps[0].endpoint} + Endpoints(ps[1..]) by { assert ps == [ps[0]] + ps[1..]; }
    }
  }

  lemma {:induction false} TimesWithin(n: nat, max: nat)
    ensures Times(n, max + 3) <= 5 * (n * (max + 1))
  {
    if n > 0 {
      TimesWithin(n - 1, max);
      assert n * (max + 1) == (n - 1) * (max + 1) + (max + 1);
    }
  }

  lemma ReadingsEnough(ps: seq<Profile>, from: nat, max: nat)
    requires from < |ps|
    ensures Times(|ps| - from, max + 3) <= Readings(|ps| - from, max)
    ensures 5 * (Bound(ps, from, max) + 1) <= Readings(|ps| - from, max)
  {
    TimesWithin(|ps| - from, max);
    EndpointsAtMost(ps[from..]);
    Products(|ps| - from, |Endpoints(ps[from..])|, max);
  }

  lemma Products(n: nat, k: nat, max: nat)
    requires k <= n
    ensures n + max * k <= n * (max + 1)
  {
    assert max * k <= max * n;
    assert n * (max + 1) == max * n + n;
  }

  /** Whatever the pace of the clock: when the window outlasts the readings it takes, the request
      bound holds in all surroundings that keep to that clock if and only if the log holds one
      budget and, between any two profiles of one endpoint, every budget the chain offers in
      between. */
  lemma PacedBoundIff(ps: seq<Profile>, from: nat, max: nat, window: nat, clock: nat -> nat)
    requires from < |ps| && Ticking(clock) && clock(Readings(|ps| - from, max)) < clock(0) + window
    ensures BoundHoldsBy(ps, from, max, window, clock) <==> LogHolds(ps, from, max)
  {
    ReadingsEnough(ps, from, max);
    assert clock(Times(|ps| - from, max + 3)) <= clock(Readings(|ps| - from, max));
    if LogHolds(ps, from, max) {
      forall w: World, s: State, horizon: nat
        | CallOn(ps, from, max, window, w, s) && ByClock(w, s, clock) && Unexpired(w, s, horizon)
        ensures Acquire(w, s, horizon).0.sent - s.sent <= Bound(ps, from, max)
      {
        AcquireWithin(w, s, horizon);
      }
    } else if max > RETRY_LOG_KEEP {
      assert clock(5 * (Bound(ps, from, max) + 1)) <= clock(Readings(|ps| - from, max));
      var w, s := DropWorld(ps, from, max, window, clock, Bound(ps, from, max) + 1);
    } else {
      var i, j :| from <= i < j < |ps| && ps[i].endpoint == ps[j].endpoint
                  && max * |Endpoints(ps[i..j])| > RETRY_LOG_KEEP;
      var w, s := OverrunWorld(ps, from, max, window, clock, i, j);
    }
  }

  /** The bound holds in all surroundings, under any clock, if and only if the log holds that
      much. (With an empty window every record expires at once.) */
  lemma BoundHoldsIff(ps: seq<Profile>, from: nat, max: nat, window: nat)
    requires from < |ps|
    ensures BoundHolds(ps, from, max, window) <==> window == 0 || LogHolds(ps, from, max)
  {
    if window == 0 || LogHolds(ps, from, max) {
      forall w: World, s: State, horizon: nat | CallOn(ps, from, max, window, w, s) && Unexpired(w, s, horizon)
        ensures Acquire(w, s, horizon).0.sent - s.sent <= Bound(ps, from, max)
      {
        if window == 0 { NothingUnexpired(w, s, horizon); } else { AcquireWithin(w, s, horizon); }
      }
    } else {
      PacedBoundIff(ps, from, max, window, t => 0);
    }
  }

  /** Whatever the pace of the clock: the call ends by itself in all surroundings that keep to it
      if and only if the log holds one budget. */
  lemma PacedEndsIff(ps: seq<Profile>, from: nat, max: nat, window: nat, clock: nat -> nat)
    requires from < |ps| && Ticking(clock) && clock(Readings(|ps| - from, max)) < clock(0) + window
    ensures EndsBy(ps, from, max, window, clock) <==> max <= RETRY_LOG_KEEP
  {
    if max <= RETRY_LOG_KEEP {
      forall w: World, s: State, horizon: nat
        | CallOn(ps, from, max, window, w, s) && ByClock(w, s, clock) && Unexpired(w, s, horizon)
          && horizon > (|ps| - from) * (max + 1)
        ensures Acquire(w, s, horizon).1 != StillTrying
      {
        AcquireEnds(w, s, horizon);
      }
    } else {
      var w, s := DropWorld(ps, from, max, window, clock, (|ps| - from) * (max + 1) + 1);
    }
  }

  /** The call ends by itself in all surroundings if and only if the log holds one budget. */
  lemma AlwaysEndsIff(ps: seq<Profile>, from: nat, max: nat, window: nat)
    requires from < |ps|
    ensures AlwaysEnds(ps, from, max, window) <==> window == 0 || max <= RETRY_LOG_KEEP
  {
    if window == 0 || max <= RETRY_LOG_KEEP {
      forall w: World, s: State, horizon: nat
        | CallOn(ps, from, max, window, w, s) && Unexpired(w, s, horizon) && horizon > (|ps| - from) * (max + 1)
        ensures Acquire(w, s, horizon).1 != StillTrying
      {
        if window == 0 { NothingUnexpired(w, s, horizon); } else { AcquireEnds(w, s, horizon); }
      }
    } else {
      PacedEndsIff(ps, from, max, window, t => 0);
    }
  }

  /** With a budget of ten the bound fails on four profiles whose last shares the first one's
      endpoint, three different endpoints lying between, under every clock that makes 225
      readings within the window. */
  lemma SharedEndpointOverspends(ps: seq<Profile>, window: nat, clock: nat -> nat)
    requires |ps| == 4 && ps[3].endpoint == ps[0].endpoint && Ticking(clock) && clock(225) < clock(0) + window
    requires ps[0].endpoint != ps[1].endpoint && ps[1].endpoint != ps[2].endpoint && ps[0].endpoint != ps[2].endpoint
    ensures !BoundHoldsBy(ps, 0, 10, window, clock)
  {
    ThreeBetween(ps);
    PacedBoundIff(ps, 0, 10, window, clock);
  }

  lemma ThreeBetween(ps: seq<Profile>)
    requires |ps| == 4 && ps[3].endpoint == ps[0].endpoint
    requires ps[0].endpoint != ps[1].endpoint && ps[1].endpoint != ps[2].endpoint && ps[0].endpoint != ps[2].endpoint
    ensures !LogHolds(ps, 0, 10)
  {
    EndpointsGrow(ps, 0, 0);
    EndpointsGrow(ps, 0, 1);
    EndpointsGrow(ps, 0, 2);
    assert ps[0..0] == [];
    assert |Endpoints(ps[0..3])| == 3;
  }
}
