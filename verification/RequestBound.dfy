/**
 The books of one acquisition: which records it made, at which position of the chain, and how
 many requests that allows. Every endpoint stays in budget, and as long as no record of the
 call expires and the log can hold what the chain needs, nobody spends a budget twice.
 */
module RequestBound {
  import opened Options
  import opened RetryBudget
  import opened Failover
  import opened Acquisition

  function Endpoints(ps: seq<Profile>): set<string> {
    set p <- ps :: p.endpoint
  }

  // ---------------------------------------------------------------- what the log shows

  lemma NewestAgain(made: seq<Retry>, add: seq<Retry>)
    ensures Newest(Newest(made) + add) == Newest(made + add)
  {
    var n := Newest(made);
    var cut := |made| - |n|;
    assert made + add == made[..cut] + (n + add);
    if |n + add| >= RETRY_LOG_KEEP { NewestOfSuffix(made[..cut], n + add); }
  }

  lemma NewestOfSuffix(front: seq<Retry>, back: seq<Retry>)
    requires |back| >= RETRY_LOG_KEEP
    ensures Newest(front + back) == Newest(back)
  {
    var all := front + back;
    assert all[|all| - RETRY_LOG_KEEP..] == back[|back| - RETRY_LOG_KEEP..];
    if |back| == RETRY_LOG_KEEP { assert back[0..] == back; }
  }

  /** The newest records of the log are the newest records of the call. */
  ghost predicate Shows(log: seq<Retry>, made: seq<Retry>, start: nat) {
    EndsWith(log, Newest(made)) && forall r :: r in made ==> r.at >= start
  }

  ghost predicate Fresh(add: seq<Retry>, e: string, start: nat) {
    forall r :: r in add ==> r.endpoint == Some(e) && r.at >= start
  }

  lemma EndsInNewest(front: seq<Retry>, back: seq<Retry>)
    ensures EndsWith(Newest(front + back), Newest(back))
  {
    if |back| >= RETRY_LOG_KEEP {
      NewestOfSuffix(front, back);
    } else {
      var all := front + back;
      assert all[|all| - |back|..] == back;
    }
  }

  lemma ShowsAfter(log: seq<Retry>, made: seq<Retry>, add: seq<Retry>, e: string, now: nat, window: nat, start: nat)
    requires Shows(log, made, start) && Fresh(add, e, start) && now < start + window
    ensures Shows(After(log, add, now, window), made + add, start)
  {
    if add == [] {
      assert made + add == made;
    } else {
      var n := Newest(made);
      assert forall r :: r in n ==> r in made;
      NewestAgain(made, add);
      EndsAfterAll(log[..|log| - |n|], n + add, log + add, Monus(now, window));
    }
  }

  lemma EndsAfterAll(front: seq<Retry>, back: seq<Retry>, all: seq<Retry>, since: nat)
    requires all == front + back && forall r :: r in back ==> r.at >= since
    ensures EndsWith(Newest(Retain(all, since)), Newest(back))
  {
    RetainConcat(front, back, since);
    EndsInNewest(Retain(front, since), back);
  }

  /** While nothing of the call expires, the budget sees its newest records. */
  lemma BudgetSees(log: seq<Retry>, made: seq<Retry>, q: nat, e: string, now: nat, window: nat, start: nat)
    requires Shows(log, made, start) && now < start + window && q <= |made| <= q + RETRY_LOG_KEEP
    ensures Of(made[q..], e) <= Count(log, e, now, window)
  {
    var recent := made[q..];
    EndsShorter(log, Newest(made), recent);
    OfIsCount(recent, e, now, window);
    RecentCounts(log, recent, e, now, window);
  }

  lemma EndsShorter(log: seq<Retry>, long: seq<Retry>, short: seq<Retry>)
    requires EndsWith(log, long) && EndsWith(long, short)
    ensures EndsWith(log, short)
  {
    assert long[|long| - |short|..] == log[|log| - |short|..];
  }

  // ---------------------------------------------------------------- where records were made

  /** The call's records with the chain position each was made at; `here` is where those of
      the current position begin. */
  datatype Ledger = Ledger(made: seq<Retry>, pos: seq<nat>, here: nat)

  ghost predicate Placed(ps: seq<Profile>, from: nat, idx: nat, b: Ledger) {
    && |b.pos| == |b.made| && b.here <= |b.made| && from <= idx < |ps|
    && (forall k :: 0 <= k < |b.pos| ==> from <= b.pos[k] <= idx && b.made[k].endpoint == Some(ps[b.pos[k]].endpoint))
    && (forall k, l :: 0 <= k < l < |b.pos| ==> b.pos[k] <= b.pos[l])
    && (forall k :: b.here <= k < |b.pos| ==> b.pos[k] == idx)
  }

  ghost predicate OneBudgetEach(made: seq<Retry>, max: nat) {
    forall e {:trigger Of(made, e)} :: Of(made, e) <= max
  }

  /** The exact condition on a chain: the log holds one budget, and between two profiles of the
      same endpoint the chain offers no more budgets than the log holds. */
  ghost predicate LogHolds(ps: seq<Profile>, from: nat, max: nat) {
    && max <= RETRY_LOG_KEEP
    && forall i, j {:trigger ps[i], ps[j]} :: from <= i < j < |ps| && ps[i].endpoint == ps[j].endpoint ==>
         max * |Endpoints(ps[i..j])| <= RETRY_LOG_KEEP
  }

  lemma {:induction false} OfSuffix(made: seq<Retry>, q: nat, e: string)
    requires q <= |made|
    ensures Of(made, e) == Of(made[..q], e) + Of(made[q..], e)
  {
    assert made == made[..q] + made[q..];
    OfConcat(made[..q], made[q..], e);
  }

  /** The first record of an endpoint that has one. */
  lemma {:induction false} FirstOf(made: seq<Retry>, e: string) returns (q: nat)
    requires Of(made, e) > 0
    ensures q < |made| && made[q].endpoint == Some(e) && Of(made[q..], e) == Of(made, e)
  {
    if made[0].endpoint == Some(e) {
      q := 0;
      assert made[0..] == made;
    } else {
      q := FirstOf(made[1..], e);
      assert made[1..][q..] == made[q + 1..];
      q := q + 1;
    }
  }

  /** Records since an endpoint's first one stem from the stretch of the chain between that
      position and this one. */
  lemma StretchEndpoints(ps: seq<Profile>, from: nat, idx: nat, b: Ledger, q: nat, r: Retry)
    requires Placed(ps, from, idx, b) && q < |b.made| && b.pos[q] < idx && ps[b.pos[q]].endpoint == ps[idx].endpoint
    requires r in b.made[q..]
    ensures r.endpoint.Some? && r.endpoint.value in Endpoints(ps[b.pos[q]..idx])
  {
    var k :| q <= k < |b.made| && b.made[k] == r;
    StretchHas(ps, b.pos[q], idx, b.pos[k]);
  }

  lemma SuffixBudgets(made: seq<Retry>, q: nat, max: nat)
    requires OneBudgetEach(made, max) && q <= |made|
    ensures OneBudgetEach(made[q..], max)
  {
    forall e ensures Of(made[q..], e) <= max {
      OfSuffix(made, q, e);
      assert Of(made, e) <= max;
    }
  }

  lemma StretchIsHeld(ps: seq<Profile>, from: nat, idx: nat, b: Ledger, q: nat, max: nat)
    requires Placed(ps, from, idx, b) && LogHolds(ps, from, max) && q < |b.made|
    requires OneBudgetEach(b.made[q..], max) && b.pos[q] < idx && ps[b.pos[q]].endpoint == ps[idx].endpoint
    ensures |b.made| <= q + RETRY_LOG_KEEP
  {
    var es, recent := Endpoints(ps[b.pos[q]..idx]), b.made[q..];
    forall r | r in recent ensures r.endpoint.Some? && r.endpoint.value in es {
      StretchEndpoints(ps, from, idx, b, q, r);
    }
    PerEndpointTotal(recent, es, max);
  }

  lemma StayIsHeld(ps: seq<Profile>, from: nat, idx: nat, b: Ledger, q: nat, max: nat)
    requires Placed(ps, from, idx, b) && max <= RETRY_LOG_KEEP && q < |b.made|
    requires OneBudgetEach(b.made[q..], max) && b.pos[q] == idx
    ensures |b.made| <= q + RETRY_LOG_KEEP
  {
    var e, recent := ps[idx].endpoint, b.made[q..];
    forall r | r in recent ensures r.endpoint == Some(e) {
      var k :| q <= k < |b.made| && b.made[k] == r;
    }
    OfUniform(recent, e, e);
  }

  lemma SinceFirst(ps: seq<Profile>, from: nat, idx: nat, b: Ledger, q: nat, max: nat)
    requires Placed(ps, from, idx, b) && OneBudgetEach(b.made, max) && LogHolds(ps, from, max)
    requires q < |b.made| && b.made[q].endpoint == Some(ps[idx].endpoint)
    ensures |b.made| <= q + RETRY_LOG_KEEP
  {
    SuffixBudgets(b.made, q, max);
    if b.pos[q] == idx {
      StayIsHeld(ps, from, idx, b, q, max);
    } else {
      StretchIsHeld(ps, from, idx, b, q, max);
    }
  }

  lemma StretchHas(ps: seq<Profile>, i: nat, j: nat, k: nat)
    requires i < j < |ps| && i <= k <= j && ps[i].endpoint == ps[j].endpoint
    ensures ps[k].endpoint in Endpoints(ps[i..j])
  {
    var m := if k == j then i else k;
    assert ps[i..j][m - i] == ps[m];
  }

  /** The budget check sees everything the call has spent on this endpoint. */
  lemma AllSeen(ps: seq<Profile>, from: nat, idx: nat, b: Ledger, log: seq<Retry>, now: nat, window: nat, start: nat, max: nat)
    requires Placed(ps, from, idx, b) && OneBudgetEach(b.made, max) && LogHolds(ps, from, max)
    requires Shows(log, b.made, start) && now < start + window
    ensures Of(b.made, ps[idx].endpoint) <= Count(log, ps[idx].endpoint, now, window)
  {
    var e := ps[idx].endpoint;
    if Of(b.made, e) > 0 {
      var q := FirstOf(b.made, e);
      SinceFirst(ps, from, idx, b, q, max);
      BudgetSees(log, b.made, q, e, now, window, start);
    }
  }

  /** So do the records of the current position alone, under a budget the log holds. */
  lemma HereSeen(ps: seq<Profile>, from: nat, idx: nat, b: Ledger, log: seq<Retry>, now: nat, window: nat, start: nat, max: nat)
    requires Placed(ps, from, idx, b) && |b.made| <= b.here + max && max <= RETRY_LOG_KEEP
    requires Shows(log, b.made, start) && now < start + window
    ensures |b.made| - b.here <= Count(log, ps[idx].endpoint, now, window)
  {
    var e, recent := ps[idx].endpoint, b.made[b.here..];
    forall r | r in recent ensures r.endpoint == Some(e) {
      var k :| b.here <= k < |b.made| && b.made[k] == r;
    }
    OfUniform(recent, e, e);
    BudgetSees(log, b.made, b.here, e, now, window, start);
  }

  // ---------------------------------------------------------------- the books

  /** Where the call began: clock, position, requests sent before, and the largest budget the
      log was ever written under. */
  datatype Since = Since(start: nat, from: nat, sent: nat, top: nat)

  function Times(n: nat, max: nat): nat {
    if n == 0 then 0 else Times(n - 1, max) + max
  }

  lemma {:induction false} TimesIs(n: nat, max: nat)
    ensures Times(n, max) == n * max
  {
    if n > 0 {
      TimesIs(n - 1, max);
      assert n * max == (n - 1) * max + max;
    }
  }

  lemma {:induction false} TimesGrows(m: nat, n: nat, max: nat)
    requires m <= n
    ensures Times(m, max) <= Times(n, max)
  {
    if m < n { TimesGrows(m, n - 1, max); }
  }

  ghost predicate HereOk(idx: nat, from: nat, b: Ledger, max: nat) {
    from <= idx && b.here <= |b.made| <= b.here + max && b.here <= Times(idx - from, max)
  }

  /** The books at clock `now`. */
  ghost predicate Books(w: World, c: Since, s: State, now: nat, b: Ledger) {
    && Placed(w.ps, c.from, s.idx, b) && c.start <= now <= w.env(s.tick).now
    && w.max <= c.top && InBudget(s.log, now, w.window, c.top)
    && (now < c.start + w.window ==>
          && Shows(s.log, b.made, c.start)
          && (w.max <= RETRY_LOG_KEEP ==> HereOk(s.idx, c.from, b, w.max))
          && (LogHolds(w.ps, c.from, w.max) ==> OneBudgetEach(b.made, w.max)))
  }

  function Noted(b: Ledger, add: seq<Retry>, idx: nat): Ledger {
    Ledger(b.made + add, b.pos + Same(idx, |add|), b.here)
  }

  function Same(idx: nat, n: nat): (r: seq<nat>)
    ensures |r| == n && forall k :: 0 <= k < n ==> r[k] == idx
  {
    if n == 0 then [] else Same(idx, n - 1) + [idx]
  }

  lemma NotedPlaced(ps: seq<Profile>, from: nat, idx: nat, b: Ledger, add: seq<Retry>, start: nat)
    requires Placed(ps, from, idx, b) && Fresh(add, ps[idx].endpoint, start)
    ensures Placed(ps, from, idx, Noted(b, add, idx))
  {
    var c := Noted(b, add, idx);
    forall k | 0 <= k < |c.pos| ensures from <= c.pos[k] <= idx && c.made[k].endpoint == Some(ps[c.pos[k]].endpoint) {
      if k >= |b.made| { assert c.made[k] == add[k - |b.made|] && add[k - |b.made|] in add; }
    }
  }

  lemma NotedBudgets(made: seq<Retry>, add: seq<Retry>, e: string, start: nat, max: nat)
    requires OneBudgetEach(made, max) && Fresh(add, e, start) && Of(made, e) + |add| <= max
    ensures OneBudgetEach(made + add, max)
  {
    forall x ensures Of(made + add, x) <= max {
      OfConcat(made, add, x);
      OfUniform(add, e, x);
      assert Of(made, x) <= max;
    }
  }

  lemma BudgetAfter(log: seq<Retry>, add: seq<Retry>, e: string, start: nat, now: nat, window: nat, max: nat, top: nat)
    requires InBudget(log, now, window, top) && max <= top
    requires Fresh(add, e, start) && |add| <= Monus(max, Count(log, e, now, window))
    ensures InBudget(After(log, add, now, window), now, window, top)
  {
    if add != [] { RecordedInBudget(log, add, Monus(now, window), e, now, window, top); }
  }

  /** Recording no more than what is left of this endpoint's budget keeps the books, even when
      the budget was counted earlier than the records are flushed. */
  lemma SpendKeeps(w: World, c: Since, s: State, now: nat, b: Ledger, add: seq<Retry>, counted: nat, later: nat, tick: nat, sent: nat)
    requires Books(w, c, s, now, b) && now <= counted <= later <= w.env(tick).now
    requires Fresh(add, w.ps[s.idx].endpoint, c.start) && |add| <= Spare(w, s.log, w.ps[s.idx].endpoint, counted)
    ensures Books(w, c, State(After(s.log, add, later, w.window), sent, tick, s.idx), later, Noted(b, add, s.idx))
  {
    var e := w.ps[s.idx].endpoint;
    NotedPlaced(w.ps, c.from, s.idx, b, add, c.start);
    BudgetAges(s.log, now, later, w.window, c.top);
    CountAges(s.log, e, counted, later, w.window);
    BudgetAfter(s.log, add, e, c.start, later, w.window, w.max, c.top);
    if later < c.start + w.window {
      ShowsAfter(s.log, b.made, add, e, later, w.window, c.start);
      if w.max <= RETRY_LOG_KEEP {
        HereSeen(w.ps, c.from, s.idx, b, s.log, counted, w.window, c.start, w.max);
      }
      if LogHolds(w.ps, c.from, w.max) {
        AllSeen(w.ps, c.from, s.idx, b, s.log, counted, w.window, c.start, w.max);
        NotedBudgets(b.made, add, e, c.start, w.max);
      }
    }
  }

  /** Time alone keeps the books. */
  lemma WaitKeeps(w: World, c: Since, s: State, now: nat, b: Ledger, later: nat, tick: nat, sent: nat)
    requires Books(w, c, s, now, b) && now <= later <= w.env(tick).now
    ensures Books(w, c, State(s.log, sent, tick, s.idx), later, b)
  {
    BudgetAges(s.log, now, later, w.window, c.top);
  }

  /** Moving on starts a new stay. */
  lemma AdvanceKeeps(w: World, c: Since, s: State, now: nat, b: Ledger, j: nat)
    requires Books(w, c, s, now, b) && s.idx < j < |w.ps|
    ensures Books(w, c, s.(idx := j), now, b.(here := |b.made|))
  {
    AdvancePlaced(w.ps, c.from, s.idx, b, j);
    if now < c.start + w.window && w.max <= RETRY_LOG_KEEP { AdvanceStays(s.idx, c.from, b, w.max, j); }
  }

  lemma AdvancePlaced(ps: seq<Profile>, from: nat, idx: nat, b: Ledger, j: nat)
    requires Placed(ps, from, idx, b) && idx < j < |ps|
    ensures Placed(ps, from, j, b.(here := |b.made|))
  {
  }

  lemma AdvanceStays(idx: nat, from: nat, b: Ledger, max: nat, j: nat)
    requires HereOk(idx, from, b, max) && idx < j
    ensures HereOk(j, from, b.(here := |b.made|), max)
  {
    TimesGrows(idx + 1 - from, j - from, max);
  }

  // ---------------------------------------------------------------- turns and runs

  lemma {:induction false} RetriedFresh(env: nat -> Reading, first: nat, n: nat, e: string, start: nat)
    requires Clock(env) && start <= env(first).now
    ensures Fresh(Retried(env, first, n, e), e, start)
  {
    if n > 0 {
      RetriedFresh(env, first, n - 1, e, start);
      assert env(first).now <= env(first + n - 1).now;
    }
  }

  /** A request keeps the books; it sends one more than it records. */
  lemma SendKeeps(w: World, c: Since, s: State, now: nat, b: Ledger, e: string, t: State, request: Request) returns (b1: Ledger)
    requires Clock(w.env) && Books(w, c, s, now, b) && e == w.ps[s.idx].endpoint && (t, request) == SendStep(w, e, s)
    ensures t.tick > 0 && t.idx == s.idx && Books(w, c, t, w.env(t.tick - 1).now, b1) && b1.here == b.here
    ensures if request == RequestFatal then t.sent - s.sent <= |b1.made| - |b.made| + 1
            else t.sent - s.sent == |b1.made| - |b.made| + 1
    ensures t.sent >= s.sent && |b1.made| >= |b.made|
  {
    var counted, first := w.env(s.tick).now, s.tick + 1;
    assert w.env(first - 1).now <= w.env(first).now <= w.env(t.tick - 1).now <= w.env(t.tick).now;
    if !w.env(first).prepared {
      WaitKeeps(w, c, s, now, b, w.env(t.tick - 1).now, t.tick, t.sent);
      b1 := b;
    } else {
      var n := Attempts(w.env, first, Spare(w, s.log, e, counted));
      RetriedFresh(w.env, first, n, e, c.start);
      SpendKeeps(w, c, s, now, b, Retried(w.env, first, n, e), counted, w.env(t.tick - 1).now, t.tick, t.sent);
      b1 := Noted(b, Retried(w.env, first, n, e), s.idx);
    }
  }

  /** The last clock reading of a call that began at tick `begun`. */
  function Clocked(env: nat -> Reading, begun: nat, tick: nat): nat {
    env(if tick > begun then tick - 1 else begun).now
  }

  /** The requests of a call are its recorded retries plus one per profile visited; `extra` is
      the request not yet accounted for. */
  ghost predicate Paid(w: World, c: Since, s: State, b: Ledger, extra: nat) {
    s.sent <= c.sent + |b.made| + (s.idx - c.from) + extra
  }

  /** What the end of a run says about the state and the books `b1` it ends with. */
  ghost predicate Ended(w: World, c: Since, t: State, result: Result, sent: nat, horizon: nat, b1: Ledger) {
    && t.tick > 0 && Books(w, c, t, w.env(t.tick - 1).now, b1)
    && t.sent <= c.sent + |b1.made| + (|w.ps| - c.from)
    && (result == StillTrying ==> t.sent >= sent + horizon)
  }

  lemma EndHere(w: World, c: Since, s: State, b: Ledger, result: Result, sent: nat, horizon: nat)
    requires s.tick > 0 && Books(w, c, s, w.env(s.tick - 1).now, b) && Paid(w, c, s, b, 1) && result != StillTrying
    ensures Ended(w, c, s, result, sent, horizon, b)
  {
  }

  /** The books of a whole run. */
  lemma {:induction false} RunKeeps(w: World, c: Since, s: State, now: nat, b: Ledger, horizon: nat, t: State, result: Result)
    returns (b1: Ledger)
    requires Clock(w.env) && Books(w, c, s, now, b) && Paid(w, c, s, b, 0)
    requires horizon > 0 && (t, result) == Acquire(w, s, horizon)
    ensures Ended(w, c, t, result, s.sent, horizon, b1)
    decreases horizon, 3
  {
    var e := w.ps[s.idx].endpoint;
    var (mid, request) := SendStep(w, e, s);
    assert Acquire(w, s, horizon) == Round(w, s, horizon) == Decide(w, e, mid, request, horizon);
    var b0 := SendKeeps(w, c, s, now, b, e, mid, request);
    b1 := DecideKeeps(w, c, e, mid, b0, request, horizon, t, result, s.sent);
  }

  lemma {:induction false} DecideKeeps(w: World, c: Since, e: string, s: State, b: Ledger, request: Request, horizon: nat,
                                       t: State, result: Result, sent: nat)
    returns (b1: Ledger)
    requires Clock(w.env) && s.tick > 0 && Books(w, c, s, w.env(s.tick - 1).now, b) && Paid(w, c, s, b, 1)
    requires e == w.ps[s.idx].endpoint && horizon > 0 && (t, result) == Decide(w, e, s, request, horizon)
    requires sent <= s.sent && (request != RequestFatal ==> sent < s.sent)
    ensures Ended(w, c, t, result, sent, horizon, b1)
    decreases horizon, 2
  {
    match request {
      case RequestFailover =>
        b1 := FailKeeps(w, c, s, b, w.env(s.tick - 1), horizon, t, result, sent);
      case Streaming(Dropped) =>
        b1 := DropKeeps(w, c, e, s, b, horizon, t, result, sent);
      case _ =>
        b1 := b;
        EndHere(w, c, s, b, result, sent, horizon);
    }
  }

  lemma {:induction false} FailKeeps(w: World, c: Since, s: State, b: Ledger, r: Reading, horizon: nat, t: State, result: Result, sent: nat)
    returns (b1: Ledger)
    requires Clock(w.env) && s.tick > 0 && Books(w, c, s, w.env(s.tick - 1).now, b) && Paid(w, c, s, b, 1) && sent < s.sent
    requires horizon > 0 && (t, result) == Fail(w, s, r, horizon)
    ensures Ended(w, c, t, result, sent, horizon, b1)
    decreases horizon, 0
  {
    var j := NextUsable(w.ps, s.idx + 1, w.builds, w.fits);
    if r.cancelled || j == |w.ps| {
      b1 := b;
      EndHere(w, c, s, b, result, sent, horizon);
    } else {
      var next := s.(idx := j);
      var b0 := b.(here := |b.made|);
      AdvanceKeeps(w, c, s, w.env(s.tick - 1).now, b, j);
      b1 := GoOn(w, c, next, b0, horizon, t, result, sent, r.compaction == OverBudget);
    }
  }

  /** Go round again, or stop short of it over the token budget. */
  lemma {:induction false} GoOn(w: World, c: Since, s: State, b: Ledger, horizon: nat, t: State, result: Result, sent: nat, stop: bool)
    returns (b1: Ledger)
    requires Clock(w.env) && s.tick > 0 && Books(w, c, s, w.env(s.tick - 1).now, b) && Paid(w, c, s, b, 0) && sent < s.sent
    requires horizon > 0 && (t, result) == if stop then (s, OverTokenBudget) else Acquire(w, s, horizon - 1)
    ensures Ended(w, c, t, result, sent, horizon, b1)
    decreases horizon - 1, 4
  {
    b1 := b;
    if !stop && horizon > 1 {
      b1 := RunKeeps(w, c, s, w.env(s.tick - 1).now, b, horizon - 1, t, result);
    }
  }

  lemma {:induction false} DropKeeps(w: World, c: Since, e: string, s: State, b: Ledger, horizon: nat, t: State, result: Result, sent: nat)
    returns (b1: Ledger)
    requires Clock(w.env) && s.tick > 0 && Books(w, c, s, w.env(s.tick - 1).now, b) && Paid(w, c, s, b, 1) && sent < s.sent
    requires e == w.ps[s.idx].endpoint && horizon > 0 && (t, result) == Drop(w, e, s, horizon)
    ensures Ended(w, c, t, result, sent, horizon, b1)
    decreases horizon, 1
  {
    var r, waited := w.env(s.tick), s.(tick := s.tick + 1);
    assert w.env(s.tick).now <= w.env(s.tick + 1).now <= w.env(s.tick + 2).now;
    if Spare(w, s.log, e, r.now) == 0 {
      WaitKeeps(w, c, s, w.env(s.tick - 1).now, b, r.now, s.tick + 1, s.sent);
      b1 := FailKeeps(w, c, waited, b, r, horizon, t, result, sent);
    } else if r.cancelled {
      WaitKeeps(w, c, s, w.env(s.tick - 1).now, b, r.now, s.tick + 1, s.sent);
      b1 := b;
      EndHere(w, c, waited, b, result, sent, horizon);
    } else {
      var add := [Retry(Some(e), r.now)];
      SpendKeeps(w, c, s, w.env(s.tick - 1).now, b, add, r.now, w.env(s.tick + 1).now, s.tick + 2, s.sent);
      b1 := GoOn(w, c, Redone(w, e, s), Noted(b, add, s.idx), horizon, t, result, sent, false);
    }
  }

  /** The books of a whole call, from its first reading on. */
  lemma CallKeeps(w: World, s: State, horizon: nat, top: nat, t: State, result: Result) returns (c: Since, b: Ledger)
    requires Clock(w.env) && s.idx < |w.ps| && w.max <= top && InBudget(s.log, w.env(s.tick).now, w.window, top)
    requires (t, result) == Acquire(w, s, horizon)
    ensures c == Since(w.env(s.tick).now, s.idx, s.sent, top) && Books(w, c, t, Clocked(w.env, s.tick, t.tick), b)
    ensures t.sent - s.sent <= |b.made| + (|w.ps| - s.idx)
    ensures result == StillTrying ==> t.sent >= s.sent + horizon
  {
    c, b := Since(w.env(s.tick).now, s.idx, s.sent, top), Ledger([], [], 0);
    if horizon > 0 { b := RunKeeps(w, c, s, w.env(s.tick).now, b, horizon, t, result); }
  }

  // ---------------------------------------------------------------- main results

  /** The stored in-window count of every endpoint never exceeds the budget, whatever rounds,
      profiles, request retries and mid-stream retries share it. */
  lemma AcquireInBudget(w: World, s: State, horizon: nat, top: nat)
    requires Clock(w.env) && s.idx < |w.ps| && w.max <= top && InBudget(s.log, w.env(s.tick).now, w.window, top)
    ensures var t := Acquire(w, s, horizon).0;
            InBudget(t.log, Clocked(w.env, s.tick, t.tick), w.window, top)
  {
    var (t, result) := Acquire(w, s, horizon);
    var c, b := CallKeeps(w, s, horizon, top, t, result);
  }

  /** No record of the call has expired when it ends. */
  ghost predicate Unexpired(w: World, s: State, horizon: nat)
    requires s.idx < |w.ps|
  {
    Clocked(w.env, s.tick, Acquire(w, s, horizon).0.tick) < w.env(s.tick).now + w.window
  }

  lemma LastStay(stays: nat, all: nat, max: nat, here: nat, made: nat)
    requires here <= Times(stays, max) && made <= here + max && stays < all
    ensures made + all <= Times(all, max + 1)
  {
    TimesGrows(stays + 1, all, max);
    TimesOneMore(all, max);
  }

  lemma {:induction false} TimesOneMore(n: nat, max: nat)
    ensures Times(n, max + 1) == Times(n, max) + n
  {
    if n > 0 { TimesOneMore(n - 1, max); }
  }

  /** Every log is within some ceiling. */
  lemma {:induction false} SomeCeiling(log: seq<Retry>, now: nat, window: nat, max: nat) returns (top: nat)
    ensures max <= top && InBudget(log, now, window, top)
  {
    top := max + |log|;
    forall e ensures Count(log, e, now, window) <= top { CountAtMost(log, e, now, window); }
  }

  lemma EndsAfter(w: World, s: State, horizon: nat, t: State, result: Result)
    requires Clock(w.env) && s.idx < |w.ps| && w.max <= RETRY_LOG_KEEP && (t, result) == Acquire(w, s, horizon)
    requires Clocked(w.env, s.tick, t.tick) < w.env(s.tick).now + w.window
    ensures t.sent - s.sent <= Times(|w.ps| - s.idx, w.max + 1)
    ensures horizon > Times(|w.ps| - s.idx, w.max + 1) ==> result != StillTrying
  {
    var top := SomeCeiling(s.log, w.env(s.tick).now, w.window, w.max);
    var c, b := CallKeeps(w, s, horizon, top, t, result);
    StaysWithin(w, c, t, Clocked(w.env, s.tick, t.tick), b);
    StaysCost(t.idx, c.from, |w.ps|, b, w.max);
  }

  lemma StaysWithin(w: World, c: Since, t: State, now: nat, b: Ledger)
    requires Books(w, c, t, now, b) && now < c.start + w.window && w.max <= RETRY_LOG_KEEP
    ensures c.from <= t.idx < |w.ps| && HereOk(t.idx, c.from, b, w.max)
  {
  }

  lemma StaysCost(idx: nat, from: nat, all: nat, b: Ledger, max: nat)
    requires from <= idx < all && HereOk(idx, from, b, max)
    ensures |b.made| + (all - from) <= Times(all - from, max + 1)
  {
    LastStay(idx - from, all - from, max, b.here, |b.made|);
  }

  /** With a budget the log holds, the call ends by itself: profiles left and budget left go
      down together. */
  lemma AcquireEnds(w: World, s: State, horizon: nat)
    requires Clock(w.env) && s.idx < |w.ps| && w.max <= RETRY_LOG_KEEP && Unexpired(w, s, horizon)
    ensures var (t, result) := Acquire(w, s, horizon);
            && t.sent - s.sent <= (|w.ps| - s.idx) * (w.max + 1)
            && (horizon > (|w.ps| - s.idx) * (w.max + 1) ==> result != StillTrying)
  {
    var (t, result) := Acquire(w, s, horizon);
    EndsAfter(w, s, horizon, t, result);
    TimesIs(|w.ps| - s.idx, w.max + 1);
  }

  lemma MadeWithin(ps: seq<Profile>, from: nat, idx: nat, b: Ledger, max: nat)
    requires Placed(ps, from, idx, b) && OneBudgetEach(b.made, max)
    ensures |b.made| <= max * |Endpoints(ps[from..])|
  {
    var es := Endpoints(ps[from..]);
    forall r | r in b.made ensures r.endpoint.Some? && r.endpoint.value in es {
      var k :| 0 <= k < |b.made| && b.made[k] == r;
      assert ps[from..][b.pos[k] - from] == ps[b.pos[k]];
    }
    PerEndpointTotal(b.made, es, max);
  }

  function Bound(ps: seq<Profile>, from: nat, max: nat): nat
    requires from <= |ps|
  {
    (|ps| - from) + max * |Endpoints(ps[from..])|
  }

  /** At most one request per profile left and one budget per endpoint left, when the log holds
      what the chain needs. */
  lemma AcquireWithin(w: World, s: State, horizon: nat)
    requires Clock(w.env) && s.idx < |w.ps| && LogHolds(w.ps, s.idx, w.max) && Unexpired(w, s, horizon)
    ensures Acquire(w, s, horizon).0.sent - s.sent <= Bound(w.ps, s.idx, w.max)
  {
    var top := SomeCeiling(s.log, w.env(s.tick).now, w.window, w.max);
    var (t, result) := Acquire(w, s, horizon);
    var c, b := CallKeeps(w, s, horizon, top, t, result);
    MadeWithin(w.ps, s.idx, t.idx, b, w.max);
  }

  // ---------------------------------------------------------------- many calls

  /** One call of a longer session: the chain it finds, its position and policy, how long
      nothing was asked before it, and how long it is watched. */
  datatype Visit = Visit(
    ps: seq<Profile>, builds: Profile -> bool, fits: nat -> bool, max: nat, idx: nat, idle: nat, horizon: nat)

  /** The log over a session: rounds follow each other with time passing in between, profile
      resets and changes of policy included. */
  ghost function Session(env: nat -> Reading, window: nat, visits: seq<Visit>, s: State): State
    requires forall v :: v in visits ==> v.idx < |v.ps|
    decreases |visits|
  {
    if visits == [] then s
    else
      assert visits[0] in visits;
      var v := visits[0];
      Session(env, window, visits[1..],
              Acquire(World(v.ps, v.builds, v.fits, v.max, window, env), s.(idx := v.idx, tick := s.tick + v.idle), v.horizon).0)
  }

  lemma {:induction false} VisitInBudget(w: World, s: State, horizon: nat, top: nat)
    requires Clock(w.env) && s.idx < |w.ps| && w.max <= top && InBudget(s.log, w.env(s.tick).now, w.window, top)
    ensures var t := Acquire(w, s, horizon).0; InBudget(t.log, w.env(t.tick).now, w.window, top)
  {
    AcquireInBudget(w, s, horizon, top);
    var t := Acquire(w, s, horizon).0;
    var last := if t.tick > s.tick then t.tick - 1 else s.tick;
    assert w.env(last).now <= w.env(t.tick).now;
    BudgetAges(t.log, w.env(last).now, w.env(t.tick).now, w.window, top);
  }

  /** Across rounds, however many calls share the log, no endpoint's in-window count exceeds the
      largest budget it was written under. */
  lemma {:induction false} SessionInBudget(env: nat -> Reading, window: nat, visits: seq<Visit>, s: State, top: nat)
    requires Clock(env) && (forall v :: v in visits ==> v.idx < |v.ps| && v.max <= top)
    requires InBudget(s.log, env(s.tick).now, window, top)
    ensures var t := Session(env, window, visits, s); InBudget(t.log, env(t.tick).now, window, top)
    decreases |visits|
  {
    if visits != [] {
      assert visits[0] in visits;
      var v := visits[0];
      var begun := s.(idx := v.idx, tick := s.tick + v.idle);
      assert env(s.tick).now <= env(begun.tick).now;
      BudgetAges(s.log, env(s.tick).now, env(begun.tick).now, window, top);
      VisitInBudget(World(v.ps, v.builds, v.fits, v.max, window, env), begun, v.horizon, top);
      SessionInBudget(env, window, visits[1..],
                      Acquire(World(v.ps, v.builds, v.fits, v.max, window, env), begun, v.horizon).0, top);
    }
  }
}
