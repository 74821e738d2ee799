/**
 Stream acquisition as a function of its surroundings: request retries, mid-stream retries
 and failover around them, all drawing on one persisted retry log. Everything outside the
 process (how a request ends, clock, deadline, cancellation, compaction) is read from an
 arbitrary environment, one reading per attempt or wait.
 */
module Acquisition {
  import opened Options
  import opened RetryBudget
  import opened Failover

  datatype Stream = Completed | Dropped | StreamCancelled

  datatype Attempt =
    | Opened(stream: Stream)
    | EndpointFailure      // 401, 403, 404: another profile may serve it
    | BadRequest           // any other status that is not transient
    | Transient            // 408, 429, 5xx, transport
    | Aborted              // the round was cancelled while the request was out

  datatype Reading = Reading(
    now: nat, prepared: bool, attempt: Attempt, pastDeadline: bool, cancelled: bool, compaction: Compaction)

  ghost predicate Clock(env: nat -> Reading) {
    forall i: nat, j: nat {:trigger env(i), env(j)} :: i <= j ==> env(i).now <= env(j).now
  }

  datatype Request = Streaming(stream: Stream) | RequestFailover | RequestFatal | RequestCancelled

  datatype Result =
    | Consumed
    | Fatal
    | Cancelled
    | Exhausted(reason: Exhaustion)
    | OverTokenBudget
    | StillTrying        // the horizon was reached with the loop still going

  /** The chain, what builds and fits, the retry policy, and the surroundings. */
  datatype World = World(
    ps: seq<Profile>, builds: Profile -> bool, fits: nat -> bool, max: nat, window: nat, env: nat -> Reading)

  datatype State = State(log: seq<Retry>, sent: nat, tick: nat, idx: nat)

  function After(log: seq<Retry>, add: seq<Retry>, now: nat, window: nat): seq<Retry> {
    if add == [] then log else Recorded(log, add, Monus(now, window))
  }

  // ---------------------------------------------------------------- one request

  /** An attempt that is retried. */
  predicate Retries(r: Reading) {
    r.attempt == Transient && !r.pastDeadline && !r.cancelled
  }

  /** What an attempt that is not retried comes to; `last` when the budget is spent. */
  function Verdict(r: Reading, last: bool): Request {
    match r.attempt
    case Opened(s) => Streaming(s)
    case EndpointFailure => RequestFailover
    case BadRequest => RequestFatal
    case Aborted => RequestCancelled
    case Transient => if last || r.pastDeadline then RequestFailover else RequestCancelled
  }

  /** How many attempts from `first` on are retried, with `spare` retries left. */
  function Attempts(env: nat -> Reading, first: nat, spare: nat): (n: nat)
    ensures n <= spare
    decreases spare
  {
    if spare == 0 || !Retries(env(first)) then 0 else 1 + Attempts(env, first + 1, spare - 1)
  }

  /** Exactly the attempts before the one that decides are retried. */
  lemma {:induction false} AttemptsStop(env: nat -> Reading, first: nat, spare: nat)
    ensures var n := Attempts(env, first, spare);
            && (forall i :: first <= i < first + n ==> Retries(env(i)))
            && (n < spare ==> !Retries(env(first + n)))
    decreases spare
  {
    if spare > 0 && Retries(env(first)) { AttemptsStop(env, first + 1, spare - 1); }
  }

  /** The records of `n` retried attempts, stamped when each failed. */
  function Retried(env: nat -> Reading, first: nat, n: nat, e: string): (r: seq<Retry>)
    ensures |r| == n
  {
    if n == 0 then [] else Retried(env, first, n - 1, e) + [Retry(Some(e), env(first + n - 1).now)]
  }

  function Spare(w: World, log: seq<Retry>, e: string, now: nat): nat {
    Monus(w.max, Count(log, e, now, w.window))
  }

  /** Count the budget, send until an attempt decides, flush the records: the state after
      it and what the request came to. A request that cannot be prepared is never sent. */
  function SendStep(w: World, e: string, s: State): (State, Request) {
    if !w.env(s.tick + 1).prepared then (s.(tick := s.tick + 2), RequestFatal)
    else
      var spare := Spare(w, s.log, e, w.env(s.tick).now);
      var n := Attempts(w.env, s.tick + 1, spare);
      var flush := s.tick + n + 2;
      (State(After(s.log, Retried(w.env, s.tick + 1, n, e), w.env(flush).now, w.window), s.sent + n + 1, flush + 1, s.idx),
       Verdict(w.env(flush - 1), n == spare))
  }

  lemma Unprepared(w: World, e: string, s: State)
    requires !w.env(s.tick + 1).prepared
    ensures SendStep(w, e, s) == (s.(tick := s.tick + 2), RequestFatal)
  {
  }

  lemma Prepared(w: World, e: string, s: State, spare: nat, n: nat, t: State, result: Request)
    requires w.env(s.tick + 1).prepared && spare == Spare(w, s.log, e, w.env(s.tick).now)
    requires n == Attempts(w.env, s.tick + 1, spare) && result == Verdict(w.env(s.tick + n + 1), n == spare)
    requires t == State(After(s.log, Retried(w.env, s.tick + 1, n, e), w.env(s.tick + n + 2).now, w.window), s.sent + n + 1, s.tick + n + 3, s.idx)
    ensures SendStep(w, e, s) == (t, result)
  {
  }

  // ---------------------------------------------------------------- the loop

  /** `acquire_stream`, observed for at most `horizon` turns of its loop. */
  ghost function Acquire(w: World, s: State, horizon: nat): (r: (State, Result))
    requires s.idx < |w.ps|
    ensures s.idx <= r.0.idx < |w.ps| && s.tick <= r.0.tick && (horizon > 0 ==> s.tick < r.0.tick)
    decreases horizon, 4
  {
    if horizon == 0 then (s, StillTrying) else Round(w, s, horizon)
  }

  /** From the request of one turn on. */
  ghost function Round(w: World, s: State, horizon: nat): (r: (State, Result))
    requires s.idx < |w.ps| && horizon > 0
    ensures s.idx <= r.0.idx < |w.ps| && s.tick < r.0.tick
    decreases horizon, 3
  {
    var e := w.ps[s.idx].endpoint;
    var (t, request) := SendStep(w, e, s);
    Decide(w, e, t, request, horizon)
  }

  /** What a turn makes of its request. */
  ghost function Decide(w: World, e: string, s: State, request: Request, horizon: nat): (r: (State, Result))
    requires s.idx < |w.ps| && s.tick > 0 && horizon > 0
    ensures s.idx <= r.0.idx < |w.ps| && s.tick <= r.0.tick
    decreases horizon, 2
  {
    match request
    case RequestFatal => (s, Fatal)
    case RequestCancelled => (s, Result.Cancelled)
    case RequestFailover => Fail(w, s, w.env(s.tick - 1), horizon)
    case Streaming(Completed) => (s, Consumed)
    case Streaming(StreamCancelled) => (s, Result.Cancelled)
    case Streaming(Dropped) => Drop(w, e, s, horizon)
  }

  /** Failover on a reading: go round again at the least usable later profile, or end with the
      one reason there is none. */
  ghost function Fail(w: World, s: State, r: Reading, horizon: nat): (o: (State, Result))
    requires s.idx < |w.ps| && horizon > 0
    ensures s.idx <= o.0.idx < |w.ps| && s.tick <= o.0.tick
    decreases horizon, 0
  {
    var j := NextUsable(w.ps, s.idx + 1, w.builds, w.fits);
    if r.cancelled then (s, Result.Cancelled)
    else if j == |w.ps| then (s, Exhausted(ReasonFor(w.ps, s.idx, w.builds, w.fits)))
    else if r.compaction == OverBudget then (s.(idx := j), OverTokenBudget)
    else Acquire(w, s.(idx := j), horizon - 1)
  }

  /** A stream that dropped: one more retry of the shared budget, or failover. */
  ghost function Drop(w: World, e: string, s: State, horizon: nat): (o: (State, Result))
    requires s.idx < |w.ps| && horizon > 0
    ensures s.idx <= o.0.idx < |w.ps| && s.tick <= o.0.tick
    decreases horizon, 1
  {
    var r := w.env(s.tick);
    if Spare(w, s.log, e, r.now) == 0 then Fail(w, s.(tick := s.tick + 1), r, horizon)
    else if r.cancelled then (s.(tick := s.tick + 1), Result.Cancelled)
    else Acquire(w, Redone(w, e, s), horizon - 1)
  }

  /** The mid-stream retry on record. */
  function Redone(w: World, e: string, s: State): State {
    s.(log := After(s.log, [Retry(Some(e), w.env(s.tick).now)], w.env(s.tick + 1).now, w.window), tick := s.tick + 2)
  }
}
