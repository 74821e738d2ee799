/**
 The acquisition loops as they update the agent: the retry log, the requests sent and the
 failover chain, against the specification of the run.
 */
module Acquirer {
  import opened Options
  import opened RetryBudget
  import opened Failover
  import opened Acquisition

  class StreamAcquirer {
    const chain: Chain
    const max: nat
    const window: nat
    var log: seq<Retry>
    var sent: nat
    var tick: nat

    constructor (chain: Chain, max: nat, window: nat, log: seq<Retry>)
      ensures this.chain == chain && this.max == max && this.window == window
      ensures this.log == log && sent == 0 && tick == 0
    {
      this.chain := chain;
      this.max := max;
      this.window := window;
      this.log := log;
      sent, tick := 0, 0;
    }

    ghost function View(): State
      reads this, chain
    {
      State(log, sent, tick, chain.idx)
    }

    /** The surroundings of a call on this agent. */
    ghost predicate Serves(w: World)
      reads this, chain
    {
      w == World(chain.profiles, w.builds, w.fits, max, window, w.env) && chain.Valid()
    }

    /** `record_retries` as a flush or as the single append of a mid-stream retry. */
    method Record(add: seq<Retry>, now: nat)
      modifies this`log
      ensures log == After(old(log), add, now, window)
    {
      if add != [] {
        log := Recorded(log, add, Monus(now, window));
      }
    }

    /** Attempts until one decides: the retried ones are buffered as records. */
    method RetryLoop(env: nat -> Reading, spare: nat, e: string) returns (result: Request, records: seq<Retry>)
      modifies this`tick, this`sent
      ensures var n := Attempts(env, old(tick), spare);
              && records == Retried(env, old(tick), n, e) && result == Verdict(env(old(tick) + n), n == spare)
              && tick == old(tick) + n + 1 && sent == old(sent) + n + 1
    {
      records := [];
      var attempt := 1;
      while true
        invariant 1 <= attempt <= spare + 1
        invariant records == Retried(env, old(tick), attempt - 1, e)
        invariant Attempts(env, old(tick), spare) == attempt - 1 + Attempts(env, tick, spare + 1 - attempt)
        invariant tick == old(tick) + attempt - 1 && sent == old(sent) + attempt - 1
        decreases spare + 1 - attempt
      {
        var r := env(tick);
        tick, sent := tick + 1, sent + 1;
        match r.attempt {
          case Opened(s) => return Streaming(s), records;
          case EndpointFailure => return RequestFailover, records;
          case BadRequest => return RequestFatal, records;
          case Aborted => return RequestCancelled, records;
          case Transient =>
            if attempt == spare + 1 || r.pastDeadline {
              return RequestFailover, records;
            }
            if r.cancelled {
              return RequestCancelled, records;
            }
            records := records + [Retry(Some(e), r.now)];
            attempt := attempt + 1;
        }
      }
    }

    method SendAndFlush(env: nat -> Reading, spare: nat, e: string) returns (result: Request, ghost n: nat)
      modifies this`log, this`tick, this`sent
      ensures n == Attempts(env, old(tick), spare) && result == Verdict(env(old(tick) + n), n == spare)
      ensures log == After(old(log), Retried(env, old(tick), n, e), env(old(tick) + n + 1).now, window)
      ensures tick == old(tick) + n + 2 && sent == old(sent) + n + 1
    {
      var records;
      result, records := RetryLoop(env, spare, e);
      n := |records|;
      Record(records, env(tick).now);
      tick := tick + 1;
    }

    /** `stream_with_retry` between the budget count and the flush of its records. */
    method StreamWithRetry(env: nat -> Reading, e: string, ghost w: World) returns (result: Request)
      requires Serves(w) && w.env == env
      modifies this`log, this`tick, this`sent
      ensures (View(), result) == SendStep(w, e, old(View()))
    {
      ghost var before := View();
      var spare := Monus(max, Count(log, e, env(tick).now, window));
      tick := tick + 1;
      if !env(tick).prepared {
        tick := tick + 1;
        Unprepared(w, e, before);
        return RequestFatal;
      }
      assert spare == Spare(w, before.log, e, w.env(before.tick).now);
      ghost var n;
      result, n := SendAndFlush(env, spare, e);
      Prepared(w, e, before, spare, n, View(), result);
    }

    /** Failover: what is left of the call goes on at the least usable later profile, or ends
        for the one right reason. */
    method StepFailover(r: Reading, builds: Profile -> bool, fits: nat -> bool, ghost w: World, ghost horizon: nat)
      returns (done: Option<Result>)
      requires Serves(w) && w.builds == builds && w.fits == fits && horizon > 0
      modifies chain
      ensures Serves(w) && (chain.idx > old(chain.idx) ==> chain.Agrees())
      ensures Fail(w, old(View()), r, horizon)
              == if done == None then Acquire(w, View(), horizon - 1) else (View(), done.value)
    {
      TargetIsNextUsable(chain.profiles, chain.idx, builds, fits);
      var outcome := chain.AdvanceFailover(r.cancelled, builds, fits, r.compaction);
      match outcome {
        case Advanced(_, _, _) => done := None;
        case ChainExhausted(reason) => done := Some(Exhausted(reason));
        case Cancelled => done := Some(Result.Cancelled);
        case BudgetExceeded => done := Some(OverTokenBudget);
      }
    }

    /** A stream that dropped: spend one more retry of the shared budget, or fail over. */
    method MidStream(env: nat -> Reading, e: string, builds: Profile -> bool, fits: nat -> bool, ghost w: World, ghost horizon: nat)
      returns (done: Option<Result>)
      requires Serves(w) && w.env == env && w.builds == builds && w.fits == fits && horizon > 0
      modifies this`log, this`tick, chain
      ensures Serves(w)
      ensures Drop(w, e, old(View()), horizon)
              == if done == None then Acquire(w, View(), horizon - 1) else (View(), done.value)
    {
      var r := env(tick);
      tick := tick + 1;
      var prior := Count(log, e, r.now, window);
      if prior >= max {
        done := StepFailover(r, builds, fits, w, horizon);
      } else if r.cancelled {
        done := Some(Result.Cancelled);
      } else {
        var now := env(tick).now;
        tick := tick + 1;
        Record([Retry(Some(e), r.now)], now);
        done := None;
      }
    }

    /** What a turn makes of its request; `None` means go round again. */
    method Settle(env: nat -> Reading, e: string, request: Request, builds: Profile -> bool, fits: nat -> bool,
                  ghost w: World, ghost horizon: nat)
      returns (done: Option<Result>)
      requires Serves(w) && w.env == env && w.builds == builds && w.fits == fits && horizon > 0 && tick > 0
      modifies this`log, this`tick, chain
      ensures Serves(w)
      ensures Decide(w, e, old(View()), request, horizon)
              == if done == None then Acquire(w, View(), horizon - 1) else (View(), done.value)
    {
      match request {
        case RequestFatal => done := Some(Fatal);
        case RequestCancelled => done := Some(Result.Cancelled);
        case RequestFailover => done := StepFailover(env(tick - 1), builds, fits, w, horizon);
        case Streaming(Completed) => done := Some(Consumed);
        case Streaming(StreamCancelled) => done := Some(Result.Cancelled);
        case Streaming(Dropped) => done := MidStream(env, e, builds, fits, w, horizon);
      }
    }

    /** One turn of the loop. */
    method AcquireOnce(env: nat -> Reading, builds: Profile -> bool, fits: nat -> bool, ghost w: World, ghost horizon: nat)
      returns (done: Option<Result>)
      requires Serves(w) && w.env == env && w.builds == builds && w.fits == fits && horizon > 0
      modifies this`log, this`tick, this`sent, chain
      ensures Serves(w)
      ensures Acquire(w, old(View()), horizon)
              == if done == None then Acquire(w, View(), horizon - 1) else (View(), done.value)
    {
      ghost var before := View();
      var e := chain.profiles[chain.idx].endpoint;
      var request := StreamWithRetry(env, e, w);
      assert Acquire(w, before, horizon) == Round(w, before, horizon) == Decide(w, e, View(), request, horizon);
      done := Settle(env, e, request, builds, fits, w, horizon);
    }

    /** `acquire_stream`, observed for at most `horizon` turns of its loop. */
    method AcquireStream(env: nat -> Reading, builds: Profile -> bool, fits: nat -> bool, horizon: nat, ghost w: World)
      returns (result: Result)
      requires Serves(w) && w.env == env && w.builds == builds && w.fits == fits
      modifies this`log, this`tick, this`sent, chain
      ensures Serves(w) && (View(), result) == Acquire(w, old(View()), horizon)
    {
      var turn := 0;
      while turn < horizon
        invariant turn <= horizon && Serves(w)
        invariant Acquire(w, View(), horizon - turn) == Acquire(w, old(View()), horizon)
      {
        var done := AcquireOnce(env, builds, fits, w, horizon - turn);
        if done.Some? {
          return done.value;
        }
        turn := turn + 1;
      }
      result := StillTrying;
    }
  }
}
