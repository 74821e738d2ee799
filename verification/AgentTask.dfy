/**
 The agent task as the runtime writes it: a context whose fields the round loop, the
 heartbeat loop and the select loop update in place. Each method is proved against the
 step function of the same name in `AgentLoop`, whose properties are proved there; legal
 transitions are a precondition of `Transition`, so every call site discharges them.
 */
module AgentTask {
  import opened Options
  import opened AgentLoop

  class Agent {
    const cfg: Config
    var lifecycle: Lifecycle
    var waitUntil: Option<nat>
    var retryAt: Option<nat>
    var waitArmedSecs: nat
    var transientFails: nat
    var turns: seq<Turn>
    var trace: seq<Event>
    var path: seq<Lifecycle>
    var calls: seq<nat>

    ghost function View(): Ctx
      reads this
    {
      Ctx(lifecycle, waitUntil, retryAt, waitArmedSecs, transientFails, turns, trace, path, calls)
    }

    constructor (cfg: Config)
      ensures this.cfg == cfg && View() == Ctx(Idle, None, None, 0, 0, [], [], [], [])
      ensures Timed(View())
    {
      this.cfg := cfg;
      lifecycle, waitUntil, retryAt := Idle, None, None;
      waitArmedSecs, transientFails := 0, 0;
      turns, trace, path, calls := [], [], [], [];
    }

    method Transition(next: Lifecycle)
      requires Legal(lifecycle, next)
      modifies this`lifecycle, this`path
      ensures View() == Enter(old(View()), next)
    {
      lifecycle := next;
      path := path + [next];
    }

    method Send(e: Event)
      modifies this`trace
      ensures View() == Emit(old(View()), e)
    {
      trace := trace + [e];
    }

    method ArmWaitTimer(now: nat, secs: nat) returns (deadline: nat)
      modifies this`waitUntil, this`waitArmedSecs
      ensures deadline == now + secs && View() == ArmWait(old(View()), now, secs)
    {
      deadline := now + secs;
      waitUntil := Some(deadline);
      waitArmedSecs := secs;
    }

    /** The bounded `for` loop over tool rounds. */
    method RunAgentRounds(passes: nat -> Pass) returns (outcome: RoundOutcome, made: nat)
      modifies this`turns, this`trace
      ensures var r := RoundsFrom(cfg.maxToolRounds, passes, 0);
              && outcome == r.outcome && made == r.passes
              && turns == old(turns) + r.turns && trace == old(trace) + r.events
    {
      ghost var all := RoundsFrom(cfg.maxToolRounds, passes, 0);
      for round := 0 to cfg.maxToolRounds
        invariant RoundsTail(cfg.maxToolRounds, passes, round, all, turns, old(turns), trace, old(trace))
      {
        var p := passes(round);
        RoundsUnfold(cfg.maxToolRounds, passes, round, all, turns, old(turns), trace, old(trace));
        turns := turns + PassTurns(p);
        trace := trace + PassEvents(p);
        var o := PassOutcome(p);
        if o.Some? {
          return o.value, round + 1;
        }
      }
      return ParkNow(ParkMaxRounds), cfg.maxToolRounds;
    }

    /** The match arms of `run_and_report` that return. */
    method Settle(o: RoundOutcome, now: nat, cancelled: bool) returns (terminate: bool)
      requires lifecycle.Running?
      modifies this
      ensures (View(), terminate) == Conclude(cfg, old(View()), o, now, cancelled)
    {
      if o.ParkNow? && o.park.ParkChain? {
        terminate := SettleChain(o.park.detail, now);
        return;
      }
      transientFails := 0;
      terminate := false;
      match o
      case Break(UntilIdle) => Transition(Idle); Send(WentIdle);
      case Break(UntilWait(secs)) =>
        var deadline := ArmWaitTimer(now, secs);
        Transition(Waiting(deadline));
        Send(WentWaiting(secs));
      case BareAssistant(_) => Transition(Idle); Send(WentIdle);
      case ParkNow(ParkCancelled) =>
        if cancelled {
          Send(Cancelled);
          terminate := true;
        } else {
          Send(Interrupted);
          Transition(Idle);
        }
      case ParkNow(ParkBudget) =>
        Send(TokenBudgetExceeded);
        var deadline := ArmWaitTimer(now, DEFAULT_BREAK_TIMEOUT_SECS);
        Transition(Waiting(deadline));
      case ParkNow(ParkMaxRounds) => Transition(Parked(MaxRounds)); Send(MaxRoundsExceeded);
      case ParkNow(ParkIdle) => Transition(Idle); Send(WentIdle);
      case ParkNow(ParkChain(_)) => assert false;
      case Failed(message) => Transition(Parked(FatalError(message))); Send(Error(message));
    }

    /** The chain-exhausted arm: schedule a timed retry, or park once the budget is spent. */
    method SettleChain(detail: string, now: nat) returns (terminate: bool)
      requires lifecycle.Running?
      modifies this
      ensures (View(), terminate) == Conclude(cfg, old(View()), ParkNow(ParkChain(detail)), now, false)
    {
      transientFails := SaturatingInc(transientFails);
      terminate := false;
      if transientFails <= cfg.maxTransient {
        var deadline := now + cfg.backoff(transientFails - 1);
        retryAt := Some(deadline);
        Send(ChainExhausted(detail, true));
        Transition(Retrying(transientFails, cfg.maxTransient, deadline));
      } else {
        Send(ChainExhausted(detail, false));
        Transition(Parked(TransientRetryExhausted));
      }
    }

    /** The heartbeat loop. */
    method RunAndReport(rounds: nat -> Call) returns (terminate: bool)
      requires !lifecycle.Running?
      modifies this
      ensures (View(), terminate) == AgentLoop.RunAndReport(cfg, old(View()), rounds)
    {
      Transition(Running);
      var noProgress := 0;
      while true
        invariant lifecycle.Running? && noProgress <= cfg.maxHeartbeats
        invariant RunFrom(cfg, View(), rounds, noProgress) == AgentLoop.RunAndReport(cfg, old(View()), rounds)
        decreases cfg.maxHeartbeats - noProgress
      {
        ghost var before := View();
        var call := rounds(noProgress);
        Send(Busy);
        var outcome, made := RunAgentRounds(call.passes);
        calls := calls + [made];
        assert (View(), outcome) == CallRounds(cfg, before, call);
        if outcome.BareAssistant? && noProgress + 1 <= cfg.maxHeartbeats {
          noProgress := noProgress + 1;
          transientFails := 0;
          turns := turns + [Assistant(outcome.content), Heartbeat];
        } else {
          terminate := Settle(outcome, call.now, call.cancelled);
          return;
        }
      }
    }

    /** One resolved arm of the select loop; `ended` leaves the loop. */
    method HandleWake(w: Wake) returns (ended: bool)
      requires !lifecycle.Running?
      modifies this
      ensures (View(), ended) == Handle(cfg, false, old(View()), w)
      ensures !ended ==> !lifecycle.Running?
    {
      RunsEndOutsideRunning(cfg);
      ended := false;
      match w
      case Prompt(text, run, inbox, drainRun) =>
        retryAt, waitUntil := None, None;
        turns := turns + [Message(text)];
        ended := RunAndReport(run);
        if !ended && inbox.Some? {
          turns := turns + [Message(inbox.value)];
          ended := RunAndReport(drainRun);
        }
      case PromptClosed => ended := true;
      case LifecycleCancel =>
        Send(Cancelled);
        ended := true;
      case Notify(inbox, approvals, run) =>
        if !lifecycle.Parked? {
          if inbox.Some? { turns := turns + [Message(inbox.value)]; }
          if inbox.Some? || approvals {
            retryAt, waitUntil := None, None;
            ended := RunAndReport(run);
          }
        }
      case RetryPermit(now, run) =>
        if retryAt.Some? && retryAt.value <= now {
          retryAt := None;
          ended := RunAndReport(run);
        }
      case WaitPermit(now, overBudget, run) =>
        if waitUntil.Some? && waitUntil.value <= now {
          waitUntil := None;
          if !overBudget { turns := turns + [WaitElapsed(waitArmedSecs)]; }
          ended := RunAndReport(run);
        }
    }

    /** The select loop over the arms that resolve, in order. */
    method Serve(wakes: seq<Wake>) returns (ended: bool)
      requires !lifecycle.Running?
      modifies this
      ensures (View(), ended) == HandleAll(cfg, false, old(View()), wakes)
    {
      ended := false;
      var i := 0;
      while i < |wakes| && !ended
        invariant 0 <= i <= |wakes|
        invariant !ended ==> !lifecycle.Running?
        invariant HandleAll(cfg, false, old(View()), wakes) ==
                  if ended then (View(), true) else HandleAll(cfg, false, View(), wakes[i..])
      {
        assert wakes[i..][1..] == wakes[i + 1..];
        ended := HandleWake(wakes[i]);
        i := i + 1;
      }
    }

    /** The whole task, from its first prompt on. */
    method LiveOut(start: Start, wakes: seq<Wake>) returns (ended: bool)
      requires !lifecycle.Running?
      modifies this
      ensures (View(), ended) == Live(cfg, false, old(View()), start, wakes)
    {
      if start.FirstPrompt? {
        if start.text == "" {
          return true;
        }
        turns := turns + [Message(start.text)];
        RunsEndOutsideRunning(cfg);
        ended := RunAndReport(start.run);
        if ended {
          return;
        }
      }
      ended := Serve(wakes);
    }
  }

  /** The turns and events written so far, followed by those of the passes still to come,
      are those of the whole loop. */
  ghost predicate RoundsTail(max: nat, passes: nat -> Pass, i: nat, all: Rounds,
                             turns: seq<Turn>, turns0: seq<Turn>, trace: seq<Event>, trace0: seq<Event>)
  {
    && i <= max
    && var rest := RoundsFrom(max, passes, i);
    && all.outcome == rest.outcome && all.passes == i + rest.passes
    && turns0 + all.turns == turns + rest.turns
    && trace0 + all.events == trace + rest.events
  }

  lemma RoundsUnfold(max: nat, passes: nat -> Pass, i: nat, all: Rounds,
                     turns: seq<Turn>, turns0: seq<Turn>, trace: seq<Event>, trace0: seq<Event>)
    requires i < max && RoundsTail(max, passes, i, all, turns, turns0, trace, trace0)
    ensures var p := passes(i);
            var o := PassOutcome(p);
            if o.Some?
            then all.outcome == o.value && all.passes == i + 1
                 && turns0 + all.turns == turns + PassTurns(p) && trace0 + all.events == trace + PassEvents(p)
            else RoundsTail(max, passes, i + 1, all, turns + PassTurns(p), turns0, trace + PassEvents(p), trace0)
  {
    var p := passes(i);
    if PassOutcome(p).None? {
      var next := RoundsFrom(max, passes, i + 1);
      assert turns + (PassTurns(p) + next.turns) == (turns + PassTurns(p)) + next.turns;
      assert trace + (PassEvents(p) + next.events) == (trace + PassEvents(p)) + next.events;
    }
  }

  lemma RunsEndOutsideRunning(cfg: Config)
    ensures forall c: Ctx, run: nat -> Call {:trigger AgentLoop.RunAndReport(cfg, c, run)} ::
              var (d, terminate) := AgentLoop.RunAndReport(cfg, c, run); !terminate ==> !d.lifecycle.Running?
  {
    forall c: Ctx, run: nat -> Call
      ensures var (d, terminate) := AgentLoop.RunAndReport(cfg, c, run); !terminate ==> !d.lifecycle.Running?
    {
      RunTimers(cfg, c, run);
    }
  }
}
