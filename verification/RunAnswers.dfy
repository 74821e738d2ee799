/**
 What a run of the agent answers, read off its calls alone: which event it ends on, which
 state it lands in, what it records on the way, and which messages whole lives record.
 */
module RunAnswers {
  import opened Options
  import opened AgentLoop

  // ---------------------------------------------------------------- one pass

  /** What one check of a pass says: go on to the next check, start the next pass, or end. */
  datatype Check = GoOn | NextPass | End(outcome: RoundOutcome)

  function GateCheck(g: Gate): Check {
    match g
    case Proceed => GoOn
    case Recompose => NextPass
    case Return(park) => End(ParkNow(park))
  }

  const CHECKS: nat := 7

  /** The checks in the order they are made: token budget, cancelled estimate, budget before the
      call, acquisition, budget after the stream, a response without calls, the tool round. */
  function CheckAt(p: Pass, k: nat): Check {
    match k
    case 0 => if p.overBudget then End(ParkNow(ParkBudget)) else GoOn
    case 1 => if p.estimateCancelled then End(ParkNow(ParkCancelled)) else GoOn
    case 2 => GateCheck(p.preCall)
    case 3 =>
      (match p.acquired
       case Consumed(_, _) => GoOn
       case Ended(park) => End(ParkNow(park))
       case AcquireError(message) => End(Failed(message)))
    case 4 => GateCheck(p.postStream)
    case 5 =>
      (match p.acquired
       case Consumed(content, false) => if content == "" then End(Failed(EMPTY_RESPONSE)) else End(BareAssistant(content))
       case _ => GoOn)
    case _ =>
      match p.tools
      case Results(_) => NextPass
      case BrokeOff(_, until) => End(Break(until))
      case ToolCancelled => End(ParkNow(ParkCancelled))
  }

  /** The checks before `k` let the pass go on. */
  ghost predicate Reaches(p: Pass, k: nat) {
    forall j: nat :: j < k ==> CheckAt(p, j) == GoOn
  }

  /** The first check that does not let the pass go on decides it; a request is out, and events
      are sent, from acquisition on. Interjections are recorded before any check, notices once the
      budget allows a call, and the tool turn when the round comes to it uncancelled. */
  lemma FirstCheckDecides(p: Pass, k: nat)
    requires k < CHECKS && Reaches(p, k) && CheckAt(p, k) != GoOn
    ensures PassOutcome(p) == if CheckAt(p, k).End? then Some(CheckAt(p, k).outcome) else None
    ensures PassEvents(p) == if k >= 3 then Sent(p.emissions) else []
    ensures PassTurns(p) == (if p.interjections != [] then [Interjected(p.interjections)] else [])
                            + (if k > 0 && p.notices != [] then [Notices(p.notices)] else [])
                            + (if k == 6 && p.tools != ToolCancelled then [Tools(p.tools.turn)] else [])
  {
    assert forall j: nat :: j < k ==> CheckAt(p, j) == GoOn;
    assert k > 0 ==> CheckAt(p, 0) == GoOn;
    assert k > 1 ==> CheckAt(p, 1) == GoOn;
    assert k > 2 ==> CheckAt(p, 2) == GoOn;
    assert k > 3 ==> CheckAt(p, 3) == GoOn;
    assert k > 4 ==> CheckAt(p, 4) == GoOn;
    assert k > 5 ==> CheckAt(p, 5) == GoOn;
  }

  /** Some check always decides. */
  lemma SomeCheckDecides(p: Pass) returns (k: nat)
    ensures k < CHECKS && Reaches(p, k) && CheckAt(p, k) != GoOn
  {
    k := 0;
    while k + 1 < CHECKS && CheckAt(p, k) == GoOn
      invariant k < CHECKS && Reaches(p, k)
    {
      k := k + 1;
    }
  }

  // ---------------------------------------------------------------- one call of the round loop

  function PassesTurns(passes: nat -> Pass, i: nat, n: nat): seq<Turn>
    decreases n
  {
    if n == 0 then [] else PassTurns(passes(i)) + PassesTurns(passes, i + 1, n - 1)
  }

  function PassesEvents(passes: nat -> Pass, i: nat, n: nat): seq<Event>
    decreases n
  {
    if n == 0 then [] else PassEvents(passes(i)) + PassesEvents(passes, i + 1, n - 1)
  }

  /** The loop records and sends what its passes do, up to and with the one that ends it. */
  lemma {:induction false} RoundsRecord(max: nat, passes: nat -> Pass, i: nat)
    requires i <= max
    ensures var r := RoundsFrom(max, passes, i);
            && r.turns == PassesTurns(passes, i, r.passes) && r.events == PassesEvents(passes, i, r.passes)
            && Bounded(max, passes, i, r.passes, r.outcome)
    decreases max - i
  {
    RoundsAreBounded(max, passes, i);
    if i < max && PassOutcome(passes(i)).None? {
      RoundsRecord(max, passes, i + 1);
    } else if i < max {
      assert PassesTurns(passes, i + 1, 0) == [] && PassesEvents(passes, i + 1, 0) == [];
    }
  }

  // ---------------------------------------------------------------- one run

  function CallTurns(cfg: Config, call: Call): seq<Turn> {
    RoundsFrom(cfg.maxToolRounds, call.passes, 0).turns
  }

  function CallEvents(cfg: Config, call: Call): seq<Event> {
    [Busy] + RoundsFrom(cfg.maxToolRounds, call.passes, 0).events
  }

  /** The turns of calls `k` to `n`, every bare response but the last with its heartbeat. */
  function RunTurns(cfg: Config, run: nat -> Call, k: nat, n: nat): seq<Turn>
    decreases n - k
  {
    if k >= n then CallTurns(cfg, run(n))
    else
      var o := CallOutcome(cfg, run(k));
      CallTurns(cfg, run(k)) + (if o.BareAssistant? then [Assistant(o.content), Heartbeat] else []) + RunTurns(cfg, run, k + 1, n)
  }

  function RunEvents(cfg: Config, run: nat -> Call, k: nat, n: nat): seq<Event>
    decreases n - k
  {
    if k >= n then CallEvents(cfg, run(n)) else CallEvents(cfg, run(k)) + RunEvents(cfg, run, k + 1, n)
  }

  /** Where a run ends up: its last event, the state entered for it, whether the task ends, and
      the chain failures in a row from then on. */
  datatype Landing = Landing(event: Event, state: Lifecycle, terminate: bool, fails: nat)

  /** How a run lands, given what its last call came to and the chain failures in a row before
      that call. A token budget that is spent and a `break` without a timeout both wait ten
      minutes; the chain is retried while the failures are within the configured number. */
  function LandingOf(cfg: Config, o: RoundOutcome, fails: nat, now: nat, cancelled: bool): Landing {
    match o
    case Break(UntilIdle) => Landing(WentIdle, Idle, false, 0)
    case Break(UntilWait(secs)) => Landing(WentWaiting(secs), Waiting(now + secs), false, 0)
    case BareAssistant(_) => Landing(WentIdle, Idle, false, 0)
    case Failed(message) => Landing(Error(message), Parked(FatalError(message)), false, 0)
    case ParkNow(ParkIdle) => Landing(WentIdle, Idle, false, 0)
    case ParkNow(ParkCancelled) =>
      if cancelled then Landing(Cancelled, Running, true, 0) else Landing(Interrupted, Idle, false, 0)
    case ParkNow(ParkMaxRounds) => Landing(MaxRoundsExceeded, Parked(MaxRounds), false, 0)
    case ParkNow(ParkBudget) => Landing(TokenBudgetExceeded, Waiting(now + 600), false, 0)
    case ParkNow(ParkChain(detail)) =>
      var n := if fails < U32_MAX then fails + 1 else U32_MAX;
      if n <= cfg.maxTransient
      then Landing(ChainExhausted(detail, true), Retrying(n, cfg.maxTransient, now + cfg.backoff(n - 1)), false, n)
      else Landing(ChainExhausted(detail, false), Parked(TransientRetryExhausted), false, n)
  }

  /** The timer a landing arms is told by its state, and how long a wait is armed for by its
      event. */
  function ArmedSecs(at: Landing, before: nat): nat {
    match at.event
    case WentWaiting(secs) => secs
    case TokenBudgetExceeded => 600
    case _ => before
  }

  /** `d` is `c` after a run that made `calls`, recorded `turns`, sent `events` and landed there. */
  ghost predicate Landed(c: Ctx, d: Ctx, terminate: bool, turns: seq<Turn>, events: seq<Event>, at: Landing) {
    && d.turns == c.turns + turns
    && d.trace == c.trace + events + [at.event]
    && d.lifecycle == at.state && terminate == at.terminate && d.transientFails == at.fails
    && d.waitArmedSecs == ArmedSecs(at, c.waitArmedSecs)
  }

  lemma ConcludeLands(cfg: Config, c: Ctx, o: RoundOutcome, now: nat, cancelled: bool)
    requires c.lifecycle.Running?
    ensures var (d, terminate) := Conclude(cfg, c, o, now, cancelled);
            Landed(c, d, terminate, [], [], LandingOf(cfg, o, c.transientFails, now, cancelled))
  {
  }

  lemma CallLands(cfg: Config, c: Ctx, call: Call, c1: Ctx, o: RoundOutcome, d: Ctx, terminate: bool, at: Landing)
    requires (c1, o) == CallRounds(cfg, c, call) && Landed(c1, d, terminate, [], [], at)
    ensures Landed(c, d, terminate, CallTurns(cfg, call), CallEvents(cfg, call), at)
  {
  }

  lemma LandsLater(c: Ctx, mid: Ctx, d: Ctx, terminate: bool, turns0: seq<Turn>, events0: seq<Event>,
                   turns: seq<Turn>, events: seq<Event>, at: Landing)
    requires mid.turns == c.turns + turns0 && mid.trace == c.trace + events0 && mid.waitArmedSecs == c.waitArmedSecs
    requires Landed(mid, d, terminate, turns, events, at)
    ensures Landed(c, d, terminate, turns0 + turns, events0 + events, at)
  {
  }

  lemma HeartbeatLands(cfg: Config, c: Ctx, call: Call, c1: Ctx, o: RoundOutcome, d: Ctx, terminate: bool,
                       turns: seq<Turn>, events: seq<Event>, at: Landing)
    requires (c1, o) == CallRounds(cfg, c, call) && o.BareAssistant?
    requires Landed(AfterHeartbeat(c1, o.content), d, terminate, turns, events, at)
    ensures Landed(c, d, terminate, CallTurns(cfg, call) + [Assistant(o.content), Heartbeat] + turns, CallEvents(cfg, call) + events, at)
  {
    LandsLater(c, AfterHeartbeat(c1, o.content), d, terminate, CallTurns(cfg, call) + [Assistant(o.content), Heartbeat],
               CallEvents(cfg, call), turns, events, at);
  }

  lemma {:induction false} RunFromLands(cfg: Config, c: Ctx, run: nat -> Call, k: nat, d: Ctx, terminate: bool, n: nat, at: Landing)
    requires k <= cfg.maxHeartbeats && c.lifecycle.Running?
    requires (d, terminate) == RunFrom(cfg, c, run, k) && n == LastCall(cfg, run, k)
    requires at == LandingOf(cfg, CallOutcome(cfg, run(n)), if n == k then c.transientFails else 0, run(n).now, run(n).cancelled)
    ensures Landed(c, d, terminate, RunTurns(cfg, run, k, n), RunEvents(cfg, run, k, n), at)
    decreases cfg.maxHeartbeats - k
  {
    var call := run(k);
    var c1, o := CallRounds(cfg, c, call).0, CallRounds(cfg, c, call).1;
    RunUnfolds(cfg, c, run, k, (d, terminate), c1, o);
    if o.BareAssistant? && k + 1 <= cfg.maxHeartbeats {
      LastCallMoves(cfg, run, k + 1);
      RunFromLands(cfg, AfterHeartbeat(c1, o.content), run, k + 1, d, terminate, n, at);
      HeartbeatLands(cfg, c, call, c1, o, d, terminate, RunTurns(cfg, run, k + 1, n), RunEvents(cfg, run, k + 1, n), at);
    } else {
      ConcludeLands(cfg, c1, o, call.now, call.cancelled);
      CallLands(cfg, c, call, c1, o, d, terminate, at);
    }
  }

  function TurnsOfRun(cfg: Config, run: nat -> Call): seq<Turn> {
    RunTurns(cfg, run, 0, LastCall(cfg, run, 0))
  }

  function EventsOfRun(cfg: Config, run: nat -> Call): seq<Event> {
    RunEvents(cfg, run, 0, LastCall(cfg, run, 0))
  }

  function LandingFrom(cfg: Config, fails: nat, run: nat -> Call): Landing {
    var n := LastCall(cfg, run, 0);
    LandingOf(cfg, CallOutcome(cfg, run(n)), if n == 0 then fails else 0, run(n).now, run(n).cancelled)
  }

  /** Every run, whatever it started from: the calls up to the concluding one leave their turns
      and events, and the concluding call's outcome, clock and cancellation decide where it
      lands. */
  lemma RunLands(cfg: Config, c: Ctx, run: nat -> Call)
    ensures var (d, terminate) := RunAndReport(cfg, c, run);
            Landed(c, d, terminate, TurnsOfRun(cfg, run), EventsOfRun(cfg, run), LandingFrom(cfg, c.transientFails, run))
  {
    var (d, terminate) := RunAndReport(cfg, c, run);
    RunFromLands(cfg, Enter(c, Running), run, 0, d, terminate, LastCall(cfg, run, 0), LandingFrom(cfg, c.transientFails, run));
  }

  /** The concluding call is the first that is not a bare response, or the one past the limit. */
  lemma {:induction false} LastCallIs(cfg: Config, run: nat -> Call, k: nat)
    requires k <= cfg.maxHeartbeats
    ensures var n := LastCall(cfg, run, k);
            && k <= n <= cfg.maxHeartbeats
            && (forall j: nat :: k <= j < n ==> CallOutcome(cfg, run(j)).BareAssistant?)
            && (CallOutcome(cfg, run(n)).BareAssistant? ==> n == cfg.maxHeartbeats)
    decreases cfg.maxHeartbeats - k
  {
    if CallOutcome(cfg, run(k)).BareAssistant? && k + 1 <= cfg.maxHeartbeats { LastCallIs(cfg, run, k + 1); }
  }

  // ---------------------------------------------------------------- one arm of the select loop

  /** The arm starts a run. */
  predicate Starts(c: Ctx, w: Wake) {
    match w
    case Prompt(_, _, _, _) => true
    case Notify(inbox, approvals, _) => !c.lifecycle.Parked? && (inbox.Some? || approvals)
    case RetryPermit(now, _) => c.retryAt.Some? && c.retryAt.value <= now
    case WaitPermit(now, _, _) => c.waitUntil.Some? && c.waitUntil.value <= now
    case _ => false
  }

  /** The messages an arm takes from a prompt or pulls from the inbox, in order. A parked agent
      pulls nothing on a notify, and nothing is pulled behind a run that ends the task. */
  function Hears(cfg: Config, c: Ctx, w: Wake): seq<string> {
    match w
    case Prompt(text, run, inbox, _) =>
      [text] + if inbox.Some? && !LandingFrom(cfg, c.transientFails, run).terminate then [inbox.value] else []
    case Notify(inbox, _, _) => if inbox.Some? && !c.lifecycle.Parked? then [inbox.value] else []
    case _ => []
  }

  /** The turns an arm records, its runs included. */
  function ArmTurns(cfg: Config, c: Ctx, w: Wake): seq<Turn> {
    match w
    case Prompt(text, run, inbox, drainRun) =>
      var first := [Message(text)] + TurnsOfRun(cfg, run);
      if |Hears(cfg, c, w)| == 2 then first + ([Message(inbox.value)] + TurnsOfRun(cfg, drainRun)) else first
    case Notify(inbox, _, run) =>
      (if Hears(cfg, c, w) != [] then [Message(inbox.value)] else []) + if Starts(c, w) then TurnsOfRun(cfg, run) else []
    case RetryPermit(_, run) => if Starts(c, w) then TurnsOfRun(cfg, run) else []
    case WaitPermit(_, overBudget, run) =>
      if Starts(c, w) then (if overBudget then [] else [WaitElapsed(c.waitArmedSecs)]) + TurnsOfRun(cfg, run) else []
    case _ => []
  }

  /** Where the last run of an arm lands. */
  function ArmLanding(cfg: Config, c: Ctx, w: Wake): Landing
    requires Starts(c, w)
  {
    match w
    case Prompt(_, run, _, drainRun) =>
      var first := LandingFrom(cfg, c.transientFails, run);
      if |Hears(cfg, c, w)| == 2 then LandingFrom(cfg, first.fails, drainRun) else first
    case Notify(_, _, run) => LandingFrom(cfg, c.transientFails, run)
    case RetryPermit(_, run) => LandingFrom(cfg, c.transientFails, run)
    case WaitPermit(_, _, run) => LandingFrom(cfg, c.transientFails, run)
  }

  predicate EndsOn(trace: seq<Event>, e: Event) {
    trace != [] && trace[|trace| - 1] == e
  }

  /** `d` is `c` after an arm that recorded `turns` and landed there. */
  ghost predicate Ran(c: Ctx, d: Ctx, ended: bool, turns: seq<Turn>, at: Landing) {
    && d.turns == c.turns + turns && ended == at.terminate
    && d.lifecycle == at.state && d.transientFails == at.fails && EndsOn(d.trace, at.event)
  }

  /** What an arm records in front of a run, and the run. */
  lemma RunBehind(cfg: Config, c: Ctx, e: Ctx, before: seq<Turn>, run: nat -> Call, d: Ctx, ended: bool)
    requires e.turns == c.turns + before && e.transientFails == c.transientFails
    requires (d, ended) == RunAndReport(cfg, e, run)
    ensures Ran(c, d, ended, before + TurnsOfRun(cfg, run), LandingFrom(cfg, c.transientFails, run))
  {
    RunLands(cfg, e, run);
    Reassociate(c.turns, before, TurnsOfRun(cfg, run));
  }

  lemma RanThen(c: Ctx, c1: Ctx, d: Ctx, ended: bool, a: seq<Turn>, b: seq<Turn>, first: Landing, at: Landing)
    requires Ran(c, c1, false, a, first) && Ran(c1, d, ended, b, at)
    ensures Ran(c, d, ended, a + b, at)
  {
  }

  lemma PromptLands(cfg: Config, clears: bool, c: Ctx, w: Wake)
    requires w.Prompt?
    ensures var (d, ended) := Handle(cfg, clears, c, w); Ran(c, d, ended, ArmTurns(cfg, c, w), ArmLanding(cfg, c, w))
  {
    var (c1, terminate) := PromptRun(cfg, c, w);
    RunBehind(cfg, c, Record(ClearTimers(c), Message(w.text)), [Message(w.text)], w.run, c1, terminate);
    if !terminate && w.inbox.Some? {
      var (d, ended) := Drain(cfg, c1, w, clears);
      RunBehind(cfg, c1, Record(if clears then ClearTimers(c1) else c1, Message(w.inbox.value)), [Message(w.inbox.value)],
                w.drainRun, d, ended);
      RanThen(c, c1, d, ended, [Message(w.text)] + TurnsOfRun(cfg, w.run), [Message(w.inbox.value)] + TurnsOfRun(cfg, w.drainRun),
              LandingFrom(cfg, c.transientFails, w.run), LandingFrom(cfg, c1.transientFails, w.drainRun));
    }
  }

  /** An arm that starts a run records what it hears, then what its runs record, and lands where
      the last of them lands; any other arm leaves the agent as it is, save that a cancel is
      announced and ends the task, as a closed prompt channel does. */
  lemma ArmLands(cfg: Config, clears: bool, c: Ctx, w: Wake)
    ensures var (d, ended) := Handle(cfg, clears, c, w);
            if Starts(c, w)
            then Ran(c, d, ended, ArmTurns(cfg, c, w), ArmLanding(cfg, c, w))
            else && d == (if w.LifecycleCancel? then c.(trace := c.trace + [Cancelled]) else c)
                 && ended == (w.LifecycleCancel? || w.PromptClosed?)
  {
    var (d, ended) := Handle(cfg, clears, c, w);
    if Starts(c, w) {
      match w {
        case Prompt(_, _, _, _) => PromptLands(cfg, clears, c, w);
        case Notify(inbox, _, run) => NotifyLands(cfg, clears, c, w, d, ended);
        case RetryPermit(_, run) => RunBehind(cfg, c, c.(retryAt := None), [], run, d, ended);
                                    assert [] + TurnsOfRun(cfg, run) == TurnsOfRun(cfg, run);
        case WaitPermit(_, overBudget, run) => WaitLands(cfg, clears, c, w, d, ended);
        case _ =>
      }
    }
  }

  lemma NotifyLands(cfg: Config, clears: bool, c: Ctx, w: Wake, d: Ctx, ended: bool)
    requires w.Notify? && Starts(c, w) && (d, ended) == Handle(cfg, clears, c, w)
    ensures Ran(c, d, ended, ArmTurns(cfg, c, w), ArmLanding(cfg, c, w))
  {
    var before := if w.notifyInbox.Some? then [Message(w.notifyInbox.value)] else [];
    var c1 := if w.notifyInbox.Some? then Record(c, Message(w.notifyInbox.value)) else c;
    assert c.turns + [] == c.turns;
    RunBehind(cfg, c, ClearTimers(c1), before, w.notifyRun, d, ended);
  }

  lemma WaitLands(cfg: Config, clears: bool, c: Ctx, w: Wake, d: Ctx, ended: bool)
    requires w.WaitPermit? && Starts(c, w) && (d, ended) == Handle(cfg, clears, c, w)
    ensures Ran(c, d, ended, ArmTurns(cfg, c, w), ArmLanding(cfg, c, w))
  {
    var c1 := c.(waitUntil := None);
    assert c.turns + [] == c.turns;
    RunBehind(cfg, c, if w.overBudget then c1 else Record(c1, WaitElapsed(c.waitArmedSecs)),
              if w.overBudget then [] else [WaitElapsed(c.waitArmedSecs)], w.waitRun, d, ended);
  }

  // ---------------------------------------------------------------- whole lives

  function Messages(ts: seq<Turn>): seq<string> {
    if ts == [] then [] else (if ts[0].Message? then [ts[0].text] else []) + Messages(ts[1..])
  }

  lemma {:induction false} MessagesConcat(a: seq<Turn>, b: seq<Turn>)
    ensures Messages(a + b) == Messages(a) + Messages(b)
  {
    if a == [] {
      assert a + b == b;
    } else {
      assert (a + b)[1..] == a[1..] + b;
      MessagesConcat(a[1..], b);
      Reassociate(if a[0].Message? then [a[0].text] else [], Messages(a[1..]), Messages(b));
    }
  }

  predicate Silent(ts: seq<Turn>) {
    forall k :: 0 <= k < |ts| ==> !ts[k].Message?
  }

  lemma {:induction false} SilentHasNone(ts: seq<Turn>)
    requires Silent(ts)
    ensures Messages(ts) == []
  {
    if ts != [] { SilentHasNone(ts[1..]); }
  }

  lemma {:induction false} RoundsAreSilent(max: nat, passes: nat -> Pass, i: nat)
    requires i <= max
    ensures Silent(RoundsFrom(max, passes, i).turns)
    decreases max - i
  {
    if i < max { RoundsAreSilent(max, passes, i + 1); }
  }

  /** A run by itself records no message. */
  lemma {:induction false} RunsAreSilent(cfg: Config, run: nat -> Call, k: nat, n: nat)
    ensures Silent(RunTurns(cfg, run, k, n))
    decreases n - k
  {
    if k < n {
      RoundsAreSilent(cfg.maxToolRounds, run(k).passes, 0);
      RunsAreSilent(cfg, run, k + 1, n);
    } else {
      RoundsAreSilent(cfg.maxToolRounds, run(n).passes, 0);
    }
  }

  lemma MessageThenRun(cfg: Config, text: string, run: nat -> Call)
    ensures Messages([Message(text)] + TurnsOfRun(cfg, run)) == [text]
  {
    RunsAreSilent(cfg, run, 0, LastCall(cfg, run, 0));
    SilentHasNone(TurnsOfRun(cfg, run));
    assert ([Message(text)] + TurnsOfRun(cfg, run))[1..] == TurnsOfRun(cfg, run);
  }

  lemma RunHasNone(cfg: Config, before: seq<Turn>, run: nat -> Call)
    requires Silent(before)
    ensures Messages(before + TurnsOfRun(cfg, run)) == []
  {
    RunsAreSilent(cfg, run, 0, LastCall(cfg, run, 0));
    SilentHasNone(before + TurnsOfRun(cfg, run));
  }

  lemma ArmHears(cfg: Config, c: Ctx, w: Wake)
    ensures Messages(ArmTurns(cfg, c, w)) == Hears(cfg, c, w)
  {
    match w {
      case Prompt(text, run, inbox, drainRun) =>
        MessageThenRun(cfg, text, run);
        if |Hears(cfg, c, w)| == 2 {
          MessageThenRun(cfg, inbox.value, drainRun);
          MessagesConcat([Message(text)] + TurnsOfRun(cfg, run), [Message(inbox.value)] + TurnsOfRun(cfg, drainRun));
        }
      case Notify(inbox, _, run) =>
        if Hears(cfg, c, w) != [] { MessageThenRun(cfg, inbox.value, run); } else { RunHasNone(cfg, [], run); }
        assert [] + TurnsOfRun(cfg, run) == TurnsOfRun(cfg, run);
      case RetryPermit(_, run) =>
        RunHasNone(cfg, [], run);
        assert [] + TurnsOfRun(cfg, run) == TurnsOfRun(cfg, run);
      case WaitPermit(_, overBudget, run) =>
        RunHasNone(cfg, if overBudget then [] else [WaitElapsed(c.waitArmedSecs)], run);
      case _ =>
    }
  }

  /** The messages of all arms handled before the task ends, in order. */
  function HearsAll(cfg: Config, clears: bool, c: Ctx, wakes: seq<Wake>): seq<string>
    decreases |wakes|
  {
    if wakes == [] then []
    else
      var (c1, ended) := Handle(cfg, clears, c, wakes[0]);
      Hears(cfg, c, wakes[0]) + if ended then [] else HearsAll(cfg, clears, c1, wakes[1..])
  }

  lemma ArmRecords(cfg: Config, clears: bool, c: Ctx, w: Wake)
    ensures Messages(Handle(cfg, clears, c, w).0.turns) == Messages(c.turns) + Hears(cfg, c, w)
  {
    ArmLands(cfg, clears, c, w);
    ArmHears(cfg, c, w);
    MessagesConcat(c.turns, ArmTurns(cfg, c, w));
  }

  /** Over a whole run of the select loop, the messages on record are exactly those prompted or
      pulled, each once and in order. */
  lemma {:induction false} LoopRecords(cfg: Config, clears: bool, c: Ctx, wakes: seq<Wake>)
    ensures Messages(HandleAll(cfg, clears, c, wakes).0.turns) == Messages(c.turns) + HearsAll(cfg, clears, c, wakes)
    decreases |wakes|
  {
    if wakes != [] {
      ArmRecords(cfg, clears, c, wakes[0]);
      var (c1, ended) := Handle(cfg, clears, c, wakes[0]);
      if !ended {
        LoopRecords(cfg, clears, c1, wakes[1..]);
        Reassociate(Messages(c.turns), Hears(cfg, c, wakes[0]), HearsAll(cfg, clears, c1, wakes[1..]));
      } else {
        Reassociate(Messages(c.turns), Hears(cfg, c, wakes[0]), []);
      }
    }
  }

  /** And over a whole task, with its first prompt in front. */
  lemma LifeRecords(cfg: Config, clears: bool, c: Ctx, text: string, run: nat -> Call, wakes: seq<Wake>, c1: Ctx, terminate: bool)
    requires text != "" && (c1, terminate) == RunAndReport(cfg, Record(c, Message(text)), run)
    ensures Messages(Live(cfg, clears, c, FirstPrompt(text, run), wakes).0.turns)
            == Messages(c.turns) + ([text] + if terminate then [] else HearsAll(cfg, clears, c1, wakes))
  {
    RunBehind(cfg, c, Record(c, Message(text)), [Message(text)], run, c1, terminate);
    MessageThenRun(cfg, text, run);
    MessagesConcat(c.turns, [Message(text)] + TurnsOfRun(cfg, run));
    LoopRecords(cfg, clears, c1, wakes);
    Reassociate(Messages(c.turns), [text], HearsAll(cfg, clears, c1, wakes));
  }

  /** Without a first prompt the loop starts at once, and an empty one ends the task. */
  lemma LifeStarts(cfg: Config, clears: bool, c: Ctx, run: nat -> Call, wakes: seq<Wake>)
    ensures Live(cfg, clears, c, NoPrompt, wakes) == HandleAll(cfg, clears, c, wakes)
    ensures Live(cfg, clears, c, FirstPrompt("", run), wakes) == (c, true)
  {
  }

  lemma Reassociate<T>(a: seq<T>, b: seq<T>, c: seq<T>)
    ensures (a + b) + c == a + (b + c) && b + [] == b
  {
  }
}
