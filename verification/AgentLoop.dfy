/**
 The agent task: the lifecycle table, the bounded round loop, `run_and_report` with its
 heartbeat guardrail, and the outer select loop with its two timers.

 Everything the runtime does not decide itself (model responses, tool results, clock
 readings, cancellation, what an inbox holds) is an input. The step functions are total
 over those inputs, so a theorem about all inputs is a theorem about all runs.
 */
module AgentLoop {
  import opened Options

  const U32_MAX: nat := 0xFFFF_FFFF
  const DEFAULT_BREAK_TIMEOUT_SECS: nat := 600
  const EMPTY_RESPONSE := "assistant returned neither tool calls nor final content"

  // ---------------------------------------------------------------- lifecycle

  datatype ParkedReason = TransientRetryExhausted | MaxRounds | FatalError(message: string)

  datatype Lifecycle =
    | Running
    | Waiting(until: nat)
    | Idle
    | Parked(reason: ParkedReason)
    | Retrying(attempt: nat, maxAttempts: nat, retryAt: nat)

  /** The legal-edge table of `LifecycleState::transition`. */
  predicate Legal(from: Lifecycle, next: Lifecycle) {
    match from
    case Idle => next.Running?
    case Running => !next.Running?
    case Waiting(_) => next.Running? || next.Waiting? || next.Idle?
    case Parked(_) => next.Running? || next.Idle?
    case Retrying(_, _, _) => next.Running? || next.Retrying? || next.Idle?
  }

  /** The table read by target: running is entered from anywhere else, waiting and retrying from a
      round or themselves, a park from a round only, and idle from anywhere but idle. */
  lemma LegalByTarget(from: Lifecycle, next: Lifecycle)
    ensures next.Running? ==> (Legal(from, next) <==> !from.Running?)
    ensures next.Waiting? ==> (Legal(from, next) <==> from.Running? || from.Waiting?)
    ensures next.Retrying? ==> (Legal(from, next) <==> from.Running? || from.Retrying?)
    ensures next.Parked? ==> (Legal(from, next) <==> from.Running?)
    ensures next.Idle? ==> (Legal(from, next) <==> !from.Idle?)
  {
  }

  // ---------------------------------------------------------------- events

  datatype Event =
    | Busy
    | Delta(text: string)            // content and reasoning, streamed or whole
    | ToolCall(name: string)
    | ToolResult(text: string)
    | Status(text: string)
    | Approval(id: string)           // committed, redeemed or cancelled
    | RetryNotice(attempt: nat)
    | StreamReset(attempt: nat)
    | Failover(to: string)
    | WentIdle
    | WentWaiting(timeoutSecs: nat)
    | MaxRoundsExceeded
    | Error(message: string)
    | Cancelled
    | Interrupted
    | TokenBudgetExceeded
    | ChainExhausted(detail: string, retryArmed: bool)

  predicate IsTerminal(e: Event) {
    e.WentIdle? || e.WentWaiting? || e.MaxRoundsExceeded? || e.Error? || e.Cancelled?
    || e.Interrupted? || e.TokenBudgetExceeded? || e.ChainExhausted?
  }

  /** Everything a pass of the round loop sends, one constructor per place that sends it: the
      stream consumer, the request retries, the acquisition loop, and the tool executor. */
  datatype Emission =
    | ContentDelta(text: string)
    | ReasoningDelta(text: string)
    | RequestRetried(attempt: nat)
    | StreamDropped(attempt: nat)
    | ProfileAdvanced(to: string)
    | CallStarted(name: string)
    | CallAnswered(text: string)
    | ApprovalCommitted(id: string)
    | ApprovalRedeemed(id: string)
    | ApprovalCancelled(id: string)

  function EventOf(m: Emission): Event {
    match m
    case ContentDelta(text) => Delta(text)
    case ReasoningDelta(text) => Delta(text)
    case RequestRetried(attempt) => RetryNotice(attempt)
    case StreamDropped(attempt) => StreamReset(attempt)
    case ProfileAdvanced(to) => Failover(to)
    case CallStarted(name) => ToolCall(name)
    case CallAnswered(text) => ToolResult(text)
    case ApprovalCommitted(id) => Approval(id)
    case ApprovalRedeemed(id) => Approval(id)
    case ApprovalCancelled(id) => Approval(id)
  }

  function Sent(ms: seq<Emission>): seq<Event> {
    if ms == [] then [] else [EventOf(ms[0])] + Sent(ms[1..])
  }

  // ---------------------------------------------------------------- one round loop

  datatype BreakUntil = UntilIdle | UntilWait(timeoutSecs: nat)

  datatype Park =
    | ParkIdle
    | ParkCancelled
    | ParkMaxRounds
    | ParkBudget
    | ParkChain(detail: string)

  datatype RoundOutcome =
    | Break(until: BreakUntil)
    | BareAssistant(content: string)
    | ParkNow(park: Park)
    | Failed(message: string)

  datatype Gate = Proceed | Recompose | Return(park: Park)

  datatype Acquired =
    | Consumed(content: string, hasCalls: bool)
    | Ended(park: Park)
    | AcquireError(message: string)

  datatype ToolRun = Results(turn: string) | BrokeOff(turn: string, until: BreakUntil) | ToolCancelled

  /** What one pass through the round loop meets on its way. */
  datatype Pass = Pass(
    interjections: seq<string>,
    overBudget: bool,
    notices: seq<string>,
    estimateCancelled: bool,
    preCall: Gate,
    acquired: Acquired,
    postStream: Gate,
    tools: ToolRun,
    emissions: seq<Emission>)

  datatype Turn =
    | Interjected(texts: seq<string>)
    | Notices(texts: seq<string>)
    | Tools(text: string)
    | Assistant(text: string)
    | Heartbeat
    | Message(text: string)
    | WaitElapsed(secs: nat)

  /** How one pass ends: `None` re-enters the loop. */
  function PassOutcome(p: Pass): Option<RoundOutcome> {
    if p.overBudget then Some(ParkNow(ParkBudget))
    else if p.estimateCancelled then Some(ParkNow(ParkCancelled))
    else if p.preCall.Recompose? then None
    else if p.preCall.Return? then Some(ParkNow(p.preCall.park))
    else if p.acquired.Ended? then Some(ParkNow(p.acquired.park))
    else if p.acquired.AcquireError? then Some(Failed(p.acquired.message))
    else if p.postStream.Recompose? then None
    else if p.postStream.Return? then Some(ParkNow(p.postStream.park))
    else if !p.acquired.hasCalls then
      if p.acquired.content == "" then Some(Failed(EMPTY_RESPONSE))
      else Some(BareAssistant(p.acquired.content))
    else if p.tools.ToolCancelled? then Some(ParkNow(ParkCancelled))
    else if p.tools.BrokeOff? then Some(Break(p.tools.until))
    else None
  }

  /** The pass runs its tool calls to a recorded turn. */
  predicate RecordsTools(p: Pass) {
    && !p.overBudget && !p.estimateCancelled && p.preCall.Proceed? && p.acquired.Consumed?
    && p.postStream.Proceed? && p.acquired.hasCalls && !p.tools.ToolCancelled?
  }

  function PassTurns(p: Pass): seq<Turn> {
    (if p.interjections == [] then [] else [Interjected(p.interjections)])
    + (if p.overBudget || p.notices == [] then [] else [Notices(p.notices)])
    + (if RecordsTools(p) then [Tools(p.tools.turn)] else [])
  }

  /** Events reach the channel only from acquisition onwards. */
  function PassEvents(p: Pass): seq<Event> {
    if p.overBudget || p.estimateCancelled || !p.preCall.Proceed? then [] else Sent(p.emissions)
  }

  datatype Rounds = Rounds(outcome: RoundOutcome, turns: seq<Turn>, events: seq<Event>, passes: nat)

  /** The bounded loop from pass `i` on, as a reference definition. */
  function RoundsFrom(max: nat, passes: nat -> Pass, i: nat): Rounds
    requires i <= max
    decreases max - i
  {
    if i == max then Rounds(ParkNow(ParkMaxRounds), [], [], 0)
    else
      var p := passes(i);
      var o := PassOutcome(p);
      if o.Some? then Rounds(o.value, PassTurns(p), PassEvents(p), 1)
      else
        var r := RoundsFrom(max, passes, i + 1);
        Rounds(r.outcome, PassTurns(p) + r.turns, PassEvents(p) + r.events, 1 + r.passes)
  }

  /** No pass in `[lo, hi)` ends the loop. */
  ghost predicate NoneEnds(passes: nat -> Pass, lo: nat, hi: nat) {
    forall k: nat :: lo <= k < hi ==> PassOutcome(passes(k)).None?
  }

  /** The loop stops at the first pass with an outcome and gives that outcome; it makes at
      most `max` passes and parks as max-rounds when none of them ended it. */
  lemma {:induction false} RoundsAreBounded(max: nat, passes: nat -> Pass, i: nat)
    requires i <= max
    ensures Bounded(max, passes, i, RoundsFrom(max, passes, i).passes, RoundsFrom(max, passes, i).outcome)
    decreases max - i
  {
    if i < max && PassOutcome(passes(i)) == None {
      RoundsAreBounded(max, passes, i + 1);
      var r := RoundsFrom(max, passes, i + 1);
      assert RoundsFrom(max, passes, i).passes == 1 + r.passes && RoundsFrom(max, passes, i).outcome == r.outcome;
      BoundedNext(max, passes, i, r.passes, r.outcome);
    }
  }

  /** The loop from pass `i` made `n` passes and ended with `o`: all passes there were, none of
      which ended it, or up to the first that does. */
  ghost predicate Bounded(max: nat, passes: nat -> Pass, i: nat, n: nat, o: RoundOutcome) {
    && i + n <= max
    && (|| (n == max - i && NoneEnds(passes, i, max) && o == ParkNow(ParkMaxRounds))
        || (n > 0 && NoneEnds(passes, i, i + n - 1) && PassOutcome(passes(i + n - 1)) == Some(o)))
  }

  lemma BoundedNext(max: nat, passes: nat -> Pass, i: nat, n: nat, o: RoundOutcome)
    requires i < max && PassOutcome(passes(i)) == None && Bounded(max, passes, i + 1, n, o)
    ensures Bounded(max, passes, i, n + 1, o)
  {
  }

  predicate AllQuiet(events: seq<Event>) {
    forall k :: 0 <= k < |events| ==> !IsTerminal(events[k])
  }

  /** No place a pass sends from can send a terminal event. */
  lemma {:induction false} EmissionsAreQuiet(ms: seq<Emission>)
    ensures AllQuiet(Sent(ms))
  {
    if ms != [] { EmissionsAreQuiet(ms[1..]); }
  }

  lemma {:induction false} RoundsAreQuiet(max: nat, passes: nat -> Pass, i: nat)
    requires i <= max
    ensures AllQuiet(RoundsFrom(max, passes, i).events)
    decreases max - i
  {
    if i < max {
      EmissionsAreQuiet(passes(i).emissions);
      RoundsAreQuiet(max, passes, i + 1);
    }
  }

  // ---------------------------------------------------------------- run_and_report

  /** `backoff` stands for the jittered delay the clock decides. */
  datatype Config = Config(maxToolRounds: nat, maxHeartbeats: nat, maxTransient: nat, backoff: nat -> nat)

  /** The agent context. `trace`, `path` and `calls` log what the run sent on the event
      channel, every lifecycle state entered, and the passes of every round-loop call. */
  datatype Ctx = Ctx(
    lifecycle: Lifecycle,
    waitUntil: Option<nat>,
    retryAt: Option<nat>,
    waitArmedSecs: nat,
    transientFails: nat,
    turns: seq<Turn>,
    trace: seq<Event>,
    path: seq<Lifecycle>,
    calls: seq<nat>)

  /** One call of the round loop: its passes, the clock when it returns, and whether the
      lifecycle token is cancelled by then. */
  datatype Call = Call(passes: nat -> Pass, now: nat, cancelled: bool)

  function Enter(c: Ctx, next: Lifecycle): Ctx {
    c.(lifecycle := next, path := c.path + [next])
  }

  function Emit(c: Ctx, e: Event): Ctx {
    c.(trace := c.trace + [e])
  }

  function ArmWait(c: Ctx, now: nat, secs: nat): Ctx {
    c.(waitUntil := Some(now + secs), waitArmedSecs := secs)
  }

  function SaturatingInc(n: nat): nat {
    if n < U32_MAX then n + 1 else U32_MAX
  }

  /** The arms of `run_and_report` that return; `true` ends the task. */
  function Conclude(cfg: Config, c: Ctx, o: RoundOutcome, now: nat, cancelled: bool): (Ctx, bool) {
    var reset := c.(transientFails := 0);
    match o
    case Break(UntilIdle) => (Emit(Enter(reset, Idle), WentIdle), false)
    case Break(UntilWait(secs)) =>
      (Emit(Enter(ArmWait(reset, now, secs), Waiting(now + secs)), WentWaiting(secs)), false)
    case BareAssistant(_) => (Emit(Enter(reset, Idle), WentIdle), false)
    case ParkNow(ParkCancelled) =>
      if cancelled then (Emit(reset, Cancelled), true)
      else (Enter(Emit(reset, Interrupted), Idle), false)
    case ParkNow(ParkChain(detail)) =>
      var fails := SaturatingInc(c.transientFails);
      var counted := c.(transientFails := fails);
      if fails <= cfg.maxTransient then
        var deadline := now + cfg.backoff(fails - 1);
        (Enter(Emit(counted.(retryAt := Some(deadline)), ChainExhausted(detail, true)),
               Retrying(fails, cfg.maxTransient, deadline)), false)
      else (Enter(Emit(counted, ChainExhausted(detail, false)), Parked(TransientRetryExhausted)), false)
    case ParkNow(ParkBudget) =>
      (Enter(ArmWait(Emit(reset, TokenBudgetExceeded), now, DEFAULT_BREAK_TIMEOUT_SECS),
             Waiting(now + DEFAULT_BREAK_TIMEOUT_SECS)), false)
    case ParkNow(ParkMaxRounds) => (Emit(Enter(reset, Parked(MaxRounds)), MaxRoundsExceeded), false)
    case ParkNow(ParkIdle) => (Emit(Enter(reset, Idle), WentIdle), false)
    case Failed(message) => (Emit(Enter(reset, Parked(FatalError(message))), Error(message)), false)
  }

  /** Busy event, one round-loop call, its turns and events. */
  function CallRounds(cfg: Config, c: Ctx, call: Call): (Ctx, RoundOutcome) {
    var r := RoundsFrom(cfg.maxToolRounds, call.passes, 0);
    (c.(trace := c.trace + [Busy] + r.events, turns := c.turns + r.turns, calls := c.calls + [r.passes]), r.outcome)
  }

  function AfterHeartbeat(c: Ctx, content: string): Ctx {
    c.(transientFails := 0, turns := c.turns + [Assistant(content), Heartbeat])
  }

  /** The heartbeat loop with `noProgress` bare responses behind it. */
  function RunFrom(cfg: Config, c: Ctx, calls: nat -> Call, noProgress: nat): (Ctx, bool)
    requires noProgress <= cfg.maxHeartbeats
    decreases cfg.maxHeartbeats - noProgress
  {
    var call := calls(noProgress);
    var (c1, o) := CallRounds(cfg, c, call);
    if o.BareAssistant? && noProgress + 1 <= cfg.maxHeartbeats
    then RunFrom(cfg, AfterHeartbeat(c1, o.content), calls, noProgress + 1)
    else Conclude(cfg, c1, o, call.now, call.cancelled)
  }

  function RunAndReport(cfg: Config, c: Ctx, calls: nat -> Call): (Ctx, bool) {
    RunFrom(cfg, Enter(c, Running), calls, 0)
  }

  // ---------------------------------------------------------------- properties of one run

  /** The state a terminal event announces. */
  predicate StandsFor(e: Event, l: Lifecycle) {
    match e
    case WentIdle => l.Idle?
    case WentWaiting(_) => l.Waiting?
    case MaxRoundsExceeded => l == Parked(MaxRounds)
    case Error(m) => l == Parked(FatalError(m))
    case Interrupted => l.Idle?
    case TokenBudgetExceeded => l.Waiting?
    case ChainExhausted(_, armed) => if armed then l.Retrying? else l == Parked(TransientRetryExhausted)
    case _ => false
  }

  /** Consecutive states of `path`, entered from `from`, follow the legal-edge table. */
  predicate LegalPath(from: Lifecycle, path: seq<Lifecycle>) {
    && (path != [] ==> Legal(from, path[0]))
    && (forall i :: 0 < i < |path| ==> Legal(path[i - 1], path[i]))
  }

  predicate OneTerminalLast(events: seq<Event>) {
    && events != []
    && IsTerminal(events[|events| - 1])
    && (forall i :: 0 <= i < |events| - 1 ==> !IsTerminal(events[i]))
  }

  /** What a finished heartbeat loop adds to a context that has entered Running. */
  ghost predicate Finished(cfg: Config, c: Ctx, r: (Ctx, bool), noProgress: nat) {
    var d := r.0;
    && c.trace <= d.trace && OneTerminalLast(d.trace[|c.trace|..])
    && c.calls <= d.calls
    && 1 <= |d.calls| - |c.calls| <= cfg.maxHeartbeats + 1 - noProgress
    && (forall k :: |c.calls| <= k < |d.calls| ==> d.calls[k] <= cfg.maxToolRounds)
    && c.turns <= d.turns
    && (if r.1
        then d.path == c.path && d.lifecycle == c.lifecycle && d.trace[|d.trace| - 1] == Cancelled
        else d.path == c.path + [d.lifecycle] && !d.lifecycle.Running?
             && StandsFor(d.trace[|d.trace| - 1], d.lifecycle))
  }

  /** A returning arm adds one terminal event, and one state unless it ends the task. */
  lemma ConcludeShape(cfg: Config, c: Ctx, o: RoundOutcome, now: nat, cancelled: bool)
    ensures var (d, terminate) := Conclude(cfg, c, o, now, cancelled);
            && |d.trace| == |c.trace| + 1
            && var last := d.trace[|c.trace|];
            && d.trace == c.trace + [last] && IsTerminal(last)
            && d.calls == c.calls && d.turns == c.turns
            && (if terminate
                then d.path == c.path && d.lifecycle == c.lifecycle && last == Cancelled
                else d.path == c.path + [d.lifecycle] && !d.lifecycle.Running? && StandsFor(last, d.lifecycle))
  {
  }

  lemma ConcludeFinishes(cfg: Config, c: Ctx, call: Call, c1: Ctx, o: RoundOutcome, r: (Ctx, bool))
    requires (c1, o) == CallRounds(cfg, c, call) && r == Conclude(cfg, c1, o, call.now, call.cancelled)
    ensures Finished(cfg, c, r, cfg.maxHeartbeats)
  {
    var rounds := RoundsFrom(cfg.maxToolRounds, call.passes, 0);
    RoundsAreBounded(cfg.maxToolRounds, call.passes, 0);
    RoundsAreQuiet(cfg.maxToolRounds, call.passes, 0);
    ConcludeShape(cfg, c1, o, call.now, call.cancelled);
    FinishFromShape(cfg, c, c1, rounds.events, rounds.passes, r);
  }

  lemma FinishFromShape(cfg: Config, c: Ctx, c1: Ctx, events: seq<Event>, passes: nat, r: (Ctx, bool))
    requires c1.trace == c.trace + [Busy] + events && c1.calls == c.calls + [passes] && c.turns <= c1.turns
    requires c1.path == c.path && c1.lifecycle == c.lifecycle && passes <= cfg.maxToolRounds
    requires AllQuiet(events)
    requires var (d, terminate) := r;
             && |d.trace| == |c1.trace| + 1
             && var last := d.trace[|c1.trace|];
             && d.trace == c1.trace + [last] && IsTerminal(last)
             && d.calls == c1.calls && d.turns == c1.turns
             && (if terminate
                 then d.path == c1.path && d.lifecycle == c1.lifecycle && last == Cancelled
                 else d.path == c1.path + [d.lifecycle] && !d.lifecycle.Running? && StandsFor(last, d.lifecycle))
    ensures Finished(cfg, c, r, cfg.maxHeartbeats)
  {
    var d := r.0;
    assert d.trace[|c.trace|..] == [Busy] + events + [d.trace[|d.trace| - 1]];
  }

  /** A quiet prefix of one more call in front of a finished loop. */
  lemma HeartbeatPrefix(cfg: Config, c: Ctx, mid: Ctx, events: seq<Event>, passes: nat, r: (Ctx, bool), noProgress: nat)
    requires mid.trace == c.trace + [Busy] + events && mid.calls == c.calls + [passes] && c.turns <= mid.turns
    requires mid.path == c.path && mid.lifecycle == c.lifecycle && passes <= cfg.maxToolRounds
    requires AllQuiet(events)
    requires noProgress < cfg.maxHeartbeats && Finished(cfg, mid, r, noProgress + 1)
    ensures Finished(cfg, c, r, noProgress)
  {
    var d := r.0;
    assert d.trace[|c.trace|..] == [Busy] + events + d.trace[|mid.trace|..];
  }

  lemma HeartbeatStep(cfg: Config, c: Ctx, call: Call, c1: Ctx, o: RoundOutcome, r: (Ctx, bool), noProgress: nat)
    requires (c1, o) == CallRounds(cfg, c, call) && o.BareAssistant? && noProgress < cfg.maxHeartbeats
    requires Finished(cfg, AfterHeartbeat(c1, o.content), r, noProgress + 1)
    ensures Finished(cfg, c, r, noProgress)
  {
    var rounds := RoundsFrom(cfg.maxToolRounds, call.passes, 0);
    RoundsAreBounded(cfg.maxToolRounds, call.passes, 0);
    RoundsAreQuiet(cfg.maxToolRounds, call.passes, 0);
    HeartbeatPrefix(cfg, c, AfterHeartbeat(c1, o.content), rounds.events, rounds.passes, r, noProgress);
  }

  lemma {:induction false} RunFromFinishes(cfg: Config, c: Ctx, calls: nat -> Call, noProgress: nat, r: (Ctx, bool))
    requires noProgress <= cfg.maxHeartbeats && r == RunFrom(cfg, c, calls, noProgress)
    ensures Finished(cfg, c, r, noProgress)
    decreases cfg.maxHeartbeats - noProgress
  {
    var call := calls(noProgress);
    var c1, o := CallRounds(cfg, c, call).0, CallRounds(cfg, c, call).1;
    RunUnfolds(cfg, c, calls, noProgress, r, c1, o);
    if o.BareAssistant? && noProgress + 1 <= cfg.maxHeartbeats {
      RunFromFinishes(cfg, AfterHeartbeat(c1, o.content), calls, noProgress + 1, r);
      HeartbeatStep(cfg, c, call, c1, o, r, noProgress);
    } else {
      ConcludeFinishes(cfg, c, call, c1, o, r);
      FinishedLater(cfg, c, r, noProgress);
    }
  }

  lemma RunUnfolds(cfg: Config, c: Ctx, calls: nat -> Call, noProgress: nat, r: (Ctx, bool), c1: Ctx, o: RoundOutcome)
    requires noProgress <= cfg.maxHeartbeats && r == RunFrom(cfg, c, calls, noProgress)
    requires (c1, o) == CallRounds(cfg, c, calls(noProgress))
    ensures r == if o.BareAssistant? && noProgress + 1 <= cfg.maxHeartbeats
                 then RunFrom(cfg, AfterHeartbeat(c1, o.content), calls, noProgress + 1)
                 else Conclude(cfg, c1, o, calls(noProgress).now, calls(noProgress).cancelled)
  {
  }

  /** What holds with no heartbeat left holds with some. */
  lemma FinishedLater(cfg: Config, c: Ctx, r: (Ctx, bool), noProgress: nat)
    requires Finished(cfg, c, r, cfg.maxHeartbeats) && noProgress <= cfg.maxHeartbeats
    ensures Finished(cfg, c, r, noProgress)
  {
  }

  /** Every run entered outside Running makes only legal transitions, emits exactly one
      terminal event and emits it last, lands in the state that event stands for unless it
      ends the task, and calls the round loop at most `maxHeartbeats + 1` times with at most
      `maxToolRounds` passes each. */
  lemma RunIsWellBehaved(cfg: Config, c: Ctx, calls: nat -> Call)
    requires !c.lifecycle.Running?
    ensures var (d, terminate) := RunAndReport(cfg, c, calls);
            && c.trace <= d.trace && OneTerminalLast(d.trace[|c.trace|..])
            && c.path <= d.path && LegalPath(c.lifecycle, d.path[|c.path|..])
            && c.calls <= d.calls && 1 <= |d.calls| - |c.calls| <= cfg.maxHeartbeats + 1
            && (forall k :: |c.calls| <= k < |d.calls| ==> d.calls[k] <= cfg.maxToolRounds)
            && c.turns <= d.turns
            && (if terminate
                then d.trace[|d.trace| - 1] == Cancelled && d.lifecycle.Running?
                else StandsFor(d.trace[|d.trace| - 1], d.lifecycle) && !d.lifecycle.Running?)
  {
    var e := Enter(c, Running);
    var r := RunFrom(cfg, e, calls, 0);
    RunFromFinishes(cfg, e, calls, 0, r);
    EnteredPath(c, e, r.0, r.1);
  }

  /** Entering Running and leaving it once is a legal path. */
  lemma EnteredPath(c: Ctx, e: Ctx, d: Ctx, terminate: bool)
    requires !c.lifecycle.Running? && e == Enter(c, Running)
    requires if terminate then d.path == e.path else d.path == e.path + [d.lifecycle] && !d.lifecycle.Running?
    ensures c.path <= d.path && LegalPath(c.lifecycle, d.path[|c.path|..])
  {
    assert d.path[|c.path|..] == if terminate then [Running] else [Running, d.lifecycle];
  }

  // ---------------------------------------------------------------- the outer select loop

  /** One resolved arm of the select loop with everything it reads. `inbox` is what an
      atomic pull returns at that moment; a retry or wait permit may be stale. */
  datatype Wake =
    | Prompt(text: string, run: nat -> Call, inbox: Option<string>, drainRun: nat -> Call)
    | PromptClosed
    | LifecycleCancel
    | Notify(notifyInbox: Option<string>, approvals: bool, notifyRun: nat -> Call)
    | RetryPermit(retryNow: nat, retryRun: nat -> Call)
    | WaitPermit(waitNow: nat, overBudget: bool, waitRun: nat -> Call)

  function ClearTimers(c: Ctx): Ctx {
    c.(waitUntil := None, retryAt := None)
  }

  function Record(c: Ctx, turn: Turn): Ctx {
    c.(turns := c.turns + [turn])
  }

  predicate Due(deadline: Option<nat>, now: nat) {
    deadline.Some? && deadline.value <= now
  }

  /** The prompt arm up to and including its first run. */
  function PromptRun(cfg: Config, c: Ctx, w: Wake): (Ctx, bool)
    requires w.Prompt?
  {
    RunAndReport(cfg, Record(ClearTimers(c), Message(w.text)), w.run)
  }

  /** The post-round inbox drain. The code does not clear the timers here; `clears`
      selects the variant that does. */
  function Drain(cfg: Config, c: Ctx, w: Wake, clears: bool): (Ctx, bool)
    requires w.Prompt?
  {
    if w.inbox.None? then (c, false)
    else RunAndReport(cfg, Record(if clears then ClearTimers(c) else c, Message(w.inbox.value)), w.drainRun)
  }

  /** One arm; `true` leaves the loop. `clears` is false for the code as written. */
  function Handle(cfg: Config, clears: bool, c: Ctx, w: Wake): (Ctx, bool) {
    match w
    case Prompt(_, _, _, _) =>
      var (c1, terminate) := PromptRun(cfg, c, w);
      if terminate then (c1, true) else Drain(cfg, c1, w, clears)
    case PromptClosed => (c, true)
    case LifecycleCancel => (Emit(c, Cancelled), true)
    case Notify(inbox, approvals, run) =>
      if c.lifecycle.Parked? then (c, false)
      else
        var c1 := if inbox.Some? then Record(c, Message(inbox.value)) else c;
        if inbox.Some? || approvals then RunAndReport(cfg, ClearTimers(c1), run) else (c1, false)
    case RetryPermit(now, run) =>
      if Due(c.retryAt, now) then RunAndReport(cfg, c.(retryAt := None), run) else (c, false)
    case WaitPermit(now, overBudget, run) =>
      if Due(c.waitUntil, now) then
        var c1 := c.(waitUntil := None);
        RunAndReport(cfg, if overBudget then c1 else Record(c1, WaitElapsed(c.waitArmedSecs)), run)
      else (c, false)
  }

  function HandleAll(cfg: Config, clears: bool, c: Ctx, wakes: seq<Wake>): (Ctx, bool)
    decreases |wakes|
  {
    if wakes == [] then (c, false)
    else
      var (c1, ended) := Handle(cfg, clears, c, wakes[0]);
      if ended then (c1, true) else HandleAll(cfg, clears, c1, wakes[1..])
  }

  /** What the task starts with, if anything. */
  datatype Start = NoPrompt | FirstPrompt(text: string, run: nat -> Call)

  /** The whole task: an empty first prompt ends it at once, any other is run before the loop. */
  function Live(cfg: Config, clears: bool, c: Ctx, start: Start, wakes: seq<Wake>): (Ctx, bool) {
    match start
    case NoPrompt => HandleAll(cfg, clears, c, wakes)
    case FirstPrompt(text, run) =>
      if text == "" then (c, true)
      else
        var (c1, terminate) := RunAndReport(cfg, Record(c, Message(text)), run);
        if terminate then (c1, true) else HandleAll(cfg, clears, c1, wakes)
  }

  // ---------------------------------------------------------------- timers

  function WaitOf(l: Lifecycle): Option<nat> {
    if l.Waiting? then Some(l.until) else None
  }

  function RetryOf(l: Lifecycle): Option<nat> {
    if l.Retrying? then Some(l.retryAt) else None
  }

  /** The armed deadlines are exactly the ones the lifecycle state carries: a wait deadline
      only in Waiting, a retry deadline only in Retrying, never both. */
  predicate Timed(c: Ctx) {
    !c.lifecycle.Running? && c.waitUntil == WaitOf(c.lifecycle) && c.retryAt == RetryOf(c.lifecycle)
  }

  /** A run replaces the timer of the state it lands in and leaves the other one as it was. */
  lemma {:induction false} RunFromTimers(cfg: Config, c: Ctx, calls: nat -> Call, noProgress: nat)
    requires noProgress <= cfg.maxHeartbeats && c.lifecycle.Running?
    ensures var (d, terminate) := RunFrom(cfg, c, calls, noProgress);
            && !terminate ==>
               && !d.lifecycle.Running?
               && d.waitUntil == (if d.lifecycle.Waiting? then Some(d.lifecycle.until) else c.waitUntil)
               && d.retryAt == (if d.lifecycle.Retrying? then Some(d.lifecycle.retryAt) else c.retryAt)
    decreases cfg.maxHeartbeats - noProgress
  {
    var (c1, o) := CallRounds(cfg, c, calls(noProgress));
    if o.BareAssistant? && noProgress + 1 <= cfg.maxHeartbeats {
      RunFromTimers(cfg, AfterHeartbeat(c1, o.content), calls, noProgress + 1);
    }
  }

  /** Whether a run is followed by a matching pair of timers is decided by what was armed
      when it began. */
  lemma RunTimers(cfg: Config, c: Ctx, calls: nat -> Call)
    ensures var (d, terminate) := RunAndReport(cfg, c, calls);
            !terminate ==>
            && !d.lifecycle.Running?
            && (Timed(d) <==> (c.waitUntil.None? || d.lifecycle.Waiting?) && (c.retryAt.None? || d.lifecycle.Retrying?))
  {
    RunFromTimers(cfg, Enter(c, Running), calls, 0);
  }

  /** With a drain that clears, every arm keeps the timers matched. */
  lemma ClearingArmKeepsTimers(cfg: Config, c: Ctx, w: Wake)
    requires Timed(c)
    ensures var (d, ended) := Handle(cfg, true, c, w); !ended ==> Timed(d)
  {
    match w {
      case Prompt(text, run, inbox, drainRun) =>
        RunTimers(cfg, Record(ClearTimers(c), Message(text)), run);
        var c1 := PromptRun(cfg, c, w).0;
        if inbox.Some? { RunTimers(cfg, Record(ClearTimers(c1), Message(inbox.value)), drainRun); }
      case Notify(inbox, _, run) =>
        var c1 := if inbox.Some? then Record(c, Message(inbox.value)) else c;
        RunTimers(cfg, ClearTimers(c1), run);
      case RetryPermit(_, run) => RunTimers(cfg, c.(retryAt := None), run);
      case WaitPermit(_, overBudget, run) =>
        var c1 := c.(waitUntil := None);
        RunTimers(cfg, if overBudget then c1 else Record(c1, WaitElapsed(c.waitArmedSecs)), run);
      case _ =>
    }
  }

  /** How a run ends, read off its calls alone. */
  datatype Ending = EndsTask | ArmsWait | ArmsRetry | ArmsNothing

  function CallOutcome(cfg: Config, call: Call): RoundOutcome {
    RoundsFrom(cfg.maxToolRounds, call.passes, 0).outcome
  }

  /** The call that concludes the run: the first that is not a bare response, or the last one
      the heartbeat limit allows. */
  function LastCall(cfg: Config, run: nat -> Call, k: nat): nat
    requires k <= cfg.maxHeartbeats
    decreases cfg.maxHeartbeats - k
  {
    if CallOutcome(cfg, run(k)).BareAssistant? && k + 1 <= cfg.maxHeartbeats then LastCall(cfg, run, k + 1) else k
  }

  /** What a concluding outcome arms, after `fails` chain failures in a row. */
  function EndingOf(cfg: Config, fails: nat, o: RoundOutcome, cancelled: bool): Ending {
    match o
    case Break(UntilWait(_)) => ArmsWait
    case ParkNow(ParkBudget) => ArmsWait
    case ParkNow(ParkChain(_)) => if SaturatingInc(fails) <= cfg.maxTransient then ArmsRetry else ArmsNothing
    case ParkNow(ParkCancelled) => if cancelled then EndsTask else ArmsNothing
    case _ => ArmsNothing
  }

  /** The chain failures in a row after that outcome. */
  function FailsOf(fails: nat, o: RoundOutcome): nat {
    if o.ParkNow? && o.park.ParkChain? then SaturatingInc(fails) else 0
  }

  /** A bare response along the way resets the failures. */
  function FailsBefore(cfg: Config, fails: nat, run: nat -> Call): nat {
    if LastCall(cfg, run, 0) == 0 then fails else 0
  }

  function EndingFrom(cfg: Config, fails: nat, run: nat -> Call): Ending {
    var last := run(LastCall(cfg, run, 0));
    EndingOf(cfg, FailsBefore(cfg, fails, run), CallOutcome(cfg, last), last.cancelled)
  }

  function FailsAfter(cfg: Config, fails: nat, run: nat -> Call): nat {
    FailsOf(FailsBefore(cfg, fails, run), CallOutcome(cfg, run(LastCall(cfg, run, 0))))
  }

  ghost predicate EndsAs(d: Ctx, terminate: bool, e: Ending, fails: nat) {
    && (terminate <==> e == EndsTask)
    && (!terminate ==> (d.lifecycle.Waiting? <==> e == ArmsWait) && (d.lifecycle.Retrying? <==> e == ArmsRetry)
                       && d.transientFails == fails)
  }

  lemma ConcludeEnds(cfg: Config, c: Ctx, o: RoundOutcome, now: nat, cancelled: bool)
    ensures var (d, terminate) := Conclude(cfg, c, o, now, cancelled);
            EndsAs(d, terminate, EndingOf(cfg, c.transientFails, o, cancelled), FailsOf(c.transientFails, o))
  {
  }

  lemma {:induction false} RunFromEnds(cfg: Config, c: Ctx, run: nat -> Call, k: nat)
    requires k <= cfg.maxHeartbeats
    ensures var n := LastCall(cfg, run, k);
            var fails := if n == k then c.transientFails else 0;
            var (d, terminate) := RunFrom(cfg, c, run, k);
            EndsAs(d, terminate, EndingOf(cfg, fails, CallOutcome(cfg, run(n)), run(n).cancelled), FailsOf(fails, CallOutcome(cfg, run(n))))
    decreases cfg.maxHeartbeats - k
  {
    var (c1, o) := CallRounds(cfg, c, run(k));
    if o.BareAssistant? && k + 1 <= cfg.maxHeartbeats {
      LastCallMoves(cfg, run, k + 1);
      RunFromEnds(cfg, AfterHeartbeat(c1, o.content), run, k + 1);
    } else {
      ConcludeEnds(cfg, c1, o, run(k).now, run(k).cancelled);
    }
  }

  lemma {:induction false} LastCallMoves(cfg: Config, run: nat -> Call, k: nat)
    requires k <= cfg.maxHeartbeats
    ensures k <= LastCall(cfg, run, k) <= cfg.maxHeartbeats
    decreases cfg.maxHeartbeats - k
  {
    if CallOutcome(cfg, run(k)).BareAssistant? && k + 1 <= cfg.maxHeartbeats { LastCallMoves(cfg, run, k + 1); }
  }

  /** What a run arms, and whether it ends the task, is decided by its calls and by the chain
      failures before it. */
  lemma RunEnds(cfg: Config, c: Ctx, run: nat -> Call)
    ensures var (d, terminate) := RunAndReport(cfg, c, run);
            EndsAs(d, terminate, EndingFrom(cfg, c.transientFails, run), FailsAfter(cfg, c.transientFails, run))
  {
    RunFromEnds(cfg, Enter(c, Running), run, 0);
  }

  /** A message waits behind a prompt whose own run arms a timer, and the run for that message
      neither ends the task nor arms the same timer. */
  predicate LeavesStaleTimer(cfg: Config, fails: nat, w: Wake) {
    w.Prompt? && w.inbox.Some? &&
    var first := EndingFrom(cfg, fails, w.run);
    var second := EndingFrom(cfg, FailsAfter(cfg, fails, w.run), w.drainRun);
    (first == ArmsWait || first == ArmsRetry) && second != EndsTask && second != first
  }

  lemma DrainTimers(cfg: Config, c: Ctx, w: Wake)
    requires Timed(c) && w.Prompt?
    ensures var (d, ended) := Handle(cfg, false, c, w);
            !ended ==> (Timed(d) <==> !LeavesStaleTimer(cfg, c.transientFails, w))
  {
    var c0 := Record(ClearTimers(c), Message(w.text));
    var (c1, terminate) := PromptRun(cfg, c, w);
    RunTimers(cfg, c0, w.run);
    RunEnds(cfg, c0, w.run);
    if !terminate && w.inbox.Some? {
      var c2 := Record(c1, Message(w.inbox.value));
      RunTimers(cfg, c2, w.drainRun);
      RunEnds(cfg, c2, w.drainRun);
    }
  }

  /** The code as written keeps the timers matched over one arm exactly when that arm is not a
      prompt whose drain leaves the first run's timer behind; the condition reads the arm's
      inputs only. An empty inbox is always safe. */
  lemma WrittenArmKeepsTimersIff(cfg: Config, c: Ctx, w: Wake)
    requires Timed(c)
    ensures var (d, ended) := Handle(cfg, false, c, w);
            !ended ==> (Timed(d) <==> !LeavesStaleTimer(cfg, c.transientFails, w))
    ensures w.Prompt? && w.inbox == None ==> !LeavesStaleTimer(cfg, c.transientFails, w)
  {
    if w.Prompt? {
      DrainTimers(cfg, c, w);
    } else {
      ClearingArmKeepsTimers(cfg, c, w);
      assert Handle(cfg, false, c, w) == Handle(cfg, true, c, w);
    }
  }

  /** Over whole runs: a clearing drain keeps the timers matched for ever. */
  lemma {:induction false} ClearingRunsKeepTimers(cfg: Config, c: Ctx, wakes: seq<Wake>)
    requires Timed(c)
    ensures var (d, ended) := HandleAll(cfg, true, c, wakes); !ended ==> Timed(d)
    decreases |wakes|
  {
    if wakes != [] {
      ClearingArmKeepsTimers(cfg, c, wakes[0]);
      var (c1, ended) := Handle(cfg, true, c, wakes[0]);
      if !ended { ClearingRunsKeepTimers(cfg, c1, wakes[1..]); }
    }
  }

  /** The run of a first prompt leaves matched timers for the loop to start with. */
  lemma FirstRunIsTimed(cfg: Config, c: Ctx, text: string, run: nat -> Call)
    requires c.waitUntil == None && c.retryAt == None
    ensures var (d, terminate) := RunAndReport(cfg, Record(c, Message(text)), run); !terminate ==> Timed(d)
  {
    RunTimers(cfg, Record(c, Message(text)), run);
  }

  /** Between all arms of this run of the code as written the timers are matched. */
  ghost predicate AlwaysTimed(cfg: Config, c: Ctx, wakes: seq<Wake>)
    decreases |wakes|
  {
    Timed(c) &&
    (wakes == [] ||
     var (c1, ended) := Handle(cfg, false, c, wakes[0]);
     ended || AlwaysTimed(cfg, c1, wakes[1..]))
  }

  /** Some arm of this run that does not end it leaves a stale timer. */
  predicate MeetsStaleTimer(cfg: Config, c: Ctx, wakes: seq<Wake>)
    decreases |wakes|
  {
    wakes != [] &&
    var (c1, ended) := Handle(cfg, false, c, wakes[0]);
    !ended && (LeavesStaleTimer(cfg, c.transientFails, wakes[0]) || MeetsStaleTimer(cfg, c1, wakes[1..]))
  }

  /** Over whole runs: the timers stay matched if and only if no arm leaves a stale one. */
  lemma {:induction false} WrittenRunsKeepTimersIff(cfg: Config, c: Ctx, wakes: seq<Wake>)
    requires Timed(c)
    ensures AlwaysTimed(cfg, c, wakes) <==> !MeetsStaleTimer(cfg, c, wakes)
    decreases |wakes|
  {
    if wakes != [] {
      WrittenArmKeepsTimersIff(cfg, c, wakes[0]);
      var (c1, ended) := Handle(cfg, false, c, wakes[0]);
      if !ended && Timed(c1) { WrittenRunsKeepTimersIff(cfg, c1, wakes[1..]); }
    }
  }

  /** What a caller can see to: runs in which no message waits behind a prompt. */
  lemma {:induction false} EmptyInboxKeepsTimers(cfg: Config, c: Ctx, wakes: seq<Wake>)
    requires Timed(c) && forall i :: 0 <= i < |wakes| && wakes[i].Prompt? ==> wakes[i].inbox == None
    ensures AlwaysTimed(cfg, c, wakes)
    decreases |wakes|
  {
    if wakes != [] {
      WrittenArmKeepsTimersIff(cfg, c, wakes[0]);
      var (c1, ended) := Handle(cfg, false, c, wakes[0]);
      if !ended { EmptyInboxKeepsTimers(cfg, c1, wakes[1..]); }
    }
  }

  // ---------------------------------------------------------------- parked agents

  predicate Wakes(w: Wake) {
    w.Prompt? || w.PromptClosed? || w.LifecycleCancel?
  }

  /** With matched timers a parked agent is untouched by notifies and by any number of
      stored retry or wait permits, however late they fire. */
  lemma {:induction false} ParkedSleepsThrough(cfg: Config, clears: bool, c: Ctx, wakes: seq<Wake>)
    requires Timed(c) && c.lifecycle.Parked?
    requires forall i :: 0 <= i < |wakes| ==> !Wakes(wakes[i])
    ensures HandleAll(cfg, clears, c, wakes) == (c, false)
    decreases |wakes|
  {
    if wakes != [] {
      assert !Wakes(wakes[0]);
      assert Handle(cfg, clears, c, wakes[0]) == (c, false);
      ParkedSleepsThrough(cfg, clears, c, wakes[1..]);
    }
  }

  /** Nothing but a prompt or a cancel moves this context, whatever fires and however late. */
  ghost predicate Sleeps(cfg: Config, clears: bool, c: Ctx) {
    forall wakes: seq<Wake> {:trigger HandleAll(cfg, clears, c, wakes)} ::
      (forall i :: 0 <= i < |wakes| ==> !Wakes(wakes[i])) ==> HandleAll(cfg, clears, c, wakes) == (c, false)
  }

  /** A due permit starts a run. */
  lemma DuePermitRuns(cfg: Config, clears: bool, c: Ctx, w: Wake)
    requires c.lifecycle.Parked?
    requires (w.RetryPermit? && Due(c.retryAt, w.retryNow)) || (w.WaitPermit? && Due(c.waitUntil, w.waitNow))
    ensures Handle(cfg, clears, c, w).0.calls != c.calls
  {
    if w.RetryPermit? {
      RunIsWellBehaved(cfg, c.(retryAt := None), w.retryRun);
    } else {
      var c1 := c.(waitUntil := None);
      RunIsWellBehaved(cfg, if w.overBudget then c1 else Record(c1, WaitElapsed(c.waitArmedSecs)), w.waitRun);
    }
  }

  lemma HandleOne(cfg: Config, clears: bool, c: Ctx, w: Wake)
    ensures HandleAll(cfg, clears, c, [w]) == Handle(cfg, clears, c, w)
  {
    assert [w][1..] == [];
  }

  /** A parked agent sleeps through everything but prompts and cancels if and only if no deadline
      is armed. */
  lemma ParkedSleepsIff(cfg: Config, clears: bool, c: Ctx)
    requires c.lifecycle.Parked?
    ensures Sleeps(cfg, clears, c) <==> c.waitUntil == None && c.retryAt == None
  {
    if c.waitUntil == None && c.retryAt == None {
      forall wakes: seq<Wake> | forall i :: 0 <= i < |wakes| ==> !Wakes(wakes[i])
        ensures HandleAll(cfg, clears, c, wakes) == (c, false)
      {
        ParkedSleepsThrough(cfg, clears, c, wakes);
      }
    } else {
      var run := (n: nat) => Call((i: nat) => WorkPass(), 0, false);
      var w := if c.retryAt.Some? then RetryPermit(c.retryAt.value, run) else WaitPermit(c.waitUntil.value, false, run);
      DuePermitRuns(cfg, clears, c, w);
      HandleOne(cfg, clears, c, w);
      assert !Wakes([w][0]);
    }
  }

  /** A pass whose tool calls end in `break(wait)`. */
  function WaitPass(): Pass {
    Pass([], false, [], false, Proceed, Consumed("", true), Proceed, BrokeOff("t", UntilWait(60)), [])
  }

  /** A pass that runs its tools and asks for another round. */
  function WorkPass(): Pass {
    Pass([], false, [], false, Proceed, Consumed("", true), Proceed, Results("t"), [])
  }

  /** The drain as written, on a concrete trace: a prompt whose round ends in `break(wait)`
      and whose drain round runs out of passes parks the agent with the wait timer still
      armed, and the timer then starts a round in the parked agent. */
  lemma StaleTimerUnparks(c: Ctx)
    requires Timed(c)
    ensures var cfg := Config(1, 0, 3, n => 1);
            var waitCall := Call(i => WaitPass(), 100, false);
            var workCall := Call(i => WorkPass(), 100, false);
            var prompt := Prompt("p", n => waitCall, Some("m"), n => workCall);
            var (d, ended) := Handle(cfg, false, c, prompt);
            && !ended && d.lifecycle.Parked? && d.waitUntil == Some(160)
            && var (e, _) := Handle(cfg, false, d, WaitPermit(160, false, n => waitCall));
            && e.lifecycle.Waiting? && |e.calls| == |d.calls| + 1
  {
    var cfg := Config(1, 0, 3, n => 1);
    var waitCall := Call(i => WaitPass(), 100, false);
    var workCall := Call(i => WorkPass(), 100, false);
    assert PassOutcome(WaitPass()) == Some(Break(UntilWait(60)));
    assert PassOutcome(WorkPass()) == None;
    assert RoundsFrom(1, waitCall.passes, 0).outcome == Break(UntilWait(60));
    assert RoundsFrom(1, workCall.passes, 1).outcome == ParkNow(ParkMaxRounds);
    assert RoundsFrom(1, workCall.passes, 0).outcome == ParkNow(ParkMaxRounds);
  }

  // ---------------------------------------------------------------- transient retries

  /** A retrying agent is within its retry budget, and its attempt number is the count of
      consecutive chain failures. */
  predicate RetryOk(cfg: Config, c: Ctx) {
    c.lifecycle.Retrying? ==>
      && c.lifecycle.attempt == c.transientFails && c.lifecycle.maxAttempts == cfg.maxTransient
      && 1 <= c.lifecycle.attempt <= cfg.maxTransient
  }

  lemma {:induction false} RunRetryOk(cfg: Config, c: Ctx, calls: nat -> Call, noProgress: nat)
    requires noProgress <= cfg.maxHeartbeats
    ensures var (d, terminate) := RunFrom(cfg, c, calls, noProgress); !terminate ==> RetryOk(cfg, d)
    decreases cfg.maxHeartbeats - noProgress
  {
    var (c1, o) := CallRounds(cfg, c, calls(noProgress));
    if o.BareAssistant? && noProgress + 1 <= cfg.maxHeartbeats {
      RunRetryOk(cfg, AfterHeartbeat(c1, o.content), calls, noProgress + 1);
    }
  }

  /** Over every run of the code as written, stale timers or not. */
  lemma {:induction false} RetriesStayInBudget(cfg: Config, clears: bool, c: Ctx, wakes: seq<Wake>)
    requires RetryOk(cfg, c)
    ensures var (d, ended) := HandleAll(cfg, clears, c, wakes); !ended ==> RetryOk(cfg, d)
    decreases |wakes|
  {
    if wakes != [] {
      ArmRetryOk(cfg, clears, c, wakes[0]);
      var (c1, ended) := Handle(cfg, clears, c, wakes[0]);
      if !ended { RetriesStayInBudget(cfg, clears, c1, wakes[1..]); }
    }
  }

  lemma ArmRetryOk(cfg: Config, clears: bool, c: Ctx, w: Wake)
    requires RetryOk(cfg, c)
    ensures var (d, ended) := Handle(cfg, clears, c, w); !ended ==> RetryOk(cfg, d)
  {
    forall e: Ctx, run: nat -> Call
      ensures var (d, terminate) := RunAndReport(cfg, e, run); !terminate ==> RetryOk(cfg, d)
    {
      RunRetryOk(cfg, Enter(e, Running), run, 0);
    }
  }

  /** `n` runs in a row whose first round finds the whole chain down. */
  function ChainFailures(cfg: Config, c: Ctx, runs: seq<nat -> Call>): Ctx
    decreases |runs|
  {
    if runs == [] then c else ChainFailures(cfg, RunAndReport(cfg, c, runs[0]).0, runs[1..])
  }

  predicate ChainDown(cfg: Config, run: nat -> Call) {
    RoundsFrom(cfg.maxToolRounds, run(0).passes, 0).outcome.ParkNow?
    && RoundsFrom(cfg.maxToolRounds, run(0).passes, 0).outcome.park.ParkChain?
  }

  /** Consecutive chain failures retry until the budget is spent and park from then on. */
  lemma {:induction false} ChainFailuresPark(cfg: Config, c: Ctx, runs: seq<nat -> Call>)
    requires cfg.maxTransient < U32_MAX && c.transientFails + |runs| <= U32_MAX && runs != []
    requires forall i :: 0 <= i < |runs| ==> ChainDown(cfg, runs[i])
    ensures var d := ChainFailures(cfg, c, runs);
            && d.transientFails == c.transientFails + |runs|
            && (if c.transientFails + |runs| <= cfg.maxTransient then d.lifecycle.Retrying?
                else d.lifecycle == Parked(TransientRetryExhausted))
    decreases |runs|
  {
    assert ChainDown(cfg, runs[0]);
    var c1 := RunAndReport(cfg, c, runs[0]).0;
    assert c1.transientFails == c.transientFails + 1;
    if |runs| > 1 {
      ChainFailuresPark(cfg, c1, runs[1..]);
    }
  }
}
