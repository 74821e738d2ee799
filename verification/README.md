# Kallip, verified

A Dafny model of the parts of Kallip whose correctness spans several functions or a whole
protocol, with proofs over every input, every run and every interleaving.

`dafny verify dfyconfig.toml` checks the whole project.

## Components

- **Execution gate and background registry** (`GateProtocol`, `GateDrain`, `GatePaths`,
  `ExecGate`). Foreground execs, background spawns, adoptions, kills, registry drops and carves
  as one transition system over permit holders, tally, epoch and tasks, one atomic action per
  step; what undisturbed procedures come to; the gate's own operations as methods on top of it.
- **Agent loop** (`AgentLoop`, `RunAnswers`, `AgentTask`). Lifecycle, rounds, heartbeats, timers
  and stored permits as step functions, what runs and arms answer read off their inputs, and the
  agent object whose methods update its fields accordingly.
- **History, repair, restore, migration** (`Pairing`, `History`, `Recovery`, `RepairAftermath`,
  `Migration`). The append-only log as lines in day files (parsed records, corrupt lines, torn
  tails, unreadable files), the newest-first scans over it, the offline repair that appends to it,
  the split documents with their backups, and the legacy-to-split migration under crashes.
- **Acquisition** (`RetryBudget`, `Failover`, `Acquisition`, `AcquireAnswers`, `Acquirer`,
  `RequestBound`, `RequestOverrun`). The shared retry log, the forward-only profile chain and the
  two nested retry loops, as a specification of whole runs and as the object that carries them
  out; what a call answers to its readings; the bound on requests and the exact condition for it.
  Clock, request outcomes, deadlines and cancellation come from an arbitrary environment.
- **Bounded capture and disk quota** (`Capture`, `DiskQuota`). Head, rolling tail and lazy
  spill of one stream; the shared byte pool under concurrent compare-and-swap writers.
- **Tool turns and text slicing** (`ToolTurn`, `TextSlice`).
- **Message marker** (`Json`, `Marker`, `MarkerEcho`). String escaping as section 7 of RFC 8259
  allows it, a parser for the whole JSON grammar, the brace-walking scan.
- **Blob store** (`BlobProtocol`, `BlobStore`). Concurrent uploads and deletes step by step, the
  backend's operations, id encoding.

`Bytes`, `Digits` and `Options` hold shared definitions.

Abstractions: time is a nondecreasing natural number; the token estimator, the digest, client
construction and the context-budget check are arbitrary functions; LLM, tool, disk and
file-system outcomes are arbitrary inputs; a rename is atomic.

## Where the code differs from what it says

- The post-round drain (`crates/kallip-runtime/src/agent_task.rs:382-388`) starts a round without
  clearing the timers, against the stated discipline
  (`crates/kallip-runtime/src/agent_task.rs:131-135`). A wait timer left over this way wakes a
  parked agent (`StaleTimerUnparks`); `WrittenArmKeepsTimersIff` says exactly which arms do this.
- `max_turn_id` returns the newest record's id, not the highest. A repair append of an older turn
  makes the two differ (`RepairKeepsMaxIff`), and a rebuild can then hand out a recorded id
  (`RebuildAfterRepairIff`, `RepairReusesTurnId`).
- A rebuilt window is promised ascending (`crates/kallip-runtime/src/history.rs:281-293`). After a
  repair of an older turn it can put a newer turn in front of the repaired one
  (`RepairDisordersWindow`, on turns such as those of `SuchTurns`); `WindowAscendsIff` and `ConversationAscendsIff` say exactly when.
- Every restore appends its own record to history. When the last history line lost its newline,
  that append destroys it, and a window turn recorded only there is gone at the next load
  (`MigrationSurvivesIff`, `UnterminatedRecordIsLost`).
- A repair append to a history file whose last line lost its newline is swallowed together with
  that line, and one to an unreadable file is never read back (`RepairReloadsIff`,
  `LostRepairShows`).
- The retry log keeps 20 records, described as biting only far past any configured budget
  (`crates/kallip-common/src/retry.rs:5-8`). Two endpoints with the default budget of 10 fill it.
  The bound of one request per profile plus one budget per distinct endpoint holds if and only if
  the log holds one budget and, between any two profiles of one endpoint, every budget the chain
  offers in between (`BoundHoldsIff`); four profiles on endpoints a, b, c, a break it
  (`SharedEndpointOverspends`). The failing half is not a matter of time standing still: it holds
  under every clock as long as the retry window outlasts the retries (`PacedBoundIff`), which with
  the default delays takes a window longer than the default. With a budget above 20, which the
  configuration admits (`crates/kallip-runtime/src/config.rs:174-177`), an endpoint that opens
  streams and drops them is retried without end (`DropsForever`, `AlwaysEndsIff`).
- With the placeholder cap of all ones the saturating comparison of a reservation never refuses and
  the addition after it can wrap (`SaturatedCapWraps`); every other cap is exact
  (`PoolIsExactIff`).
- The access decision is shaped by carves under the gate, and also changed outside it: locks are
  released or handed back (`crates/kallip-tagma/src/routes/agent.rs:596-634`), and reactivating a
  dead subagent takes its workspace lock again without WRITE
  (`crates/kallip-tagma/src/delivery.rs:469-488`), which narrows what the supervisor may write while
  its background tasks run. A running task's domain never predates the last gated carve, but can
  predate such a change (`ReshapeOvertakes`).
- An upload whose bucket directory cannot be created leaves its staging file behind, although any
  failure is said to remove it (`DirFailureLeaks`, `TmpIsCleanIff`).
- An id is good from the upload's commit, not from its return: a delete in between leaves it
  dangling (`ReturnCanDangle`).
- The marker's quoted key can occur in a send echo, for instance when the recipient is the key
  itself; the echo is still never recognised (`MessageSentIsSilent`).

## Model

| member | source | states |
|---|---|---|
| `GateProtocol.RunningTasksAreCurrent` | crates/kallip-shell/src/supervisor.rs:314-405 | in every reachable state of any interleaving, a task still in STATE_RUNNING was forked at the current carve epoch from an access decision no older than the last gated carve, and no carve is past its tally check |
| `GateProtocol.ReshapeOvertakes` | crates/kallip-tagma/src/delivery.rs:469-488 | no more holds of the live decision: a change outside the gate overtakes every running task at once; it stands for the reactivation of a dead subagent, which takes its workspace lock again without WRITE and narrows the supervisor's writable set, and for lock releases, transfers back and roll-backs |
| `GateProtocol.PermitFollowsPhase` | crates/kallip-shell/src/backend.rs:267-294 | in every reachable state READ is held from admission to the end of the fork window and again during an adoption, and not while a command runs on, waits or has ended |
| `GateProtocol.CarveLandsAlone` | crates/kallip-shell/src/gate.rs:99-120 | when a carve bumps the epoch, no process is in a fork window, counted or running, and none holds READ |
| `GateProtocol.AdoptionIsExact` | crates/kallip-shell/src/supervisor.rs:487-532 | the epoch comparison of an adoption passes exactly when no carve landed since the fork; passing means the domain was composed after the last gated carve, failing refuses |
| `GateProtocol.TallyIsExact` | crates/kallip-shell/src/gate.rs:125-157 | `running_bg` is the number of increments still owed; the zero branch of `dec_bg` is never reached |
| `GateProtocol.DischargedOnce` | crates/kallip-shell/src/supervisor.rs:588-683 | a step lowers the tally exactly when it moves one process from owed to paid; nothing is ever paid twice or unpaid |
| `GateProtocol.OnlyFirstMarkCounts` | crates/kallip-shell/src/supervisor.rs:670-683 | whoever loses the race to report a task terminal changes nothing |
| `GateProtocol.PaidForever` | crates/kallip-shell/src/supervisor.rs:643-683 | a paid increment stays paid over every continuation |
| `GateProtocol.InvStep` | crates/kallip-shell/src/backend.rs:267-294 | every step of every actor keeps the four-part invariant (accounts, exclusion, domains, payments) |
| `GateProtocol.InvRun` | crates/kallip-shell/src/backend.rs:413-523 | so does every schedule, including timeout conversion and refusal |
| `GateProtocol.DebtOfAction` | crates/kallip-shell/src/supervisor.rs:399-438 | only an increment creates a debt and only a winning compare-and-swap settles one |
| `GateProtocol.AccountsStep` | crates/kallip-shell/src/gate.rs:125-157 | tally, debts and payments stay in balance over every step |
| `GateProtocol.ExclusionStep` | crates/kallip-shell/src/gate.rs:81-120 | a carve in progress excludes readers, and past its check excludes counted tasks |
| `GateProtocol.NextKeeps` | crates/kallip-shell/src/backend.rs:267-294 | over its own step a process keeps its permit, its pinned domain and its fork stamp |
| `GateProtocol.BystanderStep` | crates/kallip-shell/src/gate.rs:99-120 | over any other actor's step a process keeps its part of the invariant |
| `GateDrain.GateAlwaysReopens` | crates/kallip-shell/src/gate.rs:81-157 | from every reachable state, without a new arrival and without anybody giving up, the carve under way and every process can finish; then READ is free, nothing is owed and a carve is admitted |
| `GateDrain.OpenIffAtRest` | crates/kallip-shell/src/gate.rs:99-120 | the gate is open exactly when no process holds READ or owes a decrement |
| `GatePaths.ExecRuns` | crates/kallip-shell/src/backend.rs:250-294 | an undisturbed foreground exec leaves its command running with the present epoch and access decision, READ returned, and nothing else changed |
| `GatePaths.SpawnRuns` | crates/kallip-shell/src/supervisor.rs:314-405 | an undisturbed background spawn leaves one more running task, counted, owed and listed, READ returned |
| `GatePaths.AdoptRuns` | crates/kallip-shell/src/supervisor.rs:487-532 | an undisturbed adoption keeps the command as a task with its own domain when no carve landed since the fork, and drops it without a trace otherwise |
| `GatePaths.EndRuns` | crates/kallip-shell/src/supervisor.rs:643-683 | a task reported terminal has its increment paid by one load and one swap |
| `GatePaths.UnwindRuns` | crates/kallip-shell/src/supervisor.rs:399-438 | a spawn or adoption failing behind its increment takes it back |
| `GatePaths.CarveRuns` | crates/kallip-shell/src/gate.rs:99-120 | an undisturbed carve is refused without a trace while a task is counted, and otherwise opens a new epoch with a decision of its own |
| `ExecGate.Registry.TryWrite` | crates/kallip-shell/src/gate.rs:99-120 | refuses with the one right reason and no trace, or lands; it lands if and only if no carve is under way and every process is at rest, so always when all are waiting, running on in the foreground or gone |
| `ExecGate.Registry.DecAttempt` | crates/kallip-shell/src/gate.rs:138-157 | one load and swap with a rival step between them: it settles the increment, or loses and changes nothing of the caller; the registry keeps its tasks meanwhile |
| `ExecGate.Registry.DecBg` | crates/kallip-shell/src/gate.rs:138-157 | the swap loop ends under any finite interference and settles exactly this increment |
| `ExecGate.Registry.MarkTerminal` | crates/kallip-shell/src/supervisor.rs:670-683 | the first report pays one decrement whatever others do meanwhile; a later one leaves the state as it is |
| `ExecGate.Registry.Kill` | crates/kallip-shell/src/supervisor.rs:588-610 | with rivals at work, a task still running is paid for exactly once whether the watcher reports before the fallback, during it or not at all, and ends unlisted and terminal; no other task leaves the map or comes back to life |
| `ExecGate.Registry.DropRegistry` | crates/kallip-shell/src/supervisor.rs:613-635 | with watchers still at work, afterwards nothing is listed and every task that was is terminal with its decrement made or under way; undisturbed, those still running are paid for and all others untouched |
| `AgentLoop.RunIsWellBehaved` | crates/kallip-runtime/src/agent_task.rs:548-761 | every run entered outside Running makes legal transitions only, emits exactly one terminal event and emits it last, lands in the state it stands for unless it ends the task, and stays within the heartbeat and round bounds |
| `AgentLoop.RunFromFinishes` | crates/kallip-runtime/src/agent_task.rs:548-761 | the same from any heartbeat count |
| `AgentLoop.ConcludeShape` | crates/kallip-runtime/src/lifecycle.rs:71-88 | every way to conclude emits one terminal event last and makes at most one, legal, transition |
| `AgentLoop.LegalByTarget` | crates/kallip-runtime/src/lifecycle.rs:71-88 | the transition table read by target, edge for edge |
| `AgentLoop.RoundsAreBounded` | crates/kallip-runtime/src/runner.rs:71-166 | at most `max_tool_rounds` passes, the last one being the first that ends the loop |
| `AgentLoop.EmissionsAreQuiet` | crates/kallip-runtime/src/event.rs:118-130 | no place a pass sends from (stream consumer, retries, acquisition loop, tool executor) sends a terminal event |
| `AgentLoop.RoundsAreQuiet` | crates/kallip-runtime/src/runner.rs:63-167 | so no call of the round loop does |
| `AgentLoop.RunTimers` | crates/kallip-runtime/src/agent_task.rs:778-819 | whether timers match the state after a run is decided by what was armed when it began |
| `AgentLoop.RunFromTimers` | crates/kallip-runtime/src/agent_task.rs:778-819 | a run replaces the timer of the state it lands in and leaves the other one |
| `AgentLoop.ClearingArmKeepsTimers` | crates/kallip-runtime/src/agent_task.rs:364-492 | with a drain that clears, every arm keeps: wait armed exactly in Waiting, retry exactly in Retrying |
| `AgentLoop.RunEnds` | crates/kallip-runtime/src/agent_task.rs:548-761 | which timer a run arms, and whether it ends the task, is decided by its calls and the chain failures before it |
| `AgentLoop.WrittenArmKeepsTimersIff` | crates/kallip-runtime/src/agent_task.rs:382-388 | as written, an arm keeps that if and only if it is not a prompt with a message behind it whose own run arms a timer and whose drain run neither ends the task nor arms the same one; an empty inbox is safe |
| `AgentLoop.ClearingRunsKeepTimers` | crates/kallip-runtime/src/agent_task.rs:364-492 | over whole runs with a clearing drain |
| `AgentLoop.WrittenRunsKeepTimersIff` | crates/kallip-runtime/src/agent_task.rs:364-492 | over whole runs as written, the timers stay matched between all arms if and only if no arm leaves a stale one |
| `AgentLoop.EmptyInboxKeepsTimers` | crates/kallip-runtime/src/agent_task.rs:364-492 | in particular in every run in which no message waits behind a prompt |
| `AgentLoop.ParkedSleepsIff` | crates/kallip-runtime/src/agent_task.rs:402-492 | a parked agent sleeps through all notifies and stored permits if and only if no deadline is armed |
| `AgentLoop.ParkedSleepsThrough` | crates/kallip-runtime/src/agent_task.rs:402-492 | with matched timers a parked agent is untouched by any notifies and stored permits: only a prompt or a cancel reaches it |
| `AgentLoop.FirstRunIsTimed` | crates/kallip-runtime/src/agent_task.rs:343-362 | the run of an initial prompt hands the loop matched timers |
| `AgentLoop.StaleTimerUnparks` | crates/kallip-runtime/src/agent_task.rs:382-388 | a concrete trace of the code as written in which a leftover wait timer starts a round in a parked agent |
| `AgentLoop.RetriesStayInBudget` | crates/kallip-runtime/src/agent_task.rs:462-469 | over every run a retrying agent's attempt number is its failure count and within the budget |
| `AgentLoop.ChainFailuresPark` | crates/kallip-runtime/src/agent_task.rs:778-793 | consecutive chain failures retry until the budget is spent and park from then on |
| `RunAnswers.FirstCheckDecides` | crates/kallip-runtime/src/runner.rs:71-166 | a pass is decided by the first of its seven checks that does not let it go on, and records and sends what lies before it |
| `RunAnswers.SomeCheckDecides` | crates/kallip-runtime/src/runner.rs:71-166 | and some check always does |
| `RunAnswers.RoundsRecord` | crates/kallip-runtime/src/runner.rs:63-167 | a call of the round loop records and sends exactly what its passes do |
| `RunAnswers.RunLands` | crates/kallip-runtime/src/agent_task.rs:548-761 | for every run: the turns and events of its calls, and event, state, wait, failure count and end of task as the table over the concluding call says |
| `RunAnswers.LastCallIs` | crates/kallip-runtime/src/agent_task.rs:592-617 | the concluding call is the first that is not a bare response, or the one past the limit |
| `RunAnswers.ArmLands` | crates/kallip-runtime/src/agent_task.rs:364-492 | an arm that starts a run records what it hears and what its runs record, and lands where the last one lands; any other arm changes nothing but to announce a cancel |
| `RunAnswers.LoopRecords` | crates/kallip-runtime/src/agent_task.rs:364-492 | the messages on record are exactly those prompted or pulled, each once and in order |
| `RunAnswers.LifeRecords` | crates/kallip-runtime/src/agent_task.rs:343-494 | the same for a whole task, its first prompt in front |
| `RunAnswers.LifeStarts` | crates/kallip-runtime/src/agent_task.rs:354-362 | without a first prompt the loop starts at once; an empty one ends the task |
| `AgentTask.Agent.RunAgentRounds` | crates/kallip-runtime/src/runner.rs:63-167 | the bounded loop records and emits exactly what the round specification says |
| `AgentTask.Agent.Settle` | crates/kallip-runtime/src/agent_task.rs:548-761 | the outcome match of a run, state against specification |
| `AgentTask.Agent.RunAndReport` | crates/kallip-runtime/src/agent_task.rs:548-761 | the heartbeat loop refines the run specification |
| `AgentTask.Agent.HandleWake` | crates/kallip-runtime/src/agent_task.rs:364-492 | one resolved select arm refines the arm specification, with the drain as written |
| `AgentTask.Agent.Serve` | crates/kallip-runtime/src/agent_task.rs:364-494 | the outer loop refines the whole-run specification the timer theorems speak about |
| `AgentTask.Agent.LiveOut` | crates/kallip-runtime/src/agent_task.rs:343-494 | the whole task, run of the initial prompt included, refines its specification |
| `Pairing.ProbesAreExact` | crates/kallip-runtime/src/tool_execution.rs:279-312 | the two damage probes together flag exactly the turns in which some declared id has no answer or some answer no declaration |
| `Pairing.SynthesizedAnswers` | crates/kallip-runtime/src/tool_execution.rs:327-347 | synthesized results answer exactly the given calls and declare nothing |
| `Pairing.RepairIsClean` | crates/kallip-runtime/src/persistence.rs:928-990 | a repaired turn is paired, declares what it declared, and keeps every non-orphan message |
| `Pairing.RepairKeepsClean` | crates/kallip-runtime/src/persistence.rs:928-990 | a clean turn is left as it is |
| `Pairing.RepairIsIdempotent` | crates/kallip-runtime/src/persistence.rs:928-990 | repairing twice is repairing once |
| `Pairing.RepairKeepsOrder` | crates/kallip-runtime/src/persistence.rs:957-975 | the repaired turn is the kept messages in their order, then one result per unanswered call in declaration order, naming the tool |
| `Pairing.RepairAnswersFollow` | crates/kallip-runtime/src/persistence.rs:957-975 | after it every result stands behind a declaration of its id, if the declared ones did before |
| `History.HydrateTurns` | crates/kallip-runtime/src/history.rs:207-255 | the early-exit newest-first scan returns, in id order, the latest record of every wanted id over the whole log, and exactly the ids without one as missing; it stops at the first line by which all have been seen and counts the corrupt lines from there on |
| `History.OthersAreNoTurns` | crates/kallip-runtime/src/history.rs:207-255 | a line that is not a turn record with an id changes no turn |
| `History.RecordsAreTurns` | crates/kallip-runtime/src/history.rs:207-255 | a turn record is the latest of its id and the newest |
| `History.CountCorruptLast` | crates/kallip-runtime/src/history.rs:220-241 | only lines that do not parse are counted |
| `History.HydrationPartitions` | crates/kallip-runtime/src/history.rs:207-255 | hydrated and missing ids partition the wanted ids, whatever corrupt or system lines occur |
| `History.ScanTurns` | crates/kallip-runtime/src/history.rs:207-255 | what an early exit leaves unread cannot matter to the turns |
| `History.ScanMissing` | crates/kallip-runtime/src/history.rs:207-255 | nor to the missing ids |
| `History.MaxTurnId` | crates/kallip-runtime/src/history.rs:262-279 | the id of the newest turn record, 0 without one |
| `History.TailTurnsWithinBudget` | crates/kallip-runtime/src/history.rs:294-331 | the budgeted tail scan equals the window specification |
| `History.FittingIsLongest` | crates/kallip-runtime/src/history.rs:294-331 | a newest-first run fits the budget if and only if it is no longer than the one kept |
| `Recovery.TailWindowIsLongestRun` | crates/kallip-runtime/src/persistence.rs:1118-1148 | the rebuilt window is the longest newest-first run of deduplicated turns within budget, and ascending on an ordered log; for a log repairs were appended to see `WindowAscendsIff` |
| `Recovery.RebuildWindowFromTail` | crates/kallip-runtime/src/persistence.rs:1118-1148 | the rebuild of pins, trimmed window and next id refines its specification |
| `Recovery.CountDamagedLead` | crates/kallip-runtime/src/persistence.rs:1118-1155 | the leading damaged turns, and no more |
| `Recovery.RebuildIsFresh` | crates/kallip-runtime/src/persistence.rs:1118-1148 | on an ordered log the next id is above every recorded id, the window is ascending, starts at a paired turn and holds latest records; for a log repairs were appended to see `RebuildAfterRepairIff` and `ConversationAscendsIff` |
| `Recovery.NextIdIs` | crates/kallip-runtime/src/persistence.rs:1118-1148 | a restored next id is the given one, or one past the last turn when that is higher |
| `Recovery.OrderedNewestIsMax` | crates/kallip-runtime/src/history.rs:262-279 | under nondecreasing append order the newest id is the highest |
| `Recovery.AgentDir.Repair` | crates/kallip-runtime/src/persistence.rs:928-990 | plans one action per damaged window turn and, when executing, appends exactly their repaired records; the first append that fails ends the pass without a report and leaves the records before it |
| `Recovery.RepairAll` | crates/kallip-runtime/src/persistence.rs:928-990 | the repair loop, stopping at the first append that fails |
| `Recovery.PlanListsDamage` | crates/kallip-runtime/src/persistence.rs:942-956 | one action per turn that is not paired, in window order |
| `Recovery.ActionNames` | crates/kallip-runtime/src/persistence.rs:942-956 | each names its turn, its unanswered calls and its orphan results, in order |
| `Recovery.RepairReloads` | crates/kallip-runtime/src/persistence.rs:928-990 | repair then reload gives the repaired window when the target file takes an append |
| `Recovery.RepairedWindow` | crates/kallip-runtime/src/persistence.rs:928-990 | the repaired window has the same ids, is paired throughout, leaves clean turns alone and estimates the others anew, and a second repair plans nothing |
| `Recovery.RepairReloadsIff` | crates/kallip-runtime/src/persistence.rs:978-986 | repair then reload gives the repaired window if and only if there is nothing to append, the file takes an append, or the swallowed append repeats an older record |
| `Recovery.LostRepairShows` | crates/kallip-runtime/src/history.rs:98-131 | otherwise the first damaged turn reloads unrepaired |
| `Recovery.TwinReloads` | crates/kallip-runtime/src/history.rs:98-131 | the corner in which a swallowed repair does no harm |
| `Recovery.VisibleAppend` | crates/kallip-runtime/src/history.rs:98-131 | an append to a terminated or new file adds exactly its line |
| `Recovery.TornAppend` | crates/kallip-runtime/src/history.rs:98-131 | an append to a file torn before its newline destroys both lines |
| `RepairAftermath.Landing` | crates/kallip-runtime/src/history.rs:98-131 | what a row of appends leaves of any log: the base lines, then every record but the ones a torn or unreadable file swallowed |
| `RepairAftermath.BaseOrdered` | crates/kallip-runtime/src/history.rs:98-131 | a swallowed append keeps an ordered log ordered |
| `RepairAftermath.RepairKeepsMaxIff` | crates/kallip-runtime/src/persistence.rs:978-986 | after repairs, whatever file they were appended to, `max_turn_id` is still the highest id if and only if none landed or the last that did is at least as new as the records below it |
| `RepairAftermath.RebuiltNext` | crates/kallip-runtime/src/persistence.rs:1118-1148 | the next id a rebuild hands out: one past the newest record, unless that overflows the window and a later pin pushes it up |
| `RepairAftermath.RebuildAfterRepairIff` | crates/kallip-runtime/src/persistence.rs:978-986 | a rebuild after repairs hands out an unused id if and only if none landed, the last that did is at least as new as the records below, or it overflows the window alone and the last pin is as new as those |
| `RepairAftermath.NewestAfterRepair` | crates/kallip-runtime/src/history.rs:294-331 | the newest-first deduplicated turns after repairs: the repaired ones in descending order, then what the log below holds beside them |
| `RepairAftermath.WindowAfterRepair` | crates/kallip-runtime/src/history.rs:281-331 | the tail window after repairs: the repaired turns behind as much of the log below as still fits, or the longest run of repaired turns that fits |
| `RepairAftermath.WindowAscendsIff` | crates/kallip-runtime/src/history.rs:281-331 | that window is ascending if and only if no repair landed, nothing else is recorded, the newest other turn is older than the first repaired one, or it no longer fits behind them |
| `RepairAftermath.RebuiltAscendsIff` | crates/kallip-runtime/src/persistence.rs:1118-1155 | the rebuilt conversation is ascending in those cases, or when every other turn in the window is damaged and trimmed away |
| `RepairAftermath.ConversationAscendsIff` | crates/kallip-runtime/src/persistence.rs:1118-1155 | the same after a repair of any ordered log, torn and unreadable tails included |
| `RepairAftermath.RepairReusesTurnId` | crates/kallip-runtime/src/persistence.rs:978-986 | two turns, the older one damaged: a rebuild after the repair hands out an id that is not above the newer one, under every budget |
| `RepairAftermath.RepairDisordersWindow` | crates/kallip-runtime/src/persistence.rs:978-986 | and with room for both it puts the newer turn first |
| `Migration.MigrationSurvivesCrashes` | crates/kallip-runtime/src/persistence.rs:1002-1081 | after any number of crashes and restores at any point, each appending its record to history whole or cut short, the next load of a legacy directory recovers the same pins, window and next id, when the log is durable |
| `Migration.MigrationSurvivesIff` | crates/kallip-runtime/src/persistence.rs:776-854 | it does so over all runs if and only if the history tail takes or ignores an append, or its unterminated last line is not the record some window turn needs |
| `Migration.TornTailLosesTurn` | crates/kallip-runtime/src/persistence.rs:828-842 | otherwise one undisturbed restore loses a window turn |
| `Migration.UnterminatedRecordIsLost` | crates/kallip-runtime/src/persistence.rs:828-842 | the smallest case: one window turn whose only record lost its newline |
| `Migration.NoteKeepsHistory` | crates/kallip-runtime/src/history.rs:98-131 | the restore record keeps a durable log durable |
| `Migration.InvStep` | crates/kallip-runtime/src/persistence.rs:1189-1197 | every write, rename, append and crash keeps: legacy untouched until the manifest is published, both split documents whole from then on |
| `Migration.InvLoads` | crates/kallip-runtime/src/persistence.rs:478-492 | every disk in between loads to the original store |
| `Migration.SplitLoads` | crates/kallip-runtime/src/persistence.rs:1002-1052 | the split documents of a store load to that store |
| `Migration.SplitLoadsIff` | crates/kallip-runtime/src/persistence.rs:1002-1052 | they do so if and only if history holds every window turn |
| `Migration.LostManifestLoads` | crates/kallip-runtime/src/persistence.rs:478-492 | a manifest that is missing or does not parse loads as its whole backup in its place, and without one the window is rebuilt |
| `Migration.LostPinsLoad` | crates/kallip-runtime/src/persistence.rs:1086-1102 | so do lost pins; without a whole backup they load as none |
| `Migration.LoadsWithoutManifest` | crates/kallip-runtime/src/persistence.rs:1002-1081 | what is loaded when there is neither manifest nor backup, case by case |
| `Migration.WriteKeepsAVersion` | crates/kallip-runtime/src/persistence.rs:450-468 | replacing a document: the old version loads until the rename and the new one from then on, wherever the write is cut; a copied backup still loads once the new one is lost |
| `Migration.MigrationCompletes` | crates/kallip-runtime/src/persistence.rs:1183-1197 | an undisturbed migration publishes both documents, leaves no temporary file and archives the legacy document |
| `Migration.LeftoverIsRetired` | crates/kallip-runtime/src/persistence.rs:1010-1016 | a legacy document left over beside a manifest is archived by the next restore |
| `Migration.HydrateWindow` | crates/kallip-runtime/src/history.rs:207-255 | hydrating a window's own ids gives the window back |
| `RetryBudget.RecordedInBudget` | crates/kallip-runtime/src/context/store.rs:376-387 | recording at most what is left of one endpoint's budget keeps every endpoint in budget, whatever the append evicts |
| `RetryBudget.CountLast` | crates/kallip-runtime/src/acquisition.rs:320-330 | a record counts if and only if it is of the endpoint and younger than the window |
| `RetryBudget.RecordedIs` | crates/kallip-runtime/src/context/store.rs:376-387 | an append keeps, in order, what is not older than the window, and of that the last twenty |
| `RetryBudget.PerEndpointTotal` | crates/kallip-runtime/src/acquisition.rs:320-330 | at most `max` records for each of `n` endpoints are at most `max * n` records |
| `RetryBudget.CountAges` | crates/kallip-runtime/src/acquisition.rs:320-330 | an in-window count only falls as time passes |
| `Acquisition.AttemptsStop` | crates/kallip-runtime/src/retry.rs:231-341 | exactly the attempts before the one that decides are retried |
| `AcquireAnswers.FirstReadingDecides` | crates/kallip-runtime/src/acquisition.rs:157-314 | one turn of the call, over its readings alone: the first attempt that is not retried decides, a bad request ends it fatal and an abort cancelled where it is, a completed stream consumed, and an endpoint failure goes on at the next usable profile; the retried attempts are on record |
| `AcquireAnswers.SomeReadingDecides` | crates/kallip-runtime/src/retry.rs:231-341 | some attempt always decides |
| `AcquireAnswers.UnpreparedIsFatal` | crates/kallip-runtime/src/acquisition.rs:192-199 | a request that cannot be prepared is never sent and ends the call |
| `AcquireAnswers.FailAnswers` | crates/kallip-runtime/src/acquisition.rs:366-411 | a failover is cancelled, exhausted for the right reason, over the token budget at the next usable profile, or on its way there |
| `AcquireAnswers.OneReason` | crates/kallip-runtime/src/acquisition.rs:432-525 | at most one exhaustion reason is right |
| `AcquireAnswers.DropAnswers` | crates/kallip-runtime/src/acquisition.rs:230-312 | a dropped stream fails over once the budget is spent, ends when cancelled, and otherwise puts one retry on record and goes on |
| `RequestBound.AcquireInBudget` | crates/kallip-runtime/src/acquisition.rs:157-348 | over a whole call the stored in-window count of every endpoint never exceeds the budget |
| `RequestBound.SessionInBudget` | crates/kallip-runtime/src/acquisition.rs:157-348 | nor over any sequence of calls with time passing between them, across profile resets and changes of budget, counting by the largest budget |
| `RequestBound.AcquireEnds` | crates/kallip-runtime/src/acquisition.rs:157-314 | with no record of the call expiring and a budget the log holds, the call ends by itself after at most (profiles left)·(max+1) requests |
| `RequestBound.AcquireWithin` | crates/kallip-runtime/src/acquisition.rs:157-314 | and after at most profiles left + max·(endpoints left) when the log holds what the chain offers between two profiles of one endpoint |
| `RequestBound.RunKeeps` | crates/kallip-runtime/src/acquisition.rs:157-314 | the books of a whole run: requests are the recorded retries plus one per profile visited |
| `RequestBound.SpendKeeps` | crates/kallip-runtime/src/acquisition.rs:339-348 | recording no more than what was left of the budget keeps the books, also when it is flushed later |
| `RequestBound.ShowsAfter` | crates/kallip-runtime/src/context/store.rs:376-387 | an append keeps the newest records of the call the newest of the log |
| `RequestBound.AllSeen` | crates/kallip-runtime/src/acquisition.rs:320-330 | under the condition on the chain the budget check sees everything the call has spent on the endpoint |
| `RequestBound.SinceFirst` | crates/kallip-runtime/src/acquisition.rs:320-330 | records since an endpoint's first one stem from the stretch of chain in between and fit the log |
| `RequestOverrun.BoundHoldsIff` | crates/kallip-runtime/src/acquisition.rs:157-314 | the request bound holds in all surroundings if and only if the log holds one budget and, between any two profiles of one endpoint, every budget the chain offers in between |
| `RequestOverrun.PacedBoundIff` | crates/kallip-runtime/src/acquisition.rs:157-314 | the same for every single clock, however fast it runs between readings, whose window outlasts the readings of such a call |
| `RequestOverrun.AlwaysEndsIff` | crates/kallip-runtime/src/acquisition.rs:157-314 | the call ends by itself in all surroundings if and only if the log holds one budget |
| `RequestOverrun.PacedEndsIff` | crates/kallip-runtime/src/acquisition.rs:157-314 | the same for every such clock |
| `RequestOverrun.Overrun` | crates/kallip-runtime/src/acquisition.rs:157-314 | where the condition fails, a plan of transient failures records more than one budget per endpoint |
| `RequestOverrun.PlannedRun` | crates/kallip-runtime/src/acquisition.rs:157-314 | under any clock that stays within the window, a planned run visits every profile left, with one request more than it records at each |
| `RequestOverrun.DropsForever` | crates/kallip-runtime/src/acquisition.rs:230-312 | a budget larger than the log is never seen spent: an endpoint whose streams drop is retried without end, under any clock |
| `RequestOverrun.SharedEndpointOverspends` | crates/kallip-runtime/src/acquisition.rs:157-314 | with the default budget of ten, four profiles whose last shares the first one's endpoint already break the bound, under every clock whose first 225 readings stay within the window |
| `Acquirer.StreamAcquirer.AcquireStream` | crates/kallip-runtime/src/acquisition.rs:157-314 | the loop leaves log, requests, position and result exactly as the run specification of the bounds says |
| `Acquirer.StreamAcquirer.AcquireOnce` | crates/kallip-runtime/src/acquisition.rs:157-314 | one turn of the loop refines one turn of the run |
| `Acquirer.StreamAcquirer.Settle` | crates/kallip-runtime/src/acquisition.rs:192-312 | what a turn makes of its request, case by case |
| `Acquirer.StreamAcquirer.MidStream` | crates/kallip-runtime/src/acquisition.rs:230-312 | a dropped stream records one retry while the shared budget lasts, otherwise fails over; a cancelled wait records nothing |
| `Acquirer.StreamAcquirer.StepFailover` | crates/kallip-runtime/src/acquisition.rs:366-411 | goes on at the least usable later profile with the chain agreeing, or ends for the one right reason |
| `Acquirer.StreamAcquirer.StreamWithRetry` | crates/kallip-runtime/src/retry.rs:211-341 | counts the budget, sends up to the attempt that decides, and flushes one record per retried attempt; an unprepared request is never sent |
| `Acquirer.StreamAcquirer.RetryLoop` | crates/kallip-runtime/src/retry.rs:231-341 | the attempt loop buffers exactly the retried attempts and returns what the deciding one comes to |
| `Failover.Chain.AdvanceFailover` | crates/kallip-runtime/src/acquisition.rs:432-551 | commits exactly the least later profile that builds and fits, with index, client, window and snapshot agreeing (also when it reports the budget exceeded); otherwise changes nothing and names the one exhaustion reason |
| `Failover.Chain.ApplyProfileReset` | crates/kallip-runtime/src/agent_task.rs:510-533 | nothing changes unless the new head builds; client and window agree exactly when the window is accepted or unchanged |
| `Failover.TargetIsNextUsable` | crates/kallip-runtime/src/acquisition.rs:432-525 | the forward search finds the one target there is, or shows that every later candidate is skipped |
| `Capture.ChunkingIsInvisible` | crates/kallip-shell/src/capture.rs:280-295 | folding any chunk list gives the first head-budget bytes and the last tail-budget bytes of the rest of its concatenation |
| `Capture.HeadRefines` | crates/kallip-shell/src/capture.rs:280-286 | one chunk keeps the head the stream's prefix |
| `Capture.TailRefines` | crates/kallip-shell/src/capture.rs:287-295 | one chunk keeps the tail the last bytes of the rest |
| `Capture.BoundedCapture.Push` | crates/kallip-shell/src/capture.rs:240-295 | a chunk is recorded everywhere or refused everywhere, refusals are exactly the denied reservations, a healthy file is byte for byte what was recorded, and reservations equal bytes on disk |
| `Capture.BoundedCapture.OpenOnOverflow` | crates/kallip-shell/src/capture.rs:249-265 | the first overflow opens the file with the complete prefix, or leaves it closed or poisoned with nothing reserved |
| `Capture.BoundedCapture.PushAll` | crates/kallip-shell/src/capture.rs:240-317 | a stream never refused is recorded whole whatever the chunking, and a healthy file of an overflowing stream is the stream |
| `Capture.BoundedCapture.RenderView` | crates/kallip-shell/src/capture.rs:322-341 | the view is everything recorded, or its first head-budget and last tail-budget bytes, with the exact nonzero gap until a refusal and with the refused bytes counted in afterwards |
| `Capture.ClippedIsHonest` | crates/kallip-shell/src/capture.rs:322-341 | prefix, gap and suffix of an overflowing stream put it back together |
| `DiskQuota.PoolIsExact` | crates/kallip-shell/src/capture.rs:44-66 | after any interleaving of any number of writers the pool is within its cap, at least the bytes on disk, and exactly those when no write is under way |
| `DiskQuota.InvStep` | crates/kallip-shell/src/capture.rs:44-66 | every atomic access keeps pool = shares ≤ cap |
| `DiskQuota.ShareStep` | crates/kallip-shell/src/capture.rs:44-66 | a step moves the pool by what it moves its writer's share: no wrap, no underflow |
| `DiskQuota.LogIsBounded` | crates/kallip-shell/src/supervisor.rs:697-730 | every log is at most the cap plus one truncation marker at every moment |
| `DiskQuota.MarkerIsFinal` | crates/kallip-shell/src/supervisor.rs:697-730 | a marked log never grows again, so there is one marker at most |
| `DiskQuota.GrantsWhatFits` | crates/kallip-shell/src/capture.rs:44-66 | an undisturbed writer gets exactly what fits under the cap, and is refused otherwise with nothing changed but that it stops |
| `DiskQuota.SwapFailsOnlyAfterAChange` | crates/kallip-shell/src/capture.rs:44-66 | a value once read stays swappable until someone else swaps or releases |
| `DiskQuota.SaturatedCapWraps` | crates/kallip-shell/src/capture.rs:44-66 | with the all-ones cap a run from the empty pool fills it, asks for one byte more and wraps it to nothing |
| `DiskQuota.PoolIsExactIff` | crates/kallip-shell/src/capture.rs:44-66 | every run is exact if and only if the cap is below all ones |
| `ToolTurn.RoundIsPaired` | crates/kallip-runtime/src/tool_execution.rs:132-269 | every turn handed back for recording declares the model's calls and is paired, also with duplicate or empty ids; with distinct ids, or without a break, there is one answer per call in order |
| `ToolTurn.StopIsRight` | crates/kallip-runtime/src/tool_execution.rs:146-255 | the executed calls are the prefix ending at the first non-success or just before the first `break` |
| `ToolTurn.StopIsUnique` | crates/kallip-runtime/src/tool_execution.rs:146-255 | that rule admits one prefix only |
| `ToolTurn.RoundShows` | crates/kallip-runtime/src/tool_execution.rs:180-255 | the turn is the declaration, then call by call the outcome of what ran and a skip notice naming the call that stopped the round and how it ended, then a result for every call still unanswered, in order |
| `ToolTurn.RoundDrops` | crates/kallip-runtime/src/tool_execution.rs:180-204 | a round cancelled while a call ran hands back nothing |
| `ToolTurn.SynthesisPairs` | crates/kallip-runtime/src/tool_execution.rs:327-347 | answering everything unanswered pairs any turn that answers only what it declares |
| `ToolTurn.FillIn` | crates/kallip-runtime/src/tool_execution.rs:327-347 | the push loop appends exactly one result per unanswered call |
| `ToolTurn.Dispatch` | crates/kallip-runtime/src/tool_execution.rs:180-255 | one call: skip it, or execute it and arm the skip flag |
| `ToolTurn.RunCalls` | crates/kallip-runtime/src/tool_execution.rs:146-255 | the loop with its skip flag and hoisted break refines the rule |
| `ToolTurn.ExecuteToolCalls` | crates/kallip-runtime/src/tool_execution.rs:125-269 | the whole round refines the specification the pairing theorem speaks about; a cancel hands back nothing |
| `TextSlice.LineBounds` | crates/kallip-runtime/src/text_slice.rs:136-151 | the two scans find the bounds of the line containing the position |
| `TextSlice.LineStartIsRight` | crates/kallip-runtime/src/text_slice.rs:136-151 | no newline between the start and the position, one right before the start |
| `TextSlice.LineEndIsRight` | crates/kallip-runtime/src/text_slice.rs:136-151 | the end is just past the first newline at or after the position, or the end of the text |
| `TextSlice.SliceIsFaithful` | crates/kallip-runtime/src/text_slice.rs:26-58 | a slice is the whole text, or a true prefix and suffix around a marker stating the exact nonzero gap |
| `TextSlice.HeadCut` | crates/kallip-runtime/src/text_slice.rs:31-31 | the head gets three fifths of the cap, rounded down |
| `TextSlice.SliceCounts` | crates/kallip-runtime/src/text_slice.rs:26-58 | over the cap there is always a gap, each side keeps at least the raw cut, and the character slice keeps exactly the cap |
| `TextSlice.CutsAlign` | crates/kallip-runtime/src/text_slice.rs:114-132 | a cut is raw or on a line boundary |
| `TextSlice.CutsAre` | crates/kallip-runtime/src/text_slice.rs:31-45 | where the cuts fall: at the bounds of the line a raw cut is on when that line is small enough, and both raw when that would close the gap |
| `TextSlice.ShrunkIsScaled` | crates/kallip-runtime/src/text_slice.rs:80-98 | a step scales the cap by target over kept, rounded down |
| `TextSlice.ShrunkBelow` | crates/kallip-runtime/src/text_slice.rs:75-98 | every proportional step over target strictly shrinks the cap |
| `TextSlice.CapsShrink` | crates/kallip-runtime/src/text_slice.rs:75-98 | over a whole row of steps the cap falls until it is zero |
| `TextSlice.ConvergeUnderCap` | crates/kallip-runtime/src/text_slice.rs:75-110 | hands back the first of eight slices that fits, the caps scaled step by step, four steps aligned; otherwise halves the eighth cap, without a look at its slice, until one fits or the cap is one; so it misses the target only by the character slice of cap 0 or 1 |
| `Json.RoundTrip` | crates/kallip-common/src/message.rs:28-43 | whatever the printer prints the parser reads back |
| `Json.RenderReads` | crates/kallip-common/src/message.rs:28-80 | in any context that may follow a value |
| `Json.EscReads` | crates/kallip-common/src/message.rs:28-43 | for every string, escapes and control characters included |
| `Marker.MarkerIsFound` | crates/kallip-common/src/message.rs:28-129 | for every text, suffix and prefix without the quoted key, the scan returns exactly the text |
| `Marker.FindLescheMessage` | crates/kallip-common/src/message.rs:90-129 | the scan as a method equals its specification |
| `Marker.WalkBraces` | crates/kallip-common/src/message.rs:96-126 | the brace loop with its string and escape flags |
| `Marker.WalkObject` | crates/kallip-common/src/message.rs:96-126 | from its own brace the walk ends exactly at the end of a printed object, whatever its strings contain |
| `Marker.WalkRender` | crates/kallip-common/src/message.rs:96-126 | a printed value inside an object leaves the walk where it was |
| `Marker.ExtractIff` | crates/kallip-common/src/message.rs:111-126 | a document carries a text if and only if it parses as an object whose marker key last holds an object whose text key last holds that string |
| `Marker.FoundIsThere` | crates/kallip-common/src/message.rs:90-129 | what the scan finds stands in the result as such a document |
| `Marker.BraceReads` | crates/kallip-common/src/message.rs:90-129 | so the scan from a printed object's brace parses exactly that object |
| `MarkerEcho.MessageSentIsSilent` | crates/kallip-common/src/message.rs:52-80 | no send echo is recognised, for any recipient, text, depth and warning |
| `MarkerEcho.SentReads` | crates/kallip-common/src/message.rs:52-80 | parsing the echo gives recipient, text and queue depth under their keys, and the warning exactly when there is one |
| `MarkerEcho.MarkerParses` | crates/kallip-common/src/message.rs:28-43 | parsing the marker line gives the text under its keys |
| `MarkerEcho.EchoIsSilent` | crates/kallip-common/src/message.rs:45-129 | nor any nested flat object under plain keys other than the marker's |
| `MarkerEcho.StrayScan` | crates/kallip-common/src/message.rs:90-129 | a scan that starts at a brace inside a string comes back empty |
| `MarkerEcho.LocateBrace` | crates/kallip-common/src/message.rs:52-80 | every brace after the object's own is inside a string value, followed by escaped text, a quote and a comma or the end |
| `BlobProtocol.BlobsAreWhole` | crates/kallip-blob-store/src/ingest.rs:30-85 | over every interleaving of uploads, failures and deletes, a visible blob is one upload's complete content and hashes to its id |
| `BlobProtocol.CommittedReadsBack` | crates/kallip-blob-store/src/ingest.rs:59-85 | from its commit on, an upload's id reads back its bytes until that id is deleted (no two uploads colliding) |
| `BlobProtocol.VisibleIff` | crates/kallip-blob-store/src/ingest.rs:67-85 | an id is visible if and only if some commit to it has no later delete of it |
| `BlobProtocol.ReturnCanDangle` | crates/kallip-blob-store/src/ingest.rs:67-85 | a delete between commit and return leaves the caller with an id that reads back nothing |
| `BlobProtocol.InvStep` | crates/kallip-blob-store/src/ingest.rs:30-85 | every file-system step keeps staging files equal to what was hashed and blobs whole |
| `BlobProtocol.DirFailureLeaks` | crates/kallip-blob-store/src/ingest.rs:63-67 | a failed bucket directory leaves the whole content under tmp/ for good |
| `BlobProtocol.UploadRuns` | crates/kallip-blob-store/src/ingest.rs:30-85 | an undisturbed upload stores its bytes under their digest, or leaves what was there, and nothing under tmp/ |
| `BlobProtocol.FailedUploads` | crates/kallip-blob-store/src/ingest.rs:63-85 | a failed rename stores and leaves nothing, a failed bucket directory stores nothing and leaves the content |
| `BlobProtocol.TmpIsCleanIff` | crates/kallip-blob-store/src/ingest.rs:30-85 | after any run tmp/ holds files of uploads under way and nothing else if and only if no bucket directory failed and no removal failed while its file was there |
| `BlobStore.LocalBackend.PutContent` | crates/kallip-blob-store/src/ingest.rs:30-85 | stores the bytes under their digest, keeps an incumbent, or fails with nothing visible changed |
| `BlobStore.LocalBackend.GetRange` | crates/kallip-blob-store/src/local.rs:65-78 | the clamped slice, with the missing and out-of-bounds cases |
| `BlobStore.RangesTile` | crates/kallip-blob-store/src/local.rs:65-78 | adjacent ranges put together are the larger range |
| `BlobStore.DigestRoundTrip` | crates/kallip-blob-store/src/hash.rs:21-47 | a digest's id parses, no two digests share one, and its bucket is the first byte |
| `BlobStore.IdReads` | crates/kallip-blob-store/src/hash.rs:21-47 | an id is the digest's name and 64 digits |
| `BlobStore.ParsedIsADigest` | crates/kallip-blob-store/src/hash.rs:29-41 | whatever parses is the id of a digest |

## Left out

- Process spawning, signals, landlock, seccomp, pipes and the working-directory marker: only "a fork bakes the current epoch and access decision" is kept.
- Network clients, streaming transport, provider error rendering, status classification and backoff arithmetic: outcomes are arbitrary inputs.
- Lossy UTF-8 decoding: captured views are byte sequences; banners, log wording and reasons are not modelled.
- Stall detection, size watchdog thresholds and `clip_tail`: they only decide when a watcher reports terminal, which is arbitrary here.
- Compaction, context composition and the pinned-budget guard: only whether compaction reports the budget exceeded reaches the model.
- Approval store, execution policy, token budget and stream accumulator: they would only add easy members.
- Environment and command-line parsing, auth tokens, secret files, time formatting, user interfaces and the Harbor adapter.
- Spill directory permissions, symlink rejection and the content-addressed link made when a spill is finalized.
- GateProtocol.TallyIsExact: does not model 64-bit wrap-around of the tally and the epoch, which would take 2^64 tasks or carves.
- GateProtocol.RunningTasksAreCurrent: a backend built without a gate takes no permits and is not covered.
- ExecGate.Registry.Kill: a watcher that wins the report has made its decrement when the fallback starts; the other orders are schedules of `GateProtocol`.
- AgentLoop.RunIsWellBehaved: event delivery never fails, only the listed places of a pass send events, and the heartbeat counter does not overflow 32 bits.
- AgentTask.Agent.Serve: the select loop sees one resolved arm at a time; fairness and wake-up latency are not modelled.
- History.HydrateTurns: an append after a torn tail counts as destroying both lines also when the torn rest is blank.
- Recovery.RepairReloadsIff: day files are assumed to sort by day, so a clock set back across midnight is not covered; legacy directories are excluded because a reload still reads their single document.
- Migration.MigrationSurvivesIff: only the restore's own appends to history are modelled, not the turns of a running agent; the folds applied to a legacy store are one function of it; its window is ascending with current estimates after them.
- Acquirer.StreamAcquirer.AcquireStream: client construction and the window check give the same answer throughout one call.
- Capture.BoundedCapture.Push: opening the file with its prefix, and each append, is all or nothing; the byte counter is unbounded.
- DiskQuota.PoolIsExact: words are 64 bits; memory ordering is sequentially consistent per atomic.
- ToolTurn.ExecuteToolCalls: events and approval transitions are not modelled, texts and parsed `break` arguments are parameters.
- TextSlice.ConvergeUnderCap: character counts do not overflow a machine word.
- Json.RoundTrip: numbers are decimal naturals, the only ones these printers emit; the parser accepts numbers and nesting beyond the ranges a library would refuse.
- BlobProtocol.CommittedReadsBack: random staging names never collide; a power loss that undoes an unsynced directory entry is not modelled.
