/**
 The execution gate, the background registry and the fork window of a foreground exec,
 as one transition system over shared state.

 A step is one atomic action of one actor: taking or dropping the READ permit, composing
 the access decision, forking, bumping the tally, one compare-and-swap, one action of a
 carve. Any number of foreground execs, background spawns, watchers, kills, registry
 drops and carves interleave freely, so a theorem about all runs is a theorem about all
 schedules.
 */
module GateProtocol {

  type Id = nat

  /** What a child carries from its fork: the number of carves that had landed, and the
      version of the access decision its filesystem domain was composed from. Gated carves
      shape that decision under WRITE. Other changes come at any time, without the gate: lock
      releases, transfers back and roll-backs, which widen it, and the reactivation of a dead
      subagent, which takes its workspace lock again and so narrows what its supervisor may
      write while the supervisor's tasks run. */
  datatype Domain = Domain(epoch: nat, access: nat)

  datatype TaskState = Running | Exited | Killed

  /** Progress of the one `dec_bg` call an increment is owed: a load, then a
      compare-and-swap that retries the load when it loses. */
  datatype Dec = NotDue | Due | Loaded(seen: nat) | Settled

  /** Where a task stands in the registry map. */
  datatype Listing = Unlisted | Listed | Removed

  /** Program counter of one shell process, from the request to its end.
      `bg` tells a background spawn from a foreground exec. */
  datatype Proc =
    | Queued(bg: bool)                            // waiting for READ
    | Admitted(bg: bool)                          // READ held
    | Sampled(bg: bool, dom: Domain)              // READ held, access decision composed
    | Forked(bg: bool, dom: Domain)               // READ held, child running
    | Stamped(dom: Domain, stamp: nat)            // exec: epoch recorded, READ held
    | Foreground(dom: Domain, stamp: nat)         // exec: READ dropped, waiting for exit or timeout
    | Converting(dom: Domain, stamp: nat)         // timed out; adopt waits for READ
    | Rechecking(dom: Domain, stamp: nat)         // adopt holds READ, epoch not compared yet
    | Cleared(dom: Domain)                        // adopt: epoch compared equal, READ held
    | Counted(bg: bool, dom: Domain)              // inc_bg done, unwind guard armed
    | Unwound(dec: Dec)                           // unwind guard is decrementing
    | Task(dom: Domain, state: TaskState, dec: Dec, listing: Listing) // watcher spawned
    | Gone

  /** The single possible WRITE holder. */
  datatype Carve = Free | Locked | Vetted | Landed

  datatype State = State(
    readers: set<Id>,
    carve: Carve,
    tally: nat,
    epoch: nat,
    access: nat,        // version of the live access decision
    carved: nat,        // its version when a gated carve last shaped it
    procs: map<Id, Proc>,
    owed: set<Id>,      // increments whose decrement has not happened
    paid: set<Id>,      // increments whose decrement has happened
    underflow: bool)    // dec_bg found the tally at zero

  predicate Init(s: State) {
    s == State({}, Free, 0, 0, 0, 0, map[], {}, {}, false)
  }

  // ---------------------------------------------------------------- steps

  /** What one shell process, its watcher, its kill or the registry's drop can do next. */
  datatype Action =
    | Arrive(bg: bool)
    | AcquireRead
    | Sample
    | Fork
    | Stamp
    | EndForkWindow
    | Timeout
    | Recheck
    | Increment
    | ReleaseRead
    | SpawnWatcher
    | ListTask
    | RemoveTask
    | MarkTerminal(terminal: TaskState)
    | Unwind
    | DecLoad
    | DecSwap
    | Abandon

  datatype CarveMove = Lock | Vet | Bump | Shape | Release

  /** `Reshape` changes the access decision outside any gated carve, in either direction. */
  datatype Step = Act(id: Id, action: Action) | Carving(move: CarveMove) | Reshape

  /** Phases before `inc_bg` in which a failure or a cancelled future simply ends the
      process: guards drop the permit and kill the child. */
  predicate Abandonable(p: Proc) {
    p.Queued? || p.Admitted? || p.Sampled? || p.Forked? || p.Stamped? || p.Foreground?
    || p.Converting? || p.Rechecking? || p.Cleared?
  }

  /** Phases in which the code may drop a READ permit taken earlier: a spawn drops it
      right after its increment, an adoption when it returns. */
  predicate MayRelease(p: Proc) {
    (p.Counted? && p.bg) || p.Task? || p.Unwound?
  }

  function DecOf(p: Proc): Dec {
    if p.Task? then p.dec else if p.Unwound? then p.dec else NotDue
  }

  function WithDec(p: Proc, d: Dec): Proc {
    if p.Task? then p.(dec := d) else if p.Unwound? then Unwound(d) else p
  }

  /** The action is possible for a process in phase `p`. */
  predicate Ready(s: State, id: Id, p: Proc, a: Action) {
    match a
    case Arrive(_) => false
    case AcquireRead => (p.Queued? || p.Converting?) && s.carve == Free
    case Sample => p.Admitted?
    case Fork => p.Sampled?
    case Stamp => p.Forked? && !p.bg
    case EndForkWindow => p.Stamped?
    case Timeout => p.Foreground?
    case Recheck => p.Rechecking?
    case Increment => (p.Forked? && p.bg) || p.Cleared?
    case ReleaseRead => id in s.readers && MayRelease(p)
    case SpawnWatcher => p.Counted?
    case ListTask => p.Task? && p.listing == Unlisted
    case RemoveTask => p.Task? && p.listing == Listed
    case MarkTerminal(terminal) => p.Task? && terminal != Running
    case Unwind => p.Counted?
    case DecLoad => DecOf(p).Due?
    case DecSwap => DecOf(p).Loaded?
    case Abandon => Abandonable(p)
  }

  predicate CanAct(s: State, id: Id, a: Action) {
    if id in s.procs then Ready(s, id, s.procs[id], a) else a.Arrive?
  }

  predicate CanCarve(s: State, m: CarveMove) {
    match m
    case Lock => s.carve == Free && s.readers == {}
    case Vet => s.carve == Locked
    case Bump => s.carve == Vetted
    case Shape => s.carve == Landed
    case Release => s.carve == Landed
  }

  predicate Enabled(s: State, step: Step) {
    match step
    case Act(id, a) => CanAct(s, id, a)
    case Carving(m) => CanCarve(s, m)
    case Reshape => true
  }

  /** The acting process's next phase. */
  function NextProc(s: State, id: Id, a: Action): Proc
    requires CanAct(s, id, a)
  {
    if id !in s.procs then Queued(a.bg)
    else Moved(s, id, s.procs[id], a)
  }

  function Moved(s: State, id: Id, p: Proc, a: Action): Proc
    requires Ready(s, id, p, a)
  {
    match a
    case AcquireRead => if p.Queued? then Admitted(p.bg) else Rechecking(p.dom, p.stamp)
    case Sample => Sampled(p.bg, Domain(s.epoch, s.access))
    case Fork => Forked(p.bg, p.dom)
    case Stamp => Stamped(p.dom, s.epoch)
    case EndForkWindow => Foreground(p.dom, p.stamp)
    case Timeout => Converting(p.dom, p.stamp)
    case Recheck => if s.epoch != p.stamp then Gone else Cleared(p.dom)
    case Increment => Counted(p.Forked?, p.dom)
    case ReleaseRead => p
    case SpawnWatcher => Task(p.dom, Running, NotDue, Unlisted)
    case ListTask => p.(listing := Listed)
    case RemoveTask => p.(listing := Removed)
    case MarkTerminal(terminal) =>
      // compare_exchange(STATE_RUNNING, terminal): only the first caller owes the decrement
      if p.state == Running then p.(state := terminal, dec := Due) else p
    case Unwind => Unwound(Due)
    case DecLoad => WithDec(p, if s.tally == 0 then Settled else Loaded(s.tally))
    case DecSwap => WithDec(p, if s.tally == DecOf(p).seen then Settled else Due)
    case Abandon => Gone
  }

  function NextReaders(s: State, id: Id, a: Action): set<Id>
    requires CanAct(s, id, a)
  {
    if a.AcquireRead? then s.readers + {id}
    else if a.EndForkWindow? || a.ReleaseRead? || a.Abandon? || NextProc(s, id, a) == Gone then s.readers - {id}
    else s.readers
  }

  /** The compare-and-swap of `dec_bg` wins. */
  predicate SwapWins(s: State, id: Id, a: Action)
    requires CanAct(s, id, a)
  {
    a.DecSwap? && s.tally == DecOf(s.procs[id]).seen
  }

  function Apply(s: State, step: Step): State
    requires Enabled(s, step)
  {
    match step
    case Act(id, a) =>
      s.(procs := s.procs[id := NextProc(s, id, a)],
         readers := NextReaders(s, id, a),
         tally := if a.Increment? then s.tally + 1
                  else if SwapWins(s, id, a) && s.tally > 0 then s.tally - 1
                  else s.tally,
         owed := if a.Increment? then s.owed + {id} else if SwapWins(s, id, a) then s.owed - {id} else s.owed,
         paid := if SwapWins(s, id, a) then s.paid + {id} else s.paid,
         underflow := s.underflow || (a.DecLoad? && s.tally == 0))
    case Carving(Lock) => s.(carve := Locked)
    case Carving(Vet) => s.(carve := if s.tally > 0 then Free else Vetted)
    case Carving(Bump) => s.(carve := Landed, epoch := s.epoch + 1)
    case Carving(Shape) => s.(access := s.access + 1, carved := s.access + 1)
    case Carving(Release) => s.(carve := Free)
    case Reshape => s.(access := s.access + 1)
  }

  // ---------------------------------------------------------------- invariant

  /** The increment of this process has not been decremented yet. */
  predicate Owes(p: Proc) {
    p.Counted? || (p.Unwound? && p.dec != Settled) || (p.Task? && p.dec != Settled)
  }

  /** The READ permit is certainly held in this phase. */
  predicate HoldsRead(p: Proc) {
    p.Admitted? || p.Sampled? || p.Forked? || p.Stamped? || p.Rechecking? || p.Cleared?
    || (p.Counted? && !p.bg)
  }

  /** The READ permit is certainly not held in this phase: before it was asked for, between a
      fork window and an adoption, and at the end. */
  predicate Permitless(p: Proc) {
    p.Queued? || p.Foreground? || p.Converting? || p.Gone?
  }

  /** The child's domain is pinned to the present: no carve can land in this phase. */
  predicate Pinned(p: Proc) {
    p.Sampled? || p.Forked? || p.Stamped? || p.Cleared? || p.Counted? || (p.Task? && p.state == Running)
  }

  predicate Roaming(p: Proc) {
    p.Foreground? || p.Converting? || p.Rechecking?
  }

  predicate WellFormed(p: Proc) {
    && (p.Task? ==> (p.state == Running <==> p.dec == NotDue))
    && (p.Unwound? ==> p.dec != NotDue)
    && (p.Stamped? || Roaming(p) ==> p.stamp == p.dom.epoch)
  }

  /** Composed after the last gated carve, though perhaps before a later change outside one. */
  predicate Since(s: State, dom: Domain) {
    s.carved <= dom.access <= s.access
  }

  ghost predicate ProcOk(s: State, id: Id)
    requires id in s.procs
  {
    var p := s.procs[id];
    && WellFormed(p)
    && (HoldsRead(p) ==> id in s.readers)
    && (Permitless(p) ==> id !in s.readers)
    && (Pinned(p) ==> p.dom.epoch == s.epoch && Since(s, p.dom))
    && (Roaming(p) ==>
        && p.stamp <= s.epoch
        && (p.stamp == s.epoch ==> s.carve != Landed && Since(s, p.dom)))
  }

  ghost predicate Accounts(s: State) {
    && (forall id :: id in s.owed <==> id in s.procs && Owes(s.procs[id]))
    && s.tally == |s.owed|
    && !s.underflow
    && s.paid <= s.procs.Keys
    && s.owed !! s.paid
  }

  ghost predicate Exclusion(s: State) {
    && s.readers <= s.procs.Keys
    && (s.carve != Free ==> s.readers == {})
    && s.carved <= s.access
    && (s.carve == Vetted || s.carve == Landed ==> s.tally == 0)
  }

  ghost predicate PaidOk(s: State) {
    forall id :: id in s.paid ==> id in s.procs && DecOf(s.procs[id]) == Settled
  }

  ghost predicate ProcsOk(s: State) {
    forall id :: id in s.procs ==> ProcOk(s, id)
  }

  ghost predicate Inv(s: State) {
    Accounts(s) && Exclusion(s) && ProcsOk(s) && PaidOk(s)
  }

  /** A process whose increment is still owed keeps every carve out. */
  lemma OwedBlocksCarve(s: State, id: Id)
    requires Accounts(s) && Exclusion(s) && id in s.owed
    ensures s.tally > 0 && s.carve != Vetted && s.carve != Landed
  {
    assert s.owed != {};
  }

  /** Domains are pinned because a pinned process either holds READ or owes an increment. */
  lemma PinnedBlocksCarve(s: State, id: Id)
    requires Inv(s) && id in s.procs && Pinned(s.procs[id])
    ensures s.carve != Vetted && s.carve != Landed
  {
    assert ProcOk(s, id);
    if Owes(s.procs[id]) {
      OwedBlocksCarve(s, id);
    }
  }

  /** Who owes what after an action: only an increment adds a debt, only a winning swap
      settles one. */
  lemma DebtOfAction(s: State, id: Id, a: Action)
    requires Inv(s) && CanAct(s, id, a)
    ensures Owes(NextProc(s, id, a)) <==> (a.Increment? || (id in s.owed && !SwapWins(s, id, a)))
    ensures a.Increment? ==> id !in s.owed && id !in s.paid
    ensures a.DecLoad? || a.DecSwap? ==> id in s.owed && s.tally > 0
  {
    if id in s.procs { assert ProcOk(s, id); }
    if a.DecLoad? || a.DecSwap? { OwedBlocksCarve(s, id); }
  }

  lemma AccountsStep(s: State, step: Step)
    requires Inv(s) && Enabled(s, step)
    ensures Accounts(Apply(s, step))
  {
    if step.Act? {
      DebtOfAction(s, step.id, step.action);
      var t := Apply(s, step);
      assert forall o :: o != step.id ==> (o in t.procs <==> o in s.procs);
    }
  }

  lemma ExclusionStep(s: State, step: Step)
    requires Inv(s) && Enabled(s, step)
    ensures Exclusion(Apply(s, step))
  {
    if step.Act? {
      DebtOfAction(s, step.id, step.action);
      if step.id in s.procs { assert ProcOk(s, step.id); }
    }
  }

  /** The acting process keeps its part of the invariant. */
  lemma ActorStep(s: State, id: Id, a: Action)
    requires Inv(s) && CanAct(s, id, a)
    ensures ProcOk(Apply(s, Act(id, a)), id)
  {
    var t := Apply(s, Act(id, a));
    assert t.procs[id] == NextProc(s, id, a) && t.readers == NextReaders(s, id, a);
    assert t.epoch == s.epoch && t.access == s.access && t.carved == s.carved && t.carve == s.carve;
    if id in s.procs {
      assert ProcOk(s, id);
      if Pinned(s.procs[id]) { PinnedBlocksCarve(s, id); }
      NextKeeps(s, id, a);
    }
  }

  /** The phase table alone: permits, domains and stamps carry over an action. */
  lemma NextKeeps(s: State, id: Id, a: Action)
    requires CanAct(s, id, a) && id in s.procs && ProcOk(s, id) && s.carved <= s.access
    ensures var q := NextProc(s, id, a);
            && WellFormed(q)
            && (HoldsRead(q) ==> id in NextReaders(s, id, a))
            && (Permitless(q) ==> id !in NextReaders(s, id, a))
            && (Pinned(q) ==> q.dom.epoch == s.epoch && Since(s, q.dom))
            && (Roaming(q) ==>
                && q.stamp <= s.epoch
                && (q.stamp == s.epoch ==> (s.carve != Landed || s.procs[id].Stamped?) && Since(s, q.dom)))
  {
  }

  /** So does every process that watches a step go by. */
  lemma BystanderStep(s: State, step: Step, other: Id)
    requires Inv(s) && Enabled(s, step) && other in s.procs
    requires step.Act? ==> step.id != other
    ensures ProcOk(Apply(s, step), other)
  {
    assert ProcOk(s, other);
    if Pinned(s.procs[other]) { PinnedBlocksCarve(s, other); }
  }

  lemma ProcsStep(s: State, step: Step, id: Id)
    requires Inv(s) && Enabled(s, step) && id in Apply(s, step).procs
    ensures ProcOk(Apply(s, step), id)
  {
    if step.Act? && step.id == id {
      ActorStep(s, id, step.action);
    } else {
      BystanderStep(s, step, id);
    }
  }

  lemma AllProcsStep(s: State, step: Step)
    requires Inv(s) && Enabled(s, step)
    ensures ProcsOk(Apply(s, step))
  {
    forall id | id in Apply(s, step).procs ensures ProcOk(Apply(s, step), id) {
      ProcsStep(s, step, id);
    }
  }

  lemma PaidStep(s: State, step: Step)
    requires Inv(s) && Enabled(s, step)
    ensures PaidOk(Apply(s, step))
  {
    if step.Act? {
      var t := Apply(s, step);
      forall id | id in t.paid ensures id in t.procs && DecOf(t.procs[id]) == Settled {
        if id == step.id && id in s.paid {
          assert ProcOk(s, id);
        }
      }
    }
  }

  lemma InvStep(s: State, step: Step)
    requires Inv(s) && Enabled(s, step)
    ensures Inv(Apply(s, step))
  {
    AccountsStep(s, step);
    ExclusionStep(s, step);
    AllProcsStep(s, step);
    PaidStep(s, step);
  }

  // ---------------------------------------------------------------- whole runs

  /** `steps` is a schedule the code can follow from `s`. */
  predicate Feasible(s: State, steps: seq<Step>)
    decreases |steps|
  {
    steps == [] || (Enabled(s, steps[0]) && Feasible(Apply(s, steps[0]), steps[1..]))
  }

  function Execute(s: State, steps: seq<Step>): State
    requires Feasible(s, steps)
    decreases |steps|
  {
    if steps == [] then s else Execute(Apply(s, steps[0]), steps[1..])
  }

  ghost predicate Reachable(s: State) {
    exists s0: State, steps: seq<Step> :: Init(s0) && Feasible(s0, steps) && Execute(s0, steps) == s
  }

  lemma {:induction false} InvRun(s: State, steps: seq<Step>)
    requires Inv(s) && Feasible(s, steps)
    ensures Inv(Execute(s, steps))
    decreases |steps|
  {
    if steps != [] {
      InvStep(s, steps[0]);
      InvRun(Apply(s, steps[0]), steps[1..]);
    }
  }

  lemma ReachableInv(s: State)
    requires Reachable(s)
    ensures Inv(s)
  {
    var s0, steps :| Init(s0) && Feasible(s0, steps) && Execute(s0, steps) == s;
    InvRun(s0, steps);
  }

  // ---------------------------------------------------------------- main results

  /** Under every interleaving, a task still in STATE_RUNNING was forked at the current carve
      epoch, and its domain was composed from an access decision no older than the one the last
      carve shaped; in particular an adopted task never runs a domain composed before a carve. */
  lemma RunningTasksAreCurrent(s: State, id: Id)
    requires Reachable(s)
    requires id in s.procs && s.procs[id].Task? && s.procs[id].state == Running
    ensures s.procs[id].dom.epoch == s.epoch && Since(s, s.procs[id].dom)
    ensures s.carve != Vetted && s.carve != Landed
  {
    ReachableInv(s);
    assert ProcOk(s, id);
    PinnedBlocksCarve(s, id);
  }

  lemma {:induction false} ExecuteThen(s: State, steps: seq<Step>, step: Step)
    requires Feasible(s, steps) && Enabled(Execute(s, steps), step)
    ensures Feasible(s, steps + [step]) && Execute(s, steps + [step]) == Apply(Execute(s, steps), step)
    decreases |steps|
  {
    if steps == [] {
      assert [step][1..] == [];
    } else {
      assert (steps + [step])[1..] == steps[1..] + [step];
      ExecuteThen(Apply(s, steps[0]), steps[1..], step);
    }
  }

  /** No more can be said about the live decision: a change outside the gate overtakes every
      running task at once. */
  lemma ReshapeOvertakes(s: State, id: Id)
    requires Reachable(s) && id in s.procs && s.procs[id].Task? && s.procs[id].state == Running
    ensures var t := Apply(s, Reshape);
            Reachable(t) && id in t.procs && t.procs[id] == s.procs[id] && t.procs[id].dom.access < t.access
  {
    RunningTasksAreCurrent(s, id);
    var s0, steps :| Init(s0) && Feasible(s0, steps) && Execute(s0, steps) == s;
    ExecuteThen(s0, steps, Reshape);
  }

  /** READ is held from its admission to the end of the fork window, and again during an
      adoption: not while a process waits for it, not while a foreground command runs on or
      waits to be adopted, and not at the end. */
  lemma PermitFollowsPhase(s: State, id: Id)
    requires Reachable(s) && id in s.procs
    ensures HoldsRead(s.procs[id]) ==> id in s.readers
    ensures Permitless(s.procs[id]) ==> id !in s.readers
  {
    ReachableInv(s);
    assert ProcOk(s, id);
  }

  /** A carve lands only when no task runs and no fork window is open. */
  lemma CarveLandsAlone(s: State, id: Id)
    requires Reachable(s) && Enabled(s, Carving(Bump)) && id in s.procs
    ensures !Pinned(s.procs[id]) && id !in s.readers
  {
    ReachableInv(s);
    if Pinned(s.procs[id]) { PinnedBlocksCarve(s, id); }
  }

  /** Adoption succeeds exactly when no carve has landed since the fork: a passing
      comparison means the child's domain was composed after the last gated carve, a failing one that
      a carve has overtaken it. */
  lemma AdoptionIsExact(s: State, id: Id)
    requires Reachable(s) && Enabled(s, Act(id, Recheck))
    ensures Apply(s, Act(id, Recheck)).procs[id].Cleared? <==> s.procs[id].dom.epoch == s.epoch
    ensures Apply(s, Act(id, Recheck)).procs[id].Cleared? ==> Since(s, s.procs[id].dom)
    ensures !Apply(s, Act(id, Recheck)).procs[id].Cleared? ==> Apply(s, Act(id, Recheck)).procs[id] == Gone
  {
    ReachableInv(s);
    assert ProcOk(s, id);
  }

  /** The tally is the number of increments still owed; it never runs short, so the
      zero clamp of `dec_bg` is dead code, and with nothing owed a carve is admitted. */
  lemma TallyIsExact(s: State)
    requires Reachable(s)
    ensures s.tally == |set id | id in s.procs && Owes(s.procs[id])|
    ensures !s.underflow
    ensures (forall id :: id in s.procs ==> !Owes(s.procs[id])) ==> s.tally == 0
  {
    ReachableInv(s);
    assert s.owed == set id | id in s.procs && Owes(s.procs[id]);
  }

  /** Each increment is discharged exactly once: every decrement moves exactly one process
      from owed to paid, a paid one stays paid, and no other step lowers the tally. */
  lemma DischargedOnce(s: State, step: Step)
    requires Reachable(s) && Enabled(s, step)
    ensures var t := Apply(s, step);
            && s.paid <= t.paid && t.owed !! t.paid
            && (t.tally < s.tally <==> t.paid != s.paid)
            && (t.paid != s.paid ==>
                exists id :: id in s.owed && id !in s.paid && t.paid == s.paid + {id} && t.owed == s.owed - {id})
  {
    ReachableInv(s);
    AccountsStep(s, step);
    if step.Act? {
      DebtOfAction(s, step.id, step.action);
    }
  }

  /** The loser of the race to report a task terminal changes nothing and owes nothing. */
  lemma OnlyFirstMarkCounts(s: State, id: Id, first: TaskState, second: TaskState)
    requires Enabled(s, Act(id, MarkTerminal(first))) && second != Running
    ensures var t := Apply(s, Act(id, MarkTerminal(first)));
            Enabled(t, Act(id, MarkTerminal(second))) && Apply(t, Act(id, MarkTerminal(second))) == t
  {
  }

  /** Once a process owes nothing it never owes again, and once it is paid no schedule
      makes it pay twice. */
  lemma {:induction false} PaidForever(s: State, steps: seq<Step>, id: Id)
    requires Inv(s) && Feasible(s, steps) && id in s.paid
    ensures id in Execute(s, steps).paid && id !in Execute(s, steps).owed
    decreases |steps|
  {
    if steps != [] {
      InvStep(s, steps[0]);
      PaidForever(Apply(s, steps[0]), steps[1..], id);
    }
  }
}
