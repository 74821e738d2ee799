/**
 The gate's and the registry's own operations, as methods over the shared state. Each
 changes it only by steps of the protocol, so everything proved of all schedules holds
 during and after them; what is stated here is what each call achieves.
 */
module ExecGate {
  import opened GateProtocol
  import opened GateDrain

  datatype WriteResult = Granted | ForegroundExecInProgress | BgTasksRunning(n: nat)

  predicate IsListed(p: Proc) {
    p.Task? && p.listing == Listed
  }

  /** What an undisturbed registry drop makes of a process: a listed one is unlisted and
      terminal, and paid for if it was still running; any other is left alone. */
  predicate AfterDrop(p: Proc, q: Proc, paid: bool) {
    if IsListed(p) then q.Task? && q.state != Running && q.listing == Removed && (p.state == Running ==> paid)
    else q == p
  }

  /** Half way through an undisturbed drop. */
  ghost predicate Alone(before: map<Id, Proc>, s: State, todo: set<Id>) {
    && s.procs.Keys == before.Keys
    && forall x :: x in before ==>
         if x in todo then s.procs[x] == before[x] else AfterDrop(before[x], s.procs[x], x in s.paid)
  }

  lemma AloneNext(before: map<Id, Proc>, s: State, t: State, todo: set<Id>, id: Id)
    requires Alone(before, s, todo) && id in todo && id in s.procs && id in t.procs && t.procs == s.procs[id := t.procs[id]]
    requires s.paid <= t.paid && AfterDrop(s.procs[id], t.procs[id], id in t.paid)
    ensures Alone(before, t, todo - {id})
  {
  }

  /** Half way through a drop: `todo` is what is still listed, the rest has been dropped. */
  ghost predicate Draining(before: map<Id, Proc>, procs: map<Id, Proc>, todo: set<Id>) {
    && (forall x :: x in procs && IsListed(procs[x]) <==> x in todo)
    && (forall x :: x in before && IsListed(before[x]) && x !in todo ==> x in procs && Dropped(procs[x]))
  }

  lemma DrainNext(before: map<Id, Proc>, was: map<Id, Proc>, now: map<Id, Proc>, todo: set<Id>, id: Id)
    requires Draining(before, was, todo) && id in todo && id in now && Dropped(now[id])
    requires forall x :: x in now && IsListed(now[x]) <==> x in was && x != id && IsListed(was[x])
    requires forall x :: x in was && Dropped(was[x]) ==> x in now && Dropped(now[x])
    ensures Draining(before, now, todo - {id})
  {
  }

  /** The registry map belongs to the caller: nobody else lists or unlists a task meanwhile. */
  predicate Quiet(step: Step) {
    step.Act? ==> !step.action.ListTask? && !step.action.RemoveTask?
  }

  /** Steps others may take while a decrement for `id` is under way; the task's own watcher may
      still report it. */
  ghost predicate Rivals(steps: seq<Step>, id: Id) {
    forall r :: r in steps ==> Quiet(r) && Foreign(r, id)
  }

  predicate Foreign(step: Step, id: Id) {
    step.Act? && step.id == id ==> step.action.MarkTerminal?
  }

  /** What a quiet step makes of a task: it stays one, where it is listed, and once terminal it
      stays terminal. */
  predicate TaskKept(p: Proc, q: Proc) {
    p.Task? ==> q.Task? && q.listing == p.listing && (p.state != Running ==> q.state != Running)
  }

  /** The registry's view over quiet steps: no task leaves or joins the map, none comes back to
      life, and what is paid stays paid. */
  ghost predicate Calm(s: State, t: State) {
    && s.paid <= t.paid
    && (forall x :: x in s.procs ==> x in t.procs && TaskKept(s.procs[x], t.procs[x]))
    && (forall x :: x in t.procs && IsListed(t.procs[x]) ==> x in s.procs && IsListed(s.procs[x]))
  }

  lemma QuietProc(s: State, id: Id, a: Action)
    requires CanAct(s, id, a) && Quiet(Act(id, a))
    ensures id in s.procs ==> TaskKept(s.procs[id], NextProc(s, id, a))
    ensures IsListed(NextProc(s, id, a)) ==> id in s.procs && IsListed(s.procs[id])
  {
  }

  /** Unlisted and terminal: its decrement is made, or its reporter is making it. */
  predicate Dropped(p: Proc) {
    p.Task? && p.listing == Removed && p.state != Running && p.dec != NotDue
  }

  lemma DroppedOnly(s: State, removed: State, t: State, id: Id)
    requires Inv(t) && Enabled(s, Act(id, RemoveTask)) && removed == Apply(s, Act(id, RemoveTask)) && Calm(removed, t)
    requires id in t.procs && t.procs[id].Task? && t.procs[id].state != Running
    ensures Dropped(t.procs[id])
    ensures forall x :: x in t.procs && IsListed(t.procs[x]) <==> x in s.procs && x != id && IsListed(s.procs[x])
    ensures forall x :: x in s.procs && Dropped(s.procs[x]) ==> x in t.procs && Dropped(t.procs[x])
  {
    assert ProcOk(t, id) && TaskKept(removed.procs[id], t.procs[id]);
    forall x | x in s.procs && x != id ensures x in t.procs && TaskKept(s.procs[x], t.procs[x]) && ProcOk(t, x) {
      assert x in removed.procs && removed.procs[x] == s.procs[x];
    }
  }

  lemma CalmStep(s: State, step: Step)
    requires Enabled(s, step) && Quiet(step)
    ensures Calm(s, Apply(s, step))
  {
    if step.Act? { QuietProc(s, step.id, step.action); }
  }

  lemma CalmThen(a: State, b: State, c: State)
    requires Calm(a, b) && Calm(b, c)
    ensures Calm(a, c)
  {
    forall x | x in a.procs ensures x in c.procs && TaskKept(a.procs[x], c.procs[x]) {
      assert x in b.procs;
    }
  }

  /** With a debt outstanding the load sees a positive tally. */
  lemma LoadEffect(s: State, id: Id)
    requires Inv(s) && id in s.procs && DecOf(s.procs[id]) == Due
    ensures Enabled(s, Act(id, DecLoad)) && s.tally > 0
    ensures Apply(s, Act(id, DecLoad)) == s.(procs := s.procs[id := WithDec(s.procs[id], Loaded(s.tally))])
  {
    DebtOfAction(s, id, DecLoad);
  }

  lemma SwapEffect(s: State, id: Id)
    requires Inv(s) && id in s.procs && DecOf(s.procs[id]).Loaded?
    ensures Enabled(s, Act(id, DecSwap))
    ensures var t := Apply(s, Act(id, DecSwap));
            var won := s.tally == DecOf(s.procs[id]).seen;
            && t.procs == s.procs[id := WithDec(s.procs[id], if won then Settled else Due)]
            && t.tally == (if won then s.tally - 1 else s.tally)
            && t.paid == (if won then s.paid + {id} else s.paid)
  {
    DebtOfAction(s, id, DecSwap);
  }

  lemma RivalEffect(s: State, step: Step, id: Id)
    requires Inv(s) && Enabled(s, step) && id in s.procs && Foreign(step, id) && DecOf(s.procs[id]) != NotDue
    ensures id in Apply(s, step).procs && Apply(s, step).procs[id] == s.procs[id] && s.paid <= Apply(s, step).paid
  {
    assert ProcOk(s, id);
  }

  lemma MapTwice(a: map<Id, Proc>, b: map<Id, Proc>, c: map<Id, Proc>, id: Id)
    requires id in b && id in c && b == a[id := b[id]] && c == b[id := c[id]]
    ensures c == a[id := c[id]]
  {
  }

  class Registry {
    var st: State

    constructor ()
      ensures Inv(st) && Init(st)
    {
      st := State({}, Free, 0, 0, 0, 0, map[], {}, {}, false);
    }

    /** One atomic action. */
    method Do(step: Step)
      requires Inv(st) && Enabled(st, step)
      modifies this
      ensures st == Apply(old(st), step) && Inv(st)
    {
      InvStep(st, step);
      st := Apply(st, step);
    }

    /** Non-blocking carve admission: refuses without a trace, or lands with no reader, no
        running task and no open fork window anywhere. */
    method TryWrite() returns (r: WriteResult)
      requires Inv(st)
      modifies this
      ensures Inv(st)
      ensures r == ForegroundExecInProgress <==> old(st.readers != {} || st.carve != Free)
      ensures r.BgTasksRunning? <==> old(st.readers == {} && st.carve == Free && st.tally > 0)
      ensures r.BgTasksRunning? ==> r.n == old(st.tally)
      ensures r != Granted ==> st == old(st)
      ensures r == Granted ==> st == old(st).(carve := Landed, epoch := old(st.epoch) + 1)
      ensures r == Granted <==> old(st.carve == Free && AllAtRest(st))
      ensures old(st.carve == Free && forall id :: id in st.procs ==> Permitless(st.procs[id])) ==> r == Granted
      ensures r == Granted ==> forall id :: id in st.procs ==> !Pinned(st.procs[id]) && !Owes(st.procs[id])
    {
      OpenIffAtRest(st);
      PermitlessAreAtRest(st);
      if st.readers != {} || st.carve != Free {
        return ForegroundExecInProgress;
      }
      Do(Carving(Lock));
      var bg := st.tally;
      Do(Carving(Vet));
      if bg > 0 {
        return BgTasksRunning(bg);
      }
      Do(Carving(Bump));
      forall id | id in st.procs ensures !Pinned(st.procs[id]) && !Owes(st.procs[id]) {
        if Pinned(st.procs[id]) { PinnedBlocksCarve(st, id); }
        if Owes(st.procs[id]) { OwedBlocksCarve(st, id); }
      }
      r := Granted;
    }

    /** One load and one swap of `dec_bg`, with at most one rival step between them. */
    method DecAttempt(id: Id, rivals: seq<Step>) returns (won: bool)
      requires Inv(st) && id in st.procs && DecOf(st.procs[id]) == Due
      requires |rivals| <= 1 && Rivals(rivals, id)
      modifies this
      ensures Inv(st) && id in st.procs && Calm(old(st), st)
      ensures !won ==> st.procs[id] == old(st.procs[id]) && rivals != []
      ensures won ==> st.procs[id] == WithDec(old(st.procs[id]), Settled) && id in st.paid
      ensures won && rivals == [] ==> st.tally == old(st.tally) - 1 && st.procs == old(st.procs)[id := st.procs[id]]
    {
      ghost var s0 := st;
      LoadEffect(st, id);
      CalmStep(st, Act(id, DecLoad));
      Do(Act(id, DecLoad));
      ghost var s1 := st;
      Rival(id, rivals);
      won := st.tally == DecOf(st.procs[id]).seen;
      SwapEffect(st, id);
      CalmStep(st, Act(id, DecSwap));
      ghost var s2 := st;
      Do(Act(id, DecSwap));
      CalmThen(s0, s1, s2);
      CalmThen(s0, s2, st);
      if rivals == [] { MapTwice(s0.procs, s1.procs, st.procs, id); }
    }

    /** Somebody else's turn. */
    method Rival(id: Id, rivals: seq<Step>)
      requires Inv(st) && id in st.procs && |rivals| <= 1 && Rivals(rivals, id) && DecOf(st.procs[id]) != NotDue
      modifies this
      ensures Inv(st) && id in st.procs && st.procs[id] == old(st.procs[id]) && Calm(old(st), st)
      ensures rivals == [] ==> st == old(st)
    {
      if rivals != [] && Enabled(st, rivals[0]) {
        assert rivals[0] in rivals;
        RivalEffect(st, rivals[0], id);
        CalmStep(st, rivals[0]);
        Do(rivals[0]);
      }
    }

    /** The compare-and-swap loop, with any number of rival steps taken by others between a
        load and its swap: it ends, settles exactly this increment, and never meets the zero
        clamp. */
    method DecBg(id: Id, rivals: seq<Step>)
      requires Inv(st) && id in st.procs && DecOf(st.procs[id]) == Due && Rivals(rivals, id)
      modifies this
      ensures Inv(st) && id in st.procs && id in st.paid && id !in st.owed && Calm(old(st), st)
      ensures st.procs[id] == WithDec(old(st.procs[id]), Settled)
      ensures rivals == [] ==> st.tally == old(st.tally) - 1 && st.procs == old(st.procs)[id := st.procs[id]]
    {
      ghost var start := st;
      var next := 0;
      while true
        invariant Inv(st) && next <= |rivals| && id in st.procs && st.procs[id] == start.procs[id]
        invariant Calm(start, st) && (rivals == [] ==> st == start)
        decreases |rivals| - next
      {
        ghost var before := st;
        var rival := if next < |rivals| then [rivals[next]] else [];
        var won := DecAttempt(id, rival);
        CalmThen(start, before, st);
        if won {
          return;
        }
        next := next + 1;
      }
    }

    /** Whoever reports a task terminal first pays its decrement, whatever others do meanwhile;
        later callers change nothing. */
    method MarkTerminal(id: Id, terminal: TaskState, rivals: seq<Step>)
      requires Inv(st) && id in st.procs && st.procs[id].Task? && terminal != Running && Rivals(rivals, id)
      modifies this
      ensures Inv(st) && id in st.procs && st.procs[id].Task? && st.procs[id].state != Running && Calm(old(st), st)
      ensures old(st.procs[id].state) == Running ==>
                && st.procs[id].state == terminal && id in st.paid && id !in st.owed
                && (rivals == [] ==> st.tally == old(st.tally) - 1)
      ensures rivals == [] ==> st.procs == old(st.procs)[id := st.procs[id]]
      ensures old(st.procs[id].state) != Running ==> st == old(st)
    {
      ghost var start := st;
      var first := st.procs[id].state == Running;
      assert ProcOk(st, id);
      CalmStep(st, Act(id, GateProtocol.MarkTerminal(terminal)));
      Do(Act(id, GateProtocol.MarkTerminal(terminal)));
      if first {
        ghost var marked := st;
        DecBg(id, rivals);
        CalmThen(start, marked, st);
      } else {
        assert start.procs[id := start.procs[id]] == start.procs;
      }
    }

    /** Kill: unlist the task, let the watcher report first or not, settle as a fallback. A task
        still running is paid for exactly once, whoever reports it and whatever others do. */
    method Kill(id: Id, watcherReports: bool, exit: TaskState, rivals: seq<Step>) returns (found: bool)
      requires Inv(st) && exit != Running && Rivals(rivals, id)
      modifies this
      ensures Inv(st) && found == old(id in st.procs && IsListed(st.procs[id]))
      ensures !found ==> st == old(st)
      ensures found ==> id in st.procs && st.procs[id].Task? && st.procs[id].state != Running && st.procs[id].listing == Removed
      ensures found && old(st.procs[id].state) == Running ==>
                id in st.paid && id !in st.owed && st.procs[id].state == (if watcherReports then exit else Killed)
      ensures found && rivals == [] ==> st.tally == old(st.tally) - (if old(st.procs[id].state) == Running then 1 else 0)
      ensures found ==> forall x :: x in old(st.procs) && x != id ==> x in st.procs && TaskKept(old(st.procs)[x], st.procs[x])
    {
      if id !in st.procs || !IsListed(st.procs[id]) {
        return false;
      }
      Do(Act(id, RemoveTask));
      ReportOrKill(id, watcherReports, exit, rivals);
      found := true;
    }

    /** The watcher's report, if it comes in time, and the fallback that follows it. */
    method ReportOrKill(id: Id, watcherReports: bool, exit: TaskState, rivals: seq<Step>)
      requires Inv(st) && id in st.procs && st.procs[id].Task? && exit != Running && Rivals(rivals, id)
      modifies this
      ensures Inv(st) && id in st.procs && st.procs[id].Task? && st.procs[id].state != Running && Calm(old(st), st)
      ensures old(st.procs[id].state) == Running ==>
                id in st.paid && id !in st.owed && st.procs[id].state == (if watcherReports then exit else Killed)
      ensures rivals == [] ==> st.tally == old(st.tally) - (if old(st.procs[id].state) == Running then 1 else 0)
    {
      ghost var start := st;
      if watcherReports {
        MarkTerminal(id, exit, rivals);
      }
      ghost var reported := st;
      MarkTerminal(id, Killed, rivals);
      if watcherReports { CalmThen(start, reported, st); }
    }

    /** Dropping the registry while watchers go on: nothing is listed any more, every task that
        was listed is terminal, and its decrement is made or under way, never lost. With nobody
        else about, those still running are paid for and all other processes untouched. */
    method DropRegistry(rivals: Id -> seq<Step>)
      requires Inv(st) && forall id :: Rivals(rivals(id), id)
      modifies this
      ensures Inv(st) && forall x :: x in st.procs ==> !IsListed(st.procs[x])
      ensures forall x :: x in old(st.procs) && IsListed(old(st.procs)[x]) ==>
                x in st.procs && Dropped(st.procs[x])
      ensures (forall id :: rivals(id) == []) ==>
                && st.procs.Keys == old(st.procs).Keys
                && forall x :: x in st.procs ==> AfterDrop(old(st.procs)[x], st.procs[x], x in st.paid)
    {
      var todo := set id | id in st.procs && IsListed(st.procs[id]);
      ghost var before := st.procs;
      ghost var alone := forall id :: rivals(id) == [];
      while todo != {}
        invariant Inv(st)
        invariant Draining(before, st.procs, todo)
        invariant alone ==> Alone(before, st, todo)
        decreases todo
      {
        var id :| id in todo;
        ghost var was := st;
        DropOne(id, rivals(id));
        DrainNext(before, was.procs, st.procs, todo, id);
        if alone { AloneNext(before, was, st, todo, id); }
        todo := todo - {id};
      }
    }

    method DropOne(id: Id, rivals: seq<Step>)
      requires Inv(st) && id in st.procs && IsListed(st.procs[id]) && Rivals(rivals, id)
      modifies this
      ensures Inv(st) && id in st.procs && Dropped(st.procs[id])
      ensures AfterDrop(old(st.procs)[id], st.procs[id], id in st.paid) && old(st.paid) <= st.paid
      ensures rivals == [] ==> st.procs == old(st.procs)[id := st.procs[id]]
      ensures forall x :: x in st.procs && IsListed(st.procs[x]) <==> x in old(st.procs) && x != id && IsListed(old(st.procs)[x])
      ensures forall x :: x in old(st.procs) && Dropped(old(st.procs)[x]) ==> x in st.procs && Dropped(st.procs[x])
    {
      ghost var start := st;
      Do(Act(id, RemoveTask));
      ghost var removed := st;
      MarkTerminal(id, Killed, rivals);
      DroppedOnly(start, removed, st, id);
    }
  }
}
