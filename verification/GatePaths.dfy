/**
 What the gate's procedures come to when nobody interferes, from any reachable situation: the
 schedule each of them follows and the whole state it leaves.
 */
module GatePaths {
  import opened GateProtocol

  lemma Start(s: State) returns (steps: seq<Step>)
    ensures steps == [] && Feasible(s, steps) && Execute(s, steps) == s
  {
    steps := [];
  }

  /** One step further. */
  lemma Then(s: State, steps: seq<Step>, t: State, step: Step) returns (more: seq<Step>, u: State)
    requires Feasible(s, steps) && Execute(s, steps) == t && Enabled(t, step)
    ensures more == steps + [step] && u == Apply(t, step) && Feasible(s, more) && Execute(s, more) == u
  {
    ExecuteThen(s, steps, step);
    more, u := steps + [step], Apply(t, step);
  }

  /** From the request to the fork: READ is held, and the child has the present epoch and access
      decision. */
  lemma Forks(s: State, id: Id, bg: bool) returns (steps: seq<Step>, t: State)
    requires Inv(s) && id !in s.procs && s.carve == Free
    ensures Feasible(s, steps) && Execute(s, steps) == t
    ensures t == s.(procs := s.procs[id := Forked(bg, Domain(s.epoch, s.access))], readers := s.readers + {id})
  {
    t := s;
    steps := Start(s);
    steps, t := Then(s, steps, t, Act(id, Arrive(bg)));
    steps, t := Then(s, steps, t, Act(id, AcquireRead));
    steps, t := Then(s, steps, t, Act(id, Sample));
    steps, t := Then(s, steps, t, Act(id, Fork));
  }

  /** From the increment to the registry: the task runs and is listed. */
  lemma Registers(s: State, before: seq<Step>, at: State, id: Id) returns (steps: seq<Step>, t: State)
    requires Feasible(s, before) && Execute(s, before) == at && id in at.readers && id in at.procs
    requires (at.procs[id].Forked? && at.procs[id].bg) || at.procs[id].Cleared?
    ensures Feasible(s, steps) && Execute(s, steps) == t
    ensures t == at.(procs := at.procs[id := Task(at.procs[id].dom, Running, NotDue, Listed)], readers := at.readers - {id},
                     tally := at.tally + 1, owed := at.owed + {id})
  {
    steps, t := Then(s, before, at, Act(id, Increment));
    steps, t := Then(s, steps, t, Act(id, SpawnWatcher));
    steps, t := Then(s, steps, t, Act(id, ListTask));
    steps, t := Then(s, steps, t, Act(id, ReleaseRead));
  }

  /** A foreground exec: its command runs on with the present epoch and access decision, and
      nothing else has changed. */
  lemma ExecRuns(s: State, id: Id) returns (steps: seq<Step>)
    requires Inv(s) && id !in s.procs && s.carve == Free
    ensures Feasible(s, steps) && Execute(s, steps) == s.(procs := s.procs[id := Foreground(Domain(s.epoch, s.access), s.epoch)])
  {
    var t;
    steps, t := Forks(s, id, false);
    steps, t := Then(s, steps, t, Act(id, Stamp));
    steps, t := Then(s, steps, t, Act(id, EndForkWindow));
  }

  /** A background spawn: one more running task is counted and listed. */
  lemma SpawnRuns(s: State, id: Id) returns (steps: seq<Step>)
    requires Inv(s) && id !in s.procs && s.carve == Free
    ensures Feasible(s, steps)
    ensures Execute(s, steps) == s.(procs := s.procs[id := Task(Domain(s.epoch, s.access), Running, NotDue, Listed)],
                                    tally := s.tally + 1, owed := s.owed + {id})
  {
    var t;
    steps, t := Forks(s, id, true);
    steps, t := Registers(s, steps, t, id);
  }

  /** A timed-out command is adopted with its own domain when no carve has landed since its fork,
      and ends without a trace otherwise. */
  lemma AdoptRuns(s: State, id: Id) returns (steps: seq<Step>)
    requires Inv(s) && id in s.procs && s.procs[id].Foreground? && s.carve == Free
    ensures Feasible(s, steps)
    ensures var p := s.procs[id];
            Execute(s, steps) == if p.stamp == s.epoch
                                 then s.(procs := s.procs[id := Task(p.dom, Running, NotDue, Listed)],
                                         tally := s.tally + 1, owed := s.owed + {id})
                                 else s.(procs := s.procs[id := Gone])
  {
    var t := s;
    assert ProcOk(s, id);
    steps := Start(s);
    steps, t := Then(s, steps, t, Act(id, Timeout));
    steps, t := Then(s, steps, t, Act(id, AcquireRead));
    steps, t := Then(s, steps, t, Act(id, Recheck));
    if s.procs[id].stamp == s.epoch { steps, t := Registers(s, steps, t, id); }
  }

  /** A decrement that is due, let alone: one load and one swap. */
  lemma Settles(s: State, before: seq<Step>, at: State, id: Id) returns (steps: seq<Step>, t: State)
    requires Feasible(s, before) && Execute(s, before) == at && id in at.procs && DecOf(at.procs[id]) == Due && at.tally > 0
    ensures Feasible(s, steps) && Execute(s, steps) == t
    ensures t == at.(procs := at.procs[id := WithDec(at.procs[id], Settled)],
                     tally := at.tally - 1, owed := at.owed - {id}, paid := at.paid + {id})
  {
    steps, t := Then(s, before, at, Act(id, DecLoad));
    steps, t := Then(s, steps, t, Act(id, DecSwap));
  }

  /** A running task that ends: it is terminal as reported, and its increment is paid. */
  lemma EndRuns(s: State, id: Id, terminal: TaskState) returns (steps: seq<Step>)
    requires Inv(s) && id in s.procs && s.procs[id].Task? && s.procs[id].state == Running && terminal != Running
    ensures Feasible(s, steps) && s.tally > 0
    ensures Execute(s, steps) == s.(procs := s.procs[id := s.procs[id].(state := terminal, dec := Settled)],
                                    tally := s.tally - 1, owed := s.owed - {id}, paid := s.paid + {id})
  {
    var t := s;
    assert ProcOk(s, id);
    OwedBlocksCarve(s, id);
    steps := Start(s);
    steps, t := Then(s, steps, t, Act(id, MarkTerminal(terminal)));
    steps, t := Settles(s, steps, t, id);
  }

  /** A spawn or adoption that fails between its increment and its watcher takes the increment
      back. */
  lemma UnwindRuns(s: State, id: Id) returns (steps: seq<Step>)
    requires Inv(s) && id in s.procs && s.procs[id].Counted? && id in s.readers
    ensures Feasible(s, steps) && s.tally > 0
    ensures Execute(s, steps) == s.(procs := s.procs[id := Unwound(Settled)], readers := s.readers - {id},
                                    tally := s.tally - 1, owed := s.owed - {id}, paid := s.paid + {id})
  {
    var t := s;
    OwedBlocksCarve(s, id);
    steps := Start(s);
    steps, t := Then(s, steps, t, Act(id, Unwind));
    steps, t := Settles(s, steps, t, id);
    steps, t := Then(s, steps, t, Act(id, ReleaseRead));
  }

  /** A carve that finds no READ held: refused without a trace while a task is counted, and
      otherwise a new epoch with a new access decision, shaped by this very carve. */
  lemma CarveRuns(s: State) returns (steps: seq<Step>)
    requires Inv(s) && s.carve == Free && s.readers == {}
    ensures Feasible(s, steps)
    ensures Execute(s, steps) == if s.tally > 0 then s else s.(epoch := s.epoch + 1, access := s.access + 1, carved := s.access + 1)
  {
    var t := s;
    steps := Start(s);
    steps, t := Then(s, steps, t, Carving(Lock));
    steps, t := Then(s, steps, t, Carving(Vet));
    if s.tally == 0 {
      steps, t := Then(s, steps, t, Carving(Bump));
      steps, t := Then(s, steps, t, Carving(Shape));
      steps, t := Then(s, steps, t, Carving(Release));
    }
  }
}
