/**
 The gate never stays shut: from every reachable state the processes can be brought to rest,
 each by its own next actions, and then a carve is admitted.
 */
module GateDrain {
  import opened GateProtocol

  /** This process keeps no carve out: it holds no READ and its increment is settled. */
  predicate AtRest(s: State, id: Id) {
    id !in s.readers && (id in s.procs ==> !Owes(s.procs[id]))
  }

  ghost predicate AllAtRest(s: State) {
    forall id :: id in s.procs ==> AtRest(s, id)
  }

  /** The gate is open exactly when no carve is under way and every process is at rest. */
  lemma OpenIffAtRest(s: State)
    requires Inv(s)
    ensures s.readers == {} && s.tally == 0 <==> AllAtRest(s)
  {
    if AllAtRest(s) {
      assert forall id :: id in s.owed || id in s.readers ==> id in s.procs;
      assert s.owed == {} && s.readers == {};
    } else {
      var id :| id in s.procs && !AtRest(s, id);
      assert id in s.readers || id in s.owed;
    }
  }

  /** Waiting, between a fork window and an adoption, or gone: at rest. */
  lemma PermitlessAreAtRest(s: State)
    requires Inv(s)
    ensures forall id :: id in s.procs && Permitless(s.procs[id]) ==> AtRest(s, id)
  {
    forall id | id in s.procs && Permitless(s.procs[id]) ensures AtRest(s, id) { assert ProcOk(s, id); }
  }

  // ---------------------------------------------------------------- one process

  /** What a process does next on its way to rest, without ever giving up. */
  function NextAction(s: State, id: Id): Action
    requires id in s.procs
  {
    var p := s.procs[id];
    if id in s.readers && MayRelease(p) then ReleaseRead
    else
      match p
      case Admitted(_) => Sample
      case Sampled(_, _) => Fork
      case Forked(bg, _) => if bg then Increment else Stamp
      case Stamped(_, _) => EndForkWindow
      case Rechecking(_, _) => Recheck
      case Cleared(_) => Increment
      case Counted(_, _) => SpawnWatcher
      case Task(_, state, dec, _) => if state == Running then MarkTerminal(Exited) else if dec == Due then DecLoad else DecSwap
      case Unwound(dec) => if dec == Due then DecLoad else DecSwap
      case _ => Abandon
  }

  /** A load is fresh, stale or missing. */
  function DecDistance(s: State, dec: Dec): nat {
    match dec
    case NotDue => 4
    case Due => 2
    case Loaded(seen) => if seen == s.tally then 1 else 3
    case Settled => 0
  }

  function PhaseDistance(s: State, p: Proc): nat {
    match p
    case Admitted(_) => 9
    case Sampled(_, _) => 8
    case Forked(_, _) => 7
    case Stamped(_, _) => 6
    case Rechecking(_, _) => 7
    case Cleared(_) => 6
    case Counted(_, _) => 5
    case Task(_, _, dec, _) => DecDistance(s, dec)
    case Unwound(dec) => DecDistance(s, dec)
    case _ => 0
  }

  /** How many actions a process is from rest, at most. */
  function Distance(s: State, id: Id): nat
    requires id in s.procs
  {
    2 * PhaseDistance(s, s.procs[id]) + if id in s.readers then 1 else 0
  }

  /** Nothing but this process changed. */
  ghost predicate Only(s: State, t: State, id: Id) {
    && t.procs.Keys == s.procs.Keys && t.carve == s.carve
    && (forall x :: x in s.procs && x != id ==> t.procs[x] == s.procs[x] && (x in t.readers <==> x in s.readers))
  }

  lemma NextActionWorks(s: State, id: Id)
    requires Inv(s) && id in s.procs && !AtRest(s, id)
    ensures CanAct(s, id, NextAction(s, id)) && !NextAction(s, id).Abandon? && !NextAction(s, id).Arrive?
    ensures var t := Apply(s, Act(id, NextAction(s, id)));
            Only(s, t, id) && Distance(t, id) < Distance(s, id)
  {
    var a := NextAction(s, id);
    NextActionCan(s, id, s.procs[id], a);
    DebtWhenDue(s, id);
    assert ProcOk(s, id);
    if a != ReleaseRead { NextActionNears(s, id, s.procs[id], a, Apply(s, Act(id, a)), NextProc(s, id, a)); }
  }

  lemma NextActionCan(s: State, id: Id, p: Proc, a: Action)
    requires Inv(s) && id in s.procs && !AtRest(s, id) && p == s.procs[id] && a == NextAction(s, id)
    ensures CanAct(s, id, a) && !a.Abandon? && !a.Arrive?
    ensures a == ReleaseRead || id !in s.readers || !MayRelease(p)
  {
    assert ProcOk(s, id);
  }

  lemma NextActionNears(s: State, id: Id, p: Proc, a: Action, t: State, q: Proc)
    requires id in s.procs && p == s.procs[id] && WellFormed(p) && (Owes(p) ==> s.tally > 0) && a == NextAction(s, id)
    requires CanAct(s, id, a) && a != ReleaseRead && !a.Abandon? && t == Apply(s, Act(id, a)) && q == NextProc(s, id, a)
    ensures PhaseDistance(t, q) < PhaseDistance(s, p)
  {
  }

  /** A decrement still due meets a positive tally. */
  lemma DebtWhenDue(s: State, id: Id)
    requires Inv(s) && id in s.procs
    ensures Owes(s.procs[id]) ==> s.tally > 0
  {
    if Owes(s.procs[id]) { OwedBlocksCarve(s, id); }
  }

  /** Every step is the next action of `id`, none of them giving up. */
  ghost predicate Finishes(steps: seq<Step>) {
    forall k :: 0 <= k < |steps| ==> steps[k].Act? && !steps[k].action.Abandon? && !steps[k].action.Arrive?
  }

  lemma OnlyThen(s: State, t: State, u: State, id: Id)
    requires Only(s, t, id) && Only(t, u, id)
    ensures Only(s, u, id)
  {
  }

  lemma {:induction false} ProcessFinishes(s: State, id: Id) returns (steps: seq<Step>)
    requires Inv(s) && id in s.procs
    ensures Finishes(steps) && Feasible(s, steps)
    ensures var t := Execute(s, steps); Inv(t) && Only(s, t, id) && AtRest(t, id)
    decreases Distance(s, id)
  {
    steps := [];
    if !AtRest(s, id) {
      NextActionWorks(s, id);
      var step := Act(id, NextAction(s, id));
      InvStep(s, step);
      var next := Apply(s, step);
      var rest := ProcessFinishes(next, id);
      OnlyThen(s, next, Execute(next, rest), id);
      steps := [step] + rest;
      FirstThen(s, step, rest, steps);
    }
  }

  lemma FirstThen(s: State, step: Step, rest: seq<Step>, steps: seq<Step>)
    requires Enabled(s, step) && Feasible(Apply(s, step), rest) && steps == [step] + rest
    ensures Feasible(s, steps) && Execute(s, steps) == Execute(Apply(s, step), rest)
  {
    assert steps[1..] == rest;
  }

  // ---------------------------------------------------------------- all of them

  lemma {:induction false} ExecuteConcat(s: State, a: seq<Step>, b: seq<Step>)
    requires Feasible(s, a) && Feasible(Execute(s, a), b)
    ensures Feasible(s, a + b) && Execute(s, a + b) == Execute(Execute(s, a), b)
    decreases |a|
  {
    if a == [] {
      assert a + b == b;
    } else {
      assert (a + b)[1..] == a[1..] + b;
      ExecuteConcat(Apply(s, a[0]), a[1..], b);
    }
  }

  lemma {:induction false} AllFinish(s: State, todo: set<Id>) returns (steps: seq<Step>)
    requires Inv(s) && forall id :: id in s.procs && !AtRest(s, id) ==> id in todo
    ensures Finishes(steps) && Feasible(s, steps)
    ensures var t := Execute(s, steps); Inv(t) && t.carve == s.carve && AllAtRest(t)
    decreases todo
  {
    steps := [];
    if todo != {} {
      var id :| id in todo;
      if id in s.procs { steps := ProcessFinishes(s, id); }
      var more := AllFinish(Execute(s, steps), todo - {id});
      ExecuteConcat(s, steps, more);
      steps := steps + more;
    }
  }

  /** A carve under way ends by itself. */
  lemma {:induction false} CarveEnds(s: State) returns (steps: seq<Step>)
    requires Inv(s)
    ensures Feasible(s, steps) && Execute(s, steps).carve == Free && Inv(Execute(s, steps))
    ensures forall k :: 0 <= k < |steps| ==> steps[k].Carving? && steps[k].move != Lock
    decreases match s.carve case Free => 0 case Locked => 3 case Vetted => 2 case Landed => 1
  {
    steps := [];
    if s.carve != Free {
      var move := if s.carve == Locked then Vet else if s.carve == Vetted then Bump else Release;
      InvStep(s, Carving(move));
      var rest := CarveEnds(Apply(s, Carving(move)));
      steps := [Carving(move)] + rest;
      FirstThen(s, Carving(move), rest, steps);
    }
  }

  /** In every reachable state, without a new arrival and without anybody giving up, the carve
      under way and every process can finish; then READ is free and nothing is owed. */
  lemma GateAlwaysReopens(s: State) returns (carve: seq<Step>, steps: seq<Step>)
    requires Reachable(s)
    ensures Finishes(steps) && (forall k :: 0 <= k < |carve| ==> carve[k].Carving? && carve[k].move != Lock)
    ensures Feasible(s, carve + steps)
    ensures var t := Execute(s, carve + steps);
            && t.carve == Free && t.readers == {} && t.tally == 0
            && Enabled(t, Carving(Lock)) && Apply(Apply(t, Carving(Lock)), Carving(Vet)).carve == Vetted
  {
    ReachableInv(s);
    carve := CarveEnds(s);
    var mid := Execute(s, carve);
    steps := AllFinish(mid, mid.procs.Keys);
    ExecuteConcat(s, carve, steps);
    OpenIffAtRest(Execute(mid, steps));
  }
}
