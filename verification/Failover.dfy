/**
 Within-set failover: a forward-only position in a chain of profiles, mirrored into the
 client, the context window and the status snapshot. `builds` and `fits` stand for the
 registry's client construction and the configured budget shape.
 */
module Failover {
  import opened Options

  datatype Profile = Profile(id: string, endpoint: string, model: string, window: nat)

  datatype Snapshot = Snapshot(setName: string, profileId: string, provider: string, model: string)

  datatype Exhaustion =
    | NoFailoverConfigured
    | AllBackupsExhausted
    | AllCandidatesInfeasible
    | AllCandidatesUnbuildable

  /** Result of compacting the carried context after an advance. */
  datatype Compaction = Compacted | NothingToCompact | OverBudget | CompactionFailed

  datatype Outcome =
    | Advanced(from: string, to: string, recomposed: bool)
    | ChainExhausted(reason: Exhaustion)
    | Cancelled
    | BudgetExceeded

  function SnapshotOf(setName: string, p: Profile): Snapshot {
    Snapshot(setName, p.id, p.endpoint, p.model)
  }

  predicate Usable(builds: Profile -> bool, fits: nat -> bool, p: Profile) {
    builds(p) && fits(p.window)
  }

  /** `j` is the least position after `idx` whose profile both builds and fits. */
  ghost predicate IsTarget(ps: seq<Profile>, idx: nat, builds: Profile -> bool, fits: nat -> bool, j: nat) {
    && idx < j < |ps| && Usable(builds, fits, ps[j])
    && forall k :: idx < k < j ==> !Usable(builds, fits, ps[k])
  }

  ghost predicate NoTarget(ps: seq<Profile>, idx: nat, builds: Profile -> bool, fits: nat -> bool) {
    forall k :: idx < k < |ps| ==> !Usable(builds, fits, ps[k])
  }

  /** A later profile builds but does not fit the window. */
  ghost predicate SomeInfeasible(ps: seq<Profile>, idx: nat, builds: Profile -> bool, fits: nat -> bool) {
    exists k :: idx < k < |ps| && builds(ps[k]) && !fits(ps[k].window)
  }

  /** The one exhaustion reason: chain length, position, and whether some candidate was
      buildable but infeasible decide it. */
  ghost function ReasonFor(ps: seq<Profile>, idx: nat, builds: Profile -> bool, fits: nat -> bool): Exhaustion {
    if |ps| == 1 then NoFailoverConfigured
    else if idx + 1 >= |ps| then AllBackupsExhausted
    else if SomeInfeasible(ps, idx, builds, fits) then AllCandidatesInfeasible
    else AllCandidatesUnbuildable
  }

  class Chain {
    var setName: string
    var profiles: seq<Profile>
    var idx: nat
    var snapshot: Snapshot
    var client: Profile   // the profile the client was built for
    var window: nat       // the context window in force

    ghost predicate Valid()
      reads this
    {
      idx < |profiles|
    }

    /** Client, window and snapshot all speak of the active profile. */
    ghost predicate Agrees()
      reads this
      requires Valid()
    {
      && client == profiles[idx] && window == profiles[idx].window
      && snapshot == Snapshot(setName, profiles[idx].id, profiles[idx].endpoint, profiles[idx].model)
    }

    constructor (setName: string, profiles: seq<Profile>)
      requires profiles != []
      ensures Valid() && Agrees() && this.profiles == profiles && idx == 0
    {
      this.setName := setName;
      this.profiles := profiles;
      idx := 0;
      snapshot := SnapshotOf(setName, profiles[0]);
      client := profiles[0];
      window := profiles[0].window;
    }

    /** The only way the index moves: forward. */
    method AdvanceTo(next: nat)
      requires idx < next < |profiles|
      modifies this`idx, this`snapshot
      ensures idx == next && snapshot == SnapshotOf(setName, profiles[next])
    {
      idx := next;
      snapshot := SnapshotOf(setName, profiles[next]);
    }

    /** Commits exactly the least later profile that builds and fits, with index, client,
        window and snapshot agreeing even when the compaction then reports the budget
        exceeded; without one it changes nothing and names the one exhaustion reason. */
    method AdvanceFailover(cancelled: bool, builds: Profile -> bool, fits: nat -> bool, compaction: Compaction)
      returns (outcome: Outcome)
      requires Valid()
      modifies this
      ensures profiles == old(profiles) && setName == old(setName) && Valid()
      ensures cancelled ==> outcome == Cancelled
      ensures cancelled || NoTarget(profiles, old(idx), builds, fits) ==>
                unchanged(this)
      ensures !cancelled && NoTarget(profiles, old(idx), builds, fits) ==>
                outcome == ChainExhausted(ReasonFor(profiles, old(idx), builds, fits))
      ensures !cancelled && !NoTarget(profiles, old(idx), builds, fits) ==>
                && IsTarget(profiles, old(idx), builds, fits, idx) && Agrees()
                && outcome == if compaction == OverBudget then BudgetExceeded
                              else Advanced(profiles[old(idx)].id, profiles[idx].id, compaction == Compacted)
    {
      if cancelled {
        return Cancelled;
      }
      if idx + 1 >= |profiles| {
        return ChainExhausted(if |profiles| == 1 then NoFailoverConfigured else AllBackupsExhausted);
      }
      var from := profiles[idx].id;
      var offset := 1;
      var skippedInfeasible := false;
      while idx + offset < |profiles|
        invariant 1 <= offset && idx + offset <= |profiles|
        invariant unchanged(this)
        invariant forall k :: idx < k < idx + offset ==> !Usable(builds, fits, profiles[k])
        invariant skippedInfeasible <==> exists k :: idx < k < idx + offset && builds(profiles[k]) && !fits(profiles[k].window)
      {
        var candidate := profiles[idx + offset];
        if builds(candidate) {
          if fits(candidate.window) {
            AdvanceTo(idx + offset);
            client := candidate;
            window := candidate.window;
            if compaction == OverBudget {
              return BudgetExceeded;
            }
            return Advanced(from, candidate.id, compaction == Compacted);
          }
          skippedInfeasible := true;
        }
        offset := offset + 1;
      }
      outcome := ChainExhausted(if skippedInfeasible then AllCandidatesInfeasible else AllCandidatesUnbuildable);
    }

    /** A profile reset from the operator: nothing changes when the new head does not build;
        otherwise the chain restarts at its head. The window follows only if the budget
        shape accepts it, so client and window agree exactly in that case. */
    method ApplyProfileReset(newName: string, newProfiles: seq<Profile>, builds: Profile -> bool, fits: nat -> bool)
      returns (ok: bool)
      requires Valid() && newProfiles != []
      modifies this
      ensures Valid() && ok == builds(newProfiles[0])
      ensures !ok ==> unchanged(this)
      ensures ok ==> profiles == newProfiles && idx == 0 && client == newProfiles[0]
                     && snapshot == Snapshot(newName, newProfiles[0].id, newProfiles[0].endpoint, newProfiles[0].model)
      ensures ok ==> setName == newName && window == if fits(newProfiles[0].window) then newProfiles[0].window else old(window)
      ensures ok ==> (Agrees() <==> fits(newProfiles[0].window) || old(window) == newProfiles[0].window)
    {
      ok := builds(newProfiles[0]);
      if ok {
        setName := newName;
        profiles := newProfiles;
        idx := 0;
        snapshot := SnapshotOf(newName, newProfiles[0]);
        client := newProfiles[0];
        if fits(newProfiles[0].window) {
          window := newProfiles[0].window;
        }
      }
    }
  }

  /** The least usable position at or after `k`, or one past the chain. */
  function NextUsable(ps: seq<Profile>, k: nat, builds: Profile -> bool, fits: nat -> bool): (j: nat)
    requires k <= |ps|
    ensures k <= j <= |ps|
    decreases |ps| - k
  {
    if k == |ps| || Usable(builds, fits, ps[k]) then k else NextUsable(ps, k + 1, builds, fits)
  }

  lemma {:induction false} NextUsableFrom(ps: seq<Profile>, k: nat, builds: Profile -> bool, fits: nat -> bool)
    requires k <= |ps|
    ensures var j := NextUsable(ps, k, builds, fits);
            && (forall m :: k <= m < j ==> !Usable(builds, fits, ps[m]))
            && (j < |ps| ==> Usable(builds, fits, ps[j]))
    decreases |ps| - k
  {
    if k < |ps| && !Usable(builds, fits, ps[k]) { NextUsableFrom(ps, k + 1, builds, fits); }
  }

  /** The search finds the one target there is, or shows that there is none. */
  lemma TargetIsNextUsable(ps: seq<Profile>, idx: nat, builds: Profile -> bool, fits: nat -> bool)
    requires idx < |ps|
    ensures var j := NextUsable(ps, idx + 1, builds, fits);
            && (NoTarget(ps, idx, builds, fits) <==> j == |ps|)
            && (forall k :: IsTarget(ps, idx, builds, fits, k) <==> k == j && j < |ps|)
  {
    NextUsableFrom(ps, idx + 1, builds, fits);
  }
}
