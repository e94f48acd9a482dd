/** The merge effect as it runs: lookups that scan the forge's listing, then one remote effect after the other. */
module CanaryMerger {
  import opened Basics
  import opened CanaryMerge

  /** What becomes of each remote effect of one attempt; the merge is retried as often as `merges` says. */
  datatype Plan = Plan(branch: Fate, file: Fate, create: Fate, merges: seq<Fate>, now: int)

  datatype MergeOutcome = MergeOutcome(mr: nat, branch: string, alreadyMerged: bool)

  class ForgeClient {
    var forge: Forge

    constructor (forge: Forge)
      ensures this.forge == forge
    {
      this.forge := forge;
    }

    /** The latest merged request of the branch, if there is one. */
    method MergedMRForBranch(branch: string) returns (found: Option<nat>)
      ensures LatestMerged(forge, branch, found)
    {
      found := None;
      var bestTime := 0;
      for i := 0 to |forge.mrs|
        invariant match found
          case None => forall j: nat | j < i :: !MergedAt(forge, branch, j)
          case Some(b) => b < i && MergedAt(forge, branch, b) && bestTime == forge.mrs[b].state.at
                          && forall j: nat | j < i && MergedAt(forge, branch, j) :: forge.mrs[j].state.at <= bestTime
      {
        var mr := forge.mrs[i];
        if !mr.state.Merged? || mr.branch != branch {
          continue;
        }
        if found.None? || mr.state.at > bestTime {
          found, bestTime := Some(i), mr.state.at;
        }
      }
    }

    method FindOpenMRForBranch(branch: string) returns (found: Option<nat>)
      ensures SomeOpen(forge, branch, found)
    {
      for i := 0 to |forge.mrs|
        invariant forall j: nat | j < i :: !OpenAt(forge, branch, j)
      {
        if forge.mrs[i].state.Opened? && forge.mrs[i].branch == branch {
          return Some(i);
        }
      }
      found := None;
    }

    method EnsureBranch(branch: string, fate: Fate) returns (ok: bool)
      modifies `forge
      ensures forge == if fate.NotLanded? then old(forge) else CreateBranch(old(forge), branch)
      ensures ok <==> fate.Landed?
    {
      if !fate.NotLanded? && branch !in forge.branches {
        forge := forge.(branches := forge.branches[branch := forge.main]);
      }
      ok := fate.Landed?;
    }

    method EnsureFileOnBranch(branch: string, fate: Fate) returns (head: Option<Sha>)
      modifies `forge
      ensures forge == if fate.NotLanded? then old(forge) else CommitFile(old(forge), branch)
      ensures head == if fate.Landed? && branch in forge.branches then Some(forge.branches[branch]) else None
    {
      if !fate.NotLanded? && branch in forge.branches && forge.branches[branch] !in forge.proofs {
        forge := forge.(branches := forge.branches[branch := forge.nextSha], proofs := forge.proofs + {forge.nextSha},
                        nextSha := forge.nextSha + 1);
      }
      head := if fate.Landed? && branch in forge.branches then Some(forge.branches[branch]) else None;
    }

    /** Adopt an open request, or open one; a request of the branch that is already open is never duplicated. */
    method CreateMR(branch: string, fate: Fate) returns (mr: Option<nat>)
      requires branch in forge.branches
      modifies `forge
      ensures mr.Some? ==> OpenAt(forge, branch, mr.value)
      ensures forge == old(forge) || (CanOpen(old(forge), branch) && forge == OpenMr(old(forge), branch))
      ensures (exists i: nat :: OpenAt(old(forge), branch, i)) ==> mr.Some? && forge == old(forge)
      ensures CanOpen(old(forge), branch) && fate.Landed? ==> mr == Some(|old(forge).mrs|) && forge == OpenMr(old(forge), branch)
    {
      mr := FindOpenMRForBranch(branch);
      if mr.Some? || fate.NotLanded? {
        return;
      }
      forge := forge.(mrs := forge.mrs + [Mr(branch, Opened, forge.branches[branch])]);
      mr := if fate.Landed? then Some(|forge.mrs| - 1) else None;
    }

    /** Reconcile, try to merge, and reconcile again, until the request is seen merged or the attempt ends. */
    method Merge(i: nat, branch: string, head: Sha, fates: seq<Fate>, now: int) returns (merged: bool)
      requires i < |forge.mrs|
      modifies `forge
      ensures forge == old(forge) || (CanMerge(old(forge), i, head) && forge == MergeMr(old(forge), i, now))
      ensures merged ==> MergedAt(forge, branch, i) && forge.mrs[i].sha == head
      ensures OpenAt(old(forge), branch, i) && old(forge).mrs[i].sha == head && fates != [] && fates[0].Landed? ==> merged
    {
      for k := 0 to |fates|
        invariant forge == old(forge) || (CanMerge(old(forge), i, head) && forge == MergeMr(old(forge), i, now))
        invariant k == 0 ==> forge == old(forge)
        invariant k > 0 && fates[0].Landed? ==> forge.mrs[i].state.Merged?
      {
        var pc := ReconcileMr(forge.mrs[i], i, head, branch);
        if pc.Succeeded? {
          return true;
        }
        if pc.GaveUp? {
          return false;
        }
        if !fates[k].NotLanded? {
          forge := forge.(mrs := forge.mrs[i := forge.mrs[i].(state := Merged(now))]);
        }
        if fates[k].AnswerLost? {
          return false;
        }
      }
      var last := ReconcileMr(forge.mrs[i], i, head, branch);
      merged := last.Succeeded?;
    }

    /** What every attempt starts from and leaves behind. */
    ghost predicate Sound(branch: string)
      reads this
    {
      AtMostOneMerged(forge, branch) && Proven(forge, branch)
    }

    /**
     One whole attempt, wherever it breaks off: at most one request of the branch is merged afterwards, a
     success names it, and once one is merged every later attempt reports that one and changes nothing. An
     attempt whose effects land, on a branch with nothing in its way, does merge.
     */
    method MergeCanary(runId: string, plan: Plan) returns (outcome: Option<MergeOutcome>)
      requires Sound(CanaryMergeBranch(runId))
      modifies `forge
      ensures Sound(CanaryMergeBranch(runId))
      ensures outcome.Some? ==> MergedAt(forge, CanaryMergeBranch(runId), outcome.value.mr)
      ensures forall i: nat | MergedAt(old(forge), CanaryMergeBranch(runId), i) ::
                forge == old(forge) && outcome == Some(MergeOutcome(i, CanaryMergeBranch(runId), true))
      ensures Goes(plan) && Ready(old(forge), CanaryMergeBranch(runId)) ==> outcome.Some? && !outcome.value.alreadyMerged
    {
      var branch := CanaryMergeBranch(runId);
      var found := MergedMRForBranch(branch);
      if found.Some? {
        return Some(MergeOutcome(found.value, branch, true));
      }
      assert Unmerged(forge, branch);
      var ok := EnsureBranch(branch, plan.branch);
      assert Unmerged(forge, branch) by { SameMrs(old(forge), forge, branch); }
      if !ok {
        return None;
      }
      label Branched:
      var head := EnsureFileOnBranch(branch, plan.file);
      assert Unmerged(forge, branch) by { SameMrs(old@Branched(forge), forge, branch); }
      if head.None? {
        return None;
      }
      assert ProofHead(forge, branch, head.value);
      label Committed:
      var mr := CreateMR(branch, plan.create);
      OpeningKeeps(old@Committed(forge), forge, branch);
      if mr.None? {
        return None;
      }
      label Created:
      var merged := Merge(mr.value, branch, head.value, plan.merges, plan.now);
      MergingKeeps(old@Created(forge), forge, branch, mr.value, plan.now);
      outcome := if merged then Some(MergeOutcome(mr.value, branch, false)) else None;
    }
  }

  /** Every effect lands, and the first merge attempt already. */
  predicate Goes(plan: Plan) {
    plan.branch.Landed? && plan.file.Landed? && plan.create.Landed? && plan.merges != [] && plan.merges[0].Landed?
  }

  /**
   Nothing of the branch has been merged, and it has no open request; or it has, each at the head of the
   branch, which holds the proof file.
   */
  ghost predicate Ready(f: Forge, branch: string) {
    && Unmerged(f, branch)
    && forall i: nat | OpenAt(f, branch, i) ::
         branch in f.branches && f.branches[branch] in f.proofs && f.mrs[i].sha == f.branches[branch]
  }

  lemma SameMrs(f: Forge, g: Forge, branch: string)
    requires g.mrs == f.mrs && Unmerged(f, branch)
    ensures Unmerged(g, branch)
  {
    assert forall i: nat :: MergedAt(g, branch, i) <==> MergedAt(f, branch, i);
  }

  lemma OpeningKeeps(f: Forge, g: Forge, branch: string)
    requires Unmerged(f, branch) && Proven(f, branch) && branch in f.branches && f.branches[branch] in f.proofs
    requires g == f || g == OpenMr(f, branch)
    ensures Unmerged(g, branch) && Proven(g, branch)
  {
    assert forall i: nat :: MergedAt(g, branch, i) <==> MergedAt(f, branch, i);
  }

  lemma MergingKeeps(f: Forge, g: Forge, branch: string, i: nat, now: int)
    requires Unmerged(f, branch) && Proven(f, branch) && i < |f.mrs| && (g == f || g == MergeMr(f, i, now))
    ensures AtMostOneMerged(g, branch) && Proven(g, branch)
  {
    assert forall j: nat :: MergedAt(g, branch, j) ==> MergedAt(f, branch, j) || j == i;
  }
}
