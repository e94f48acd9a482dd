/** What every reachable state of the admission protocol satisfies, and why each step keeps it. */
module AdmissionInvariant {
  import opened Basics
  import opened SafetyActivity
  import opened AdmissionProtocol

  // --- Vocabulary ---

  /** Inside a counted handler body. */
  ghost function Busy(threads: map<Tid, Pc>): set<Tid> {
    set t | t in threads && threads[t].Handling?
  }

  /** Counted, or past the admission check and about to be. */
  ghost predicate Working(pc: Pc) {
    pc.Handling? || pc == AdmitChecked(true)
  }

  /** The same, for handlers behind the work-admission barrier only. */
  ghost predicate GuardedWork(pc: Pc) {
    pc == Handling(true) || pc == AdmitChecked(true)
  }

  ghost predicate NoWork(threads: map<Tid, Pc>) {
    forall t <- threads :: !Working(threads[t])
  }

  ghost predicate NoGuardedWork(threads: map<Tid, Pc>) {
    forall t <- threads :: !GuardedWork(threads[t])
  }

  /** Between the canary handler's increment and its deferred decrement. */
  ghost predicate Counted(pc: Pc) {
    match pc
    case Sampling(job, _, _) => job.CanaryRead?
    case Reading(job, _) => job.CanaryRead?
    case Sampled(job, _) => job.CanaryRead?
    case CanaryCounted(_) => true
    case CanaryPolicyRead(_, _) => true
    case CanaryProved(_, _, _, _) => true
    case CanaryRechecking(_, _, _, _, _) => true
    case CanaryCreating(_, _, _, _) => true
    case CanaryCreated(_, _, _, _) => true
    case CanaryRereading(_, _, _, _, _) => true
    case CanaryTerminalizing(_) => true
    case CanaryLeaving(_) => true
    case _ => false
  }

  /** The token of the lease proof a thread is running, if it is running one. */
  ghost function FenceOf(pc: Pc): Option<Fence> {
    match pc
    case Sampling(job, _, _) => JobFence(job)
    case Reading(job, _) => JobFence(job)
    case Sampled(job, _) => JobFence(job)
    case FenceProved(f, _) => Some(f)
    case FenceRechecking(f, _, _) => Some(f)
    case _ => None
  }

  ghost function JobFence(job: Job): Option<Fence> {
    if job.FenceRead? then Some(job.fence) else None
  }

  ghost predicate Fencing(pc: Pc, token: nat) {
    pc == FenceClearing(token) || (FenceOf(pc).Some? && FenceOf(pc).value.token == token && !FenceOf(pc).value.renewal)
  }

  /** The first sample's admission count, once a bracketed read has taken it. */
  ghost function FirstCount(pc: Pc): Option<int> {
    match pc
    case Sampling(_, None, SampleStart) => None
    case Sampling(_, None, stage) => Some(stage.active)
    case Sampling(_, Some(e), _) => Some(e.before.activeAdmissions)
    case Reading(_, before) => Some(before.activeAdmissions)
    case Sampled(_, p) => Some(p.before.activeAdmissions)
    case FenceProved(_, p) => Some(p.before.activeAdmissions)
    case FenceRechecking(_, p, _) => Some(p.before.activeAdmissions)
    case _ => None
  }

  /** The policy seen by the first sample, once it has been read. */
  ghost function FirstPolicy(pc: Pc): Option<Option<Policy>> {
    match pc
    case Sampling(_, None, SamplePolicy(_, _, _, p)) => Some(p)
    case Sampling(_, None, SampleUnlocked(_, _, _, p, _)) => Some(p)
    case Sampling(_, Some(e), _) => Some(e.before.policy)
    case Reading(_, before) => Some(before.policy)
    case Sampled(_, p) => Some(p.before.policy)
    case FenceProved(_, p) => Some(p.before.policy)
    case FenceRechecking(_, p, _) => Some(p.before.policy)
    case _ => None
  }

  /** Before the first sample's policy read, the lock taken for the count is still held. */
  ghost predicate FirstCounted(pc: Pc) {
    pc.Sampling? && pc.earlier.None? && pc.stage.SampleCounted?
  }

  /** The first sample counted nobody and saw admission closed. */
  ghost predicate SawClosed(pc: Pc) {
    FirstCount(pc) == Some(0) && FirstPolicy(pc).Some? && PolicyClosed(FirstPolicy(pc).value)
  }

  ghost predicate HasToken(sh: Shared, token: nat) {
    sh.lease.Some? && sh.lease.value.token == token
  }

  ghost predicate PolicyKnown(sh: Shared, p: Option<Policy>) {
    p.Some? ==> p.value.id < sh.nextPolicy
  }

  // --- The invariant ---

  ghost predicate LockHolder(mu: Option<Tid>, threads: map<Tid, Pc>, holds: Pc -> bool) {
    && (mu.Some? ==> mu.value in threads)
    && (forall t <- threads :: holds(threads[t]) <==> mu == Some(t))
  }

  ghost predicate Locks(s: Sys) {
    LockHolder(s.admissionMu, s.threads, HoldsAdmission) && LockHolder(s.canaryMu, s.threads, HoldsCanary)
  }

  ghost predicate CanaryHolderCounted(s: Sys) {
    s.canaryMu.Some? && s.canaryMu.value in s.threads && Counted(s.threads[s.canaryMu.value])
  }

  ghost predicate Counters(s: Sys) {
    s.sh.active == |Busy(s.threads)| && s.sh.canary == (if CanaryHolderCounted(s) then 1 else 0)
  }

  /** Tokens and policy identities in use were handed out before. */
  ghost predicate Issued(s: Sys) {
    && PolicyKnown(s.sh, s.sh.policy)
    && (s.sh.lease.Some? ==> s.sh.lease.value.token < s.sh.nextToken)
  }

  ghost predicate ThreadIssued(sh: Shared, pc: Pc) {
    && (FirstPolicy(pc).Some? ==> PolicyKnown(sh, FirstPolicy(pc).value))
    && (FenceOf(pc).Some? ==> FenceOf(pc).value.token < sh.nextToken)
    && (pc.FenceClearing? ==> pc.token < sh.nextToken)
    && (pc.CanaryLeaving? ==> !pc.outcome.FenceRefused?)
    && (pc.RenewPolicyRead? ==> pc.token < sh.nextToken)
    && (pc.Finishing? && pc.outcome.FenceRefused? ==> pc.outcome.token < sh.nextToken)
  }

  /** A validated lease stands in a quiet process. */
  ghost predicate LeaseQuiet(s: Sys) {
    s.sh.lease.Some? && s.sh.lease.value.validated ==> NoWork(s.threads)
  }

  /** An unvalidated lease belongs to the proof its installer is running. */
  ghost predicate LeaseOwned(s: Sys) {
    s.sh.lease.Some? && !s.sh.lease.value.validated ==>
      s.canaryMu.Some? && s.canaryMu.value in s.threads && Fencing(s.threads[s.canaryMu.value], s.sh.lease.value.token)
  }

  ghost predicate NoLeaseWhenNeeded(sh: Shared, pc: Pc) {
    && (pc == AdmitChecked(true) ==> sh.lease == None)
    && (Counted(pc) ==> sh.lease == None)
    && (pc.LeasePolicyRead? ==> sh.lease == None)
    && (pc.RenewPolicyRead? ==> sh.lease.Some? && sh.lease.value.validated && sh.lease.value.token == pc.token)
  }

  /** A lease proof whose first sample counted nobody still runs in a quiet process, while its lease stands. */
  ghost predicate FenceQuiet(sh: Shared, noWork: bool, pc: Pc) {
    (FenceOf(pc).Some? && FirstCount(pc) == Some(0) && HasToken(sh, FenceOf(pc).value.token)) ==> noWork
  }

  /** A bracketed read whose first sample counted nobody: while the lock is held nobody works, and as
      long as the closed policy it saw is still the current object, no guarded work has begun. */
  ghost predicate ReadQuiet(sh: Shared, noWork: bool, noGuarded: bool, pc: Pc) {
    && (FirstCounted(pc) && pc.stage.active == 0 ==> noWork)
    && (SawClosed(pc) && sh.policy == FirstPolicy(pc).value ==> noGuarded)
  }

  ghost predicate Proved(pc: Pc) {
    && (pc.FenceProved? || pc.FenceRechecking? ==> TargetProof(pc.fence, pc.proof))
    && (pc.CanaryProved? ==> CanaryProof(pc.policy, pc.generation, pc.proof))
    && (pc.CanaryRechecking? ==> CanaryProof(pc.policy, pc.generation, pc.proof))
    && (pc.CanaryCreating? ==> CanaryProof(pc.policy, pc.generation, pc.proof))
    && (pc.CanaryCreated? ==> CanaryProof(pc.policy, pc.generation, pc.proof))
    && (pc.CanaryRereading? ==> CanaryProof(pc.policy, pc.generation, pc.proof))
    && (pc.CanaryLeaving? ==> StartedProof(pc.outcome))
    && (pc.Finishing? ==> StartedProof(pc.outcome))
    && (pc.Sampling? && pc.earlier.Some? ==> Made(pc.earlier.value.before))
    && (pc.Reading? ==> Made(pc.before))
    && (pc.Sampled? ==> Made(pc.proof.before) && pc.proof.after.sampleStable == Agree(pc.proof.before, pc.proof.after))
  }

  /** A sample's closed flag is that of the policy it names. */
  ghost predicate Made(a: Sample) {
    a.admissionClosed == PolicyClosed(a.policy)
  }

  /** The durable store holds this many active workflow runs and no other work of any kind. */
  ghost predicate OnlyWorkflows(c: Counts, n: nat) {
    && c.queuedBacklog == 0 && c.activePipelineRuns == 0 && c.activeWorkflowRuns == n
    && c.activeSpinRuns == 0 && c.activeCouncilRuns == 0 && c.pendingDispatches == 0
  }

  /** Both samples agree, and the target run is the only activity either of them saw. */
  ghost predicate TargetProof(f: Fence, p: Proof) {
    && Agree(p.before, p.after) && p.counts.IdleForWorkflow(1) && p.before.policyGeneration == f.generation
    && Idle(p.before, 0, f.target.runId, true) && Idle(p.after, 0, f.target.runId, true)
  }

  /** The allowance-1 quiescence proof, under one closed policy with workflows enabled. */
  ghost predicate CanaryProof(policy: Option<Policy>, generation: nat, p: Proof) {
    && Quiescent(p, 1) && Agree(p.before, p.after)
    && p.before.policy == policy && p.after.policy == policy && p.after.policyGeneration == generation
  }

  ghost predicate StartedProof(o: Outcome) {
    o.CanaryStarted? ==> CanaryProof(o.policy, o.generation, o.proof) && CanaryWindow(o.policy)
  }

  ghost predicate Gone(sh: Shared, pc: Pc) {
    pc.Finishing? && pc.outcome.FenceRefused? ==> !HasToken(sh, pc.outcome.token)
  }

  /** A terminalized canary's run is in state error. */
  ghost predicate Settled(sh: Shared, pc: Pc) {
    var o := if pc.CanaryLeaving? || pc.Finishing? then Some(pc.outcome) else None;
    o.Some? && o.value.CanaryTerminalized? ==> o.value.id in sh.runs && sh.runs[o.value.id] == Error
  }

  ghost predicate ThreadInv(sh: Shared, noWork: bool, noGuarded: bool, pc: Pc) {
    && ThreadIssued(sh, pc) && NoLeaseWhenNeeded(sh, pc) && FenceQuiet(sh, noWork, pc)
    && ReadQuiet(sh, noWork, noGuarded, pc) && Proved(pc) && Gone(sh, pc) && Settled(sh, pc)
  }

  ghost predicate ThreadsInv(s: Sys) {
    forall t <- s.threads :: ThreadInv(s.sh, NoWork(s.threads), NoGuardedWork(s.threads), s.threads[t])
  }

  ghost predicate Inv(s: Sys) {
    Locks(s) && Counters(s) && Issued(s) && LeaseQuiet(s) && LeaseOwned(s) && ThreadsInv(s)
  }

  lemma InitInv(s: Sys)
    requires Init(s)
    ensures Inv(s)
  {
    assert Busy(s.threads) == {};
  }

  // --- Locks and counters ---

  lemma LockStep(mu: Option<Tid>, threads: map<Tid, Pc>, holds: Pc -> bool, t: Tid, pc: Pc)
    requires LockHolder(mu, threads, holds) && t in threads
    requires holds(pc) ==> Available(mu, t)
    ensures LockHolder(Relock(mu, t, holds(pc)), threads[t := pc], holds)
  {
  }

  lemma LockLeave(mu: Option<Tid>, threads: map<Tid, Pc>, holds: Pc -> bool, t: Tid)
    requires LockHolder(mu, threads, holds) && t in threads
    ensures LockHolder(Relock(mu, t, false), threads - {t}, holds)
  {
  }

  /** A step only enters a locked region from a point that waits for that lock. */
  lemma LocksWaitedFor(sh: Shared, pc: Pc, x: Input)
    ensures Step(sh, pc, x).1.Some? && HoldsAdmission(Step(sh, pc, x).1.value) ==> NeedsAdmission(pc)
    ensures Step(sh, pc, x).1.Some? && HoldsCanary(Step(sh, pc, x).1.value) ==> NeedsCanary(pc)
  {
  }
}
