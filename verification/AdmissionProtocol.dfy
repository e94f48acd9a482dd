/**
 The operator's work-admission barrier, quiescence read, crash lease and canary start as one step
 system. Every request is a thread with a program point; one step is one atomic region of the code.
 A region that reads the policy while holding `admissionMu` is split at each read, because a hot
 reload takes no lock and may land between any two reads.
 */
module AdmissionProtocol {
  import opened Basics
  import opened SafetyActivity

  type Tid = nat

  /** safetyCrashLeaseTTL, in seconds. */
  const LEASE_TTL := 90

  /** Who asked for a lease, and for which run and spawn. */
  datatype Target = Target(requestId: string, runId: string, spawnId: string)

  datatype Lease = Lease(token: nat, target: Target, expiresAt: int, validated: bool)

  datatype RunState = Running | Paused | Done | Error | Escalated | Quarantined

  predicate Terminal(st: RunState) {
    st != Running && st != Paused
  }

  /** The operator's fields, the policy manager's current pointer and the durable workflow rows. */
  datatype Shared = Shared(
    policy: Option<Policy>, nextPolicy: nat, generation: nat, unannounced: nat,
    active: int, canary: int, lease: Option<Lease>, nextToken: nat,
    wiring: Wiring, runs: map<string, RunState>)

  datatype Request =
    | Admit
    | Operate
    | Quiescence
    | AcquireLease(target: Target)
    | RenewLease(token: nat)
    | ReleaseLease(token: nat)
    | StartCanary(id: string)

  /** A lease proof under way, fresh or renewing: the token fenced by it and the policy it was begun under. */
  datatype Fence = Fence(renewal: bool, token: nat, target: Target, policy: Option<Policy>, generation: nat)

  datatype Job =
    | PublicRead
    | FenceRead(fence: Fence)
    | CanaryRead(id: string, policy: Option<Policy>, generation: nat)

  /** The progress of one activity sample; the first three hold or are about to take `admissionMu`. */
  datatype SampleStage =
    | SampleStart
    | SampleCounted(active: int, leaseActive: bool, wiring: Wiring)
    | SamplePolicy(active: int, leaseActive: bool, wiring: Wiring, policy: Option<Policy>)
    | SampleUnlocked(active: int, leaseActive: bool, wiring: Wiring, policy: Option<Policy>, generation: nat)

  datatype Earlier = Earlier(before: Sample, counts: Counts)

  /** Two samples and the durable counts read between them. */
  datatype Proof = Proof(before: Sample, counts: Counts, after: Sample)

  datatype Outcome =
    | Refused
    | LeaseHeld(token: nat, replay: bool)
    | Renewed(token: nat)
    | FenceRefused(token: nat)
    | CanaryStarted(id: string, policy: Option<Policy>, generation: nat, proof: Proof)
    | CanaryReplayed(id: string)
    | CanaryTerminalized(id: string)
    | CanaryStuck(id: string)

  datatype Pc =
    | Arrived(request: Request)
    | AdmitChecked(ok: bool)
    | Handling(guarded: bool)
    | Sampling(job: Job, earlier: Option<Earlier>, stage: SampleStage)
    | Reading(job: Job, before: Sample)
    | Sampled(job: Job, proof: Proof)
    | LeaseEntered(target: Target)
    | LeasePolicyRead(target: Target, now: int, policy: Option<Policy>)
    | FenceProved(fence: Fence, proof: Proof)
    | FenceRechecking(fence: Fence, proof: Proof, current: Option<Policy>)
    | FenceClearing(token: nat)
    | RenewEntered(token: nat)
    | RenewPolicyRead(token: nat, target: Target, now: int, policy: Option<Policy>)
    | CanaryLookup(id: string)
    | CanaryEntered(id: string)
    | CanaryCounted(id: string)
    | CanaryPolicyRead(id: string, policy: Option<Policy>)
    | CanaryProved(id: string, policy: Option<Policy>, generation: nat, proof: Proof)
    | CanaryRechecking(id: string, policy: Option<Policy>, generation: nat, proof: Proof, current: Option<Policy>)
    | CanaryCreating(id: string, policy: Option<Policy>, generation: nat, proof: Proof)
    | CanaryCreated(id: string, policy: Option<Policy>, generation: nat, proof: Proof)
    | CanaryRereading(id: string, policy: Option<Policy>, generation: nat, proof: Proof, current: Option<Policy>)
    | CanaryTerminalizing(id: string)
    | CanaryLeaving(outcome: Outcome)
    | Finishing(outcome: Outcome)

  /** Everything a step takes from outside: clock readings, source answers, and store and random results. */
  datatype Input = Input(now: int, later: int, readings: Readings, spin: int, audit: int,
                         counts: Option<Counts>, ok: bool, matches: bool)

  datatype Sys = Sys(sh: Shared, admissionMu: Option<Tid>, canaryMu: Option<Tid>, threads: map<Tid, Pc>)

  // --- Which program points hold or need which lock ---

  predicate HoldsAdmission(pc: Pc) {
    match pc
    case AdmitChecked(_) => true
    case Sampling(_, _, stage) => stage.SampleCounted? || stage.SamplePolicy?
    case LeasePolicyRead(_, _, _) => true
    case FenceRechecking(_, _, _) => true
    case RenewPolicyRead(_, _, _, _) => true
    case CanaryRechecking(_, _, _, _, _) => true
    case CanaryCreating(_, _, _, _) => true
    case CanaryCreated(_, _, _, _) => true
    case CanaryRereading(_, _, _, _, _) => true
    case CanaryTerminalizing(_) => true
    case _ => false
  }

  predicate NeedsAdmission(pc: Pc) {
    || HoldsAdmission(pc)
    || (pc.Arrived? && (pc.request.Admit? || pc.request.Operate? || pc.request.ReleaseLease?))
    || (pc.Sampling? && pc.stage.SampleStart?)
    || pc.LeaseEntered? || pc.FenceProved? || pc.FenceClearing? || pc.RenewEntered?
    || pc.CanaryEntered? || pc.CanaryProved?
  }

  predicate HoldsCanary(pc: Pc) {
    match pc
    case Arrived(_) => false
    case AdmitChecked(_) => false
    case Handling(_) => false
    case Sampling(job, _, _) => !job.PublicRead?
    case Reading(job, _) => !job.PublicRead?
    case Sampled(job, _) => !job.PublicRead?
    case _ => true
  }

  predicate NeedsCanary(pc: Pc) {
    HoldsCanary(pc) ||
    (pc.Arrived? && (pc.request.AcquireLease? || pc.request.RenewLease? || pc.request.StartCanary?))
  }

  // --- The atomic regions ---

  /** crashLeaseActiveLocked: an expired lease is dropped by whoever looks at it. */
  function LeaseCheck(sh: Shared, now: int): (r: (Shared, bool))
    ensures r.1 <==> sh.lease.Some? && now < sh.lease.value.expiresAt
    ensures r.0 == sh.(lease := r.0.lease) && r.0.lease == (if r.1 then sh.lease else None)
  {
    if sh.lease.Some? && now < sh.lease.value.expiresAt then (sh, true) else (sh.(lease := None), false)
  }

  predicate CanaryWindow(p: Option<Policy>) {
    p.Some? && !p.value.enabled && p.value.workflows
  }

  predicate Open(p: Option<Policy>) {
    p.Some? && p.value.enabled
  }

  /** Clears the lease with this token, and no other. */
  function ClearToken(sh: Shared, token: nat): Shared {
    if sh.lease.Some? && sh.lease.value.token == token then sh.(lease := None) else sh
  }

  function AdmitCheck(sh: Shared, now: int): (Shared, Pc) {
    var (sh1, leased) := LeaseCheck(sh, now);
    (sh1, AdmitChecked(Open(sh.policy) && !leased))
  }

  function AdmitEnter(sh: Shared, ok: bool): (Shared, Option<Pc>) {
    if ok then (sh.(active := sh.active + 1), Some(Handling(true))) else (sh, None)
  }

  function OperateEnter(sh: Shared, now: int): (Shared, Option<Pc>) {
    var (sh1, leased) := LeaseCheck(sh, now);
    if leased then (sh1, None) else (sh1.(active := sh1.active + 1), Some(Handling(false)))
  }

  function Release(sh: Shared, token: nat, now: int): Shared {
    ClearToken(LeaseCheck(sh, now).0, token)
  }

  ghost function SampleStep(sh: Shared, job: Job, earlier: Option<Earlier>, stage: SampleStage, x: Input): (Shared, Pc) {
    match stage
    case SampleStart =>
      var (sh1, leased) := LeaseCheck(sh, x.now);
      (sh1, Sampling(job, earlier, SampleCounted(sh.active, leased, sh.wiring)))
    case SampleCounted(active, leased, wiring) =>
      (sh, Sampling(job, earlier, SamplePolicy(active, leased, wiring, sh.policy)))
    case SamplePolicy(active, leased, wiring, policy) =>
      (sh, Sampling(job, earlier, SampleUnlocked(active, leased, wiring, policy, sh.generation)))
    case SampleUnlocked(active, leased, wiring, policy, generation) =>
      var sample := MakeSample(active, leased, wiring, policy, generation, x.readings, sh.canary, x.spin, x.audit);
      (sh, match earlier
           case None => Reading(job, sample)
           case Some(e) => Sampled(job, Proof(e.before, e.counts, sample.(sampleStable := Agree(e.before, sample)))))
  }

  /** How a handler goes on after its durable read fails. */
  function Unavailable(job: Job): Option<Pc> {
    match job
    case PublicRead => None
    case FenceRead(f) => Some(FenceClearing(f.token))
    case CanaryRead(_, _, _) => Some(CanaryLeaving(Refused))
  }

  /** The `quiescent` verdict of a bracketed read. */
  predicate Quiescent(p: Proof, allowedCanary: int) {
    p.counts.Quiescent() && Idle(p.before, allowedCanary, "", false)
    && p.after.sampleStable && Idle(p.after, allowedCanary, "", false)
  }

  /** The stricter verdict of a lease proof: the target run is the sole, stable activity and it is running. */
  predicate SoleTarget(p: Proof, fence: Fence, runs: map<string, RunState>) {
    && p.counts.IdleForWorkflow(1) && p.after.sampleStable && Idle(p.after, 0, fence.target.runId, true)
    && p.after.policyGeneration == fence.generation
    && fence.target.runId in runs && runs[fence.target.runId] == Running
  }

  function Judge(sh: Shared, job: Job, p: Proof, ok: bool): Option<Pc> {
    match job
    case PublicRead => None
    case FenceRead(f) => Some(if SoleTarget(p, f, sh.runs) && ok then FenceProved(f, p) else FenceClearing(f.token))
    case CanaryRead(id, policy, generation) =>
      Some(if Quiescent(p, 1) && p.after.policy == policy && p.after.policyGeneration == generation
           then CanaryProved(id, policy, generation, p) else CanaryLeaving(Refused))
  }

  function LeaseEnter(sh: Shared, target: Target, now: int): (Shared, Pc) {
    var (sh1, leased) := LeaseCheck(sh, now);
    if !leased then (sh1, LeasePolicyRead(target, now, sh1.policy))
    else if sh1.lease.value.validated && sh1.lease.value.target == target
    then (sh1, Finishing(LeaseHeld(sh1.lease.value.token, true)))
    else (sh1, Finishing(Refused))
  }

  function LeaseInstall(sh: Shared, target: Target, now: int, policy: Option<Policy>, ok: bool): (Shared, Pc) {
    if !CanaryWindow(policy) || !ok then (sh, Finishing(Refused))
    else (sh.(lease := Some(Lease(sh.nextToken, target, now + LEASE_TTL, false)), nextToken := sh.nextToken + 1),
          Sampling(FenceRead(Fence(false, sh.nextToken, target, policy, sh.generation)), None, SampleStart))
  }

  function Extend(lease: Option<Lease>, until: int): Option<Lease> {
    match lease
    case None => None
    case Some(l) => Some(l.(expiresAt := until))
  }

  function RenewEnter(sh: Shared, token: nat, now: int): (Shared, Pc) {
    var (sh1, leased) := LeaseCheck(sh, now);
    if leased && sh1.lease.value.token == token && sh1.lease.value.validated
    then (sh1, RenewPolicyRead(token, sh1.lease.value.target, now, sh1.policy))
    else (sh1, Finishing(Refused))
  }

  function RenewBegin(sh: Shared, token: nat, target: Target, now: int, policy: Option<Policy>): (Shared, Pc) {
    if !CanaryWindow(policy) then (sh.(lease := None), Finishing(FenceRefused(token)))
    else (sh.(lease := Extend(sh.lease, now + LEASE_TTL)),
          Sampling(FenceRead(Fence(true, token, target, policy, sh.generation)), None, SampleStart))
  }

  function FenceRecheck(sh: Shared, f: Fence, current: Option<Policy>, now: int, later: int): (Shared, Pc) {
    var (sh1, leased) := LeaseCheck(sh, now);
    if leased && sh1.lease.value.token == f.token && current == f.policy && sh1.generation == f.generation
       && CanaryWindow(current)
    then
      if f.renewal
      then (sh1.(lease := Extend(sh1.lease, later + LEASE_TTL)), Finishing(Renewed(f.token)))
      else (sh1.(lease := Some(sh1.lease.value.(validated := true))), Finishing(LeaseHeld(f.token, false)))
    else
      if f.renewal then (ClearToken(sh1, f.token), Finishing(FenceRefused(f.token)))
      else (sh1, FenceClearing(f.token))
  }

  function CanaryEnter(sh: Shared, id: string, now: int): (Shared, Pc) {
    var (sh1, leased) := LeaseCheck(sh, now);
    if leased then (sh1, Finishing(Refused)) else (sh1.(canary := sh1.canary + 1), CanaryCounted(id))
  }

  function CanaryCreate(sh: Shared, id: string, policy: Option<Policy>, generation: nat, proof: Proof, x: Input): (Shared, Pc) {
    if !x.ok then (sh, CanaryLeaving(Refused))
    else if id in sh.runs then (sh, CanaryLeaving(if x.matches then CanaryReplayed(id) else Refused))
    else (sh.(runs := sh.runs[id := Running]), CanaryCreated(id, policy, generation, proof))
  }

  /** Terminalizing is a compare-and-set from running to error. */
  function CanaryTerminalize(sh: Shared, id: string, ok: bool): (Shared, Pc) {
    if ok && id in sh.runs && sh.runs[id] == Running
    then (sh.(runs := sh.runs[id := Error]), CanaryLeaving(CanaryTerminalized(id)))
    else (sh, CanaryLeaving(CanaryStuck(id)))
  }

  /** How the step out of each program point of the canary handler behaves. */
  function CanaryStep(sh: Shared, pc: Pc, x: Input): (Shared, Pc)
    requires pc.CanaryLookup? || pc.CanaryEntered? || pc.CanaryCounted? || pc.CanaryPolicyRead? || pc.CanaryProved?
             || pc.CanaryRechecking? || pc.CanaryCreating? || pc.CanaryCreated? || pc.CanaryRereading?
             || pc.CanaryTerminalizing? || pc.CanaryLeaving?
  {
    match pc
    case CanaryLookup(id) =>
      (sh, if !x.ok then Finishing(Refused)
           else if id in sh.runs then Finishing(if x.matches then CanaryReplayed(id) else Refused)
           else CanaryEntered(id))
    case CanaryEntered(id) => CanaryEnter(sh, id, x.now)
    case CanaryCounted(id) => (sh, CanaryPolicyRead(id, sh.policy))
    case CanaryPolicyRead(id, policy) =>
      (sh, if CanaryWindow(policy) then Sampling(CanaryRead(id, policy, sh.generation), None, SampleStart)
           else CanaryLeaving(Refused))
    case CanaryProved(id, policy, generation, proof) =>
      (sh, CanaryRechecking(id, policy, generation, proof, sh.policy))
    case CanaryRechecking(id, policy, generation, proof, current) =>
      (sh, if current == policy && sh.generation == generation && CanaryWindow(current)
           then CanaryCreating(id, policy, generation, proof) else CanaryLeaving(Refused))
    case CanaryCreating(id, policy, generation, proof) => CanaryCreate(sh, id, policy, generation, proof, x)
    case CanaryCreated(id, policy, generation, proof) =>
      (sh, CanaryRereading(id, policy, generation, proof, sh.policy))
    case CanaryRereading(id, policy, generation, proof, current) =>
      (sh, if current == policy && sh.generation == generation && CanaryWindow(current)
           then CanaryLeaving(CanaryStarted(id, policy, generation, proof)) else CanaryTerminalizing(id))
    case CanaryTerminalizing(id) => CanaryTerminalize(sh, id, x.ok)
    case CanaryLeaving(outcome) => (sh.(canary := sh.canary - 1), Finishing(outcome))
  }

  function Lift(r: (Shared, Pc)): (Shared, Option<Pc>) {
    (r.0, Some(r.1))
  }

  function Arrive(sh: Shared, request: Request, x: Input): (Shared, Option<Pc>) {
    match request
    case Admit => Lift(AdmitCheck(sh, x.now))
    case Operate => OperateEnter(sh, x.now)
    case Quiescence => (sh, Some(Sampling(PublicRead, None, SampleStart)))
    case AcquireLease(target) => (sh, Some(LeaseEntered(target)))
    case RenewLease(token) => (sh, Some(RenewEntered(token)))
    case ReleaseLease(token) => (Release(sh, token, x.now), None)
    case StartCanary(id) => (sh, Some(CanaryLookup(id)))
  }

  /** One step of a request at `pc`; `None` means the handler has returned. */
  ghost function Step(sh: Shared, pc: Pc, x: Input): (Shared, Option<Pc>) {
    match pc
    case Arrived(request) => Arrive(sh, request, x)
    case AdmitChecked(ok) => AdmitEnter(sh, ok)
    case Handling(_) => (sh.(active := sh.active - 1), None)
    case Sampling(job, earlier, stage) => Lift(SampleStep(sh, job, earlier, stage, x))
    case Reading(job, before) =>
      (sh, match x.counts
           case None => Unavailable(job)
           case Some(c) => Some(Sampling(job, Some(Earlier(before, c)), SampleStart)))
    case Sampled(job, proof) => (sh, Judge(sh, job, proof, x.ok))
    case LeaseEntered(target) => Lift(LeaseEnter(sh, target, x.now))
    case LeasePolicyRead(target, now, policy) => Lift(LeaseInstall(sh, target, now, policy, x.ok))
    case FenceProved(f, proof) => (sh, Some(FenceRechecking(f, proof, sh.policy)))
    case FenceRechecking(f, _, current) => Lift(FenceRecheck(sh, f, current, x.now, x.later))
    case FenceClearing(token) => (ClearToken(sh, token), Some(Finishing(FenceRefused(token))))
    case RenewEntered(token) => Lift(RenewEnter(sh, token, x.now))
    case RenewPolicyRead(token, target, now, policy) => Lift(RenewBegin(sh, token, target, now, policy))
    case Finishing(_) => (sh, None)
    case _ => Lift(CanaryStep(sh, pc, x))
  }

  // --- The whole system ---

  datatype Event =
    | Start(t: Tid, request: Request)
    | Advance(t: Tid, x: Input)
    | Swap(enabled: bool, workflows: bool)
    | Announce
    | Rewire(wiring: Wiring)
    | RunMoves(id: string, st: RunState)

  predicate Available(mu: Option<Tid>, t: Tid) {
    mu == None || mu == Some(t)
  }

  function Relock(mu: Option<Tid>, t: Tid, holds: bool): Option<Tid> {
    if holds then Some(t) else if mu == Some(t) then None else mu
  }

  /** Whether the event can happen: a thread blocks on a mutex held by another thread. */
  ghost predicate Enabled(s: Sys, e: Event) {
    match e
    case Start(t, _) => t !in s.threads
    case Advance(t, x) =>
      && t in s.threads
      && (NeedsAdmission(s.threads[t]) ==> Available(s.admissionMu, t))
      && (NeedsCanary(s.threads[t]) ==> Available(s.canaryMu, t))
      && (s.threads[t].Sampling? && s.threads[t].stage.SampleUnlocked? ==>
            ReadingsOf(x.readings, s.threads[t].stage.wiring))
    case Swap(_, _) => true
    case Announce => s.sh.unannounced > 0
    case Rewire(_) => s.admissionMu == None
    case RunMoves(id, _) => id in s.sh.runs ==> !Terminal(s.sh.runs[id])
  }

  ghost function Next(s: Sys, e: Event): Sys
    requires Enabled(s, e)
  {
    match e
    case Start(t, request) => s.(threads := s.threads[t := Arrived(request)])
    case Advance(t, x) => AdvanceThread(s, t, x)
    case Swap(enabled, workflows) =>
      s.(sh := s.sh.(policy := Some(Policy(s.sh.nextPolicy, enabled, workflows)),
                     nextPolicy := s.sh.nextPolicy + 1, unannounced := s.sh.unannounced + 1))
    case Announce => s.(sh := s.sh.(generation := s.sh.generation + 1, unannounced := s.sh.unannounced - 1))
    case Rewire(wiring) => s.(sh := s.sh.(wiring := wiring))
    case RunMoves(id, st) => s.(sh := s.sh.(runs := s.sh.runs[id := st]))
  }

  ghost function AdvanceThread(s: Sys, t: Tid, x: Input): Sys
    requires t in s.threads
  {
    var (sh, pc) := Step(s.sh, s.threads[t], x);
    match pc
    case Some(p) => Sys(sh, Relock(s.admissionMu, t, HoldsAdmission(p)), Relock(s.canaryMu, t, HoldsCanary(p)),
                        s.threads[t := p])
    case None => Sys(sh, Relock(s.admissionMu, t, false), Relock(s.canaryMu, t, false), s.threads - {t})
  }

  /** The operator at start: no request in flight, no lease, and whatever policy was loaded. */
  ghost predicate Init(s: Sys) {
    && s.threads == map[] && s.admissionMu == None && s.canaryMu == None
    && s.sh.active == 0 && s.sh.canary == 0 && s.sh.lease == None
    && (s.sh.policy.Some? ==> s.sh.policy.value.id < s.sh.nextPolicy)
  }

  /** A run: each state follows from the one before by some enabled event. */
  ghost predicate Run(states: seq<Sys>, events: seq<Event>) {
    && |states| == |events| + 1 && Init(states[0])
    && forall i {:trigger events[i]} | 0 <= i < |events| :: Enabled(states[i], events[i]) && states[i + 1] == Next(states[i], events[i])
  }
}
