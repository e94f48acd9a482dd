/**
 The protocol is not vacuous: runs in which a lease is validated, in which a canary is started, and in
 which a public read reports quiescent with an operational mutation inside it.
 */
module AdmissionWitness {
  import opened Basics
  import opened SafetyActivity
  import opened AdmissionProtocol
  import opened AdmissionInvariant
  import opened AdmissionTheorems
  import opened AdmissionQuiescence

  const OFF := Some(Policy(0, false, true))

  const IDLE_WIRING := Wiring(false, false, "", 0, map[])

  ghost function Go(active: nat): Input {
    Input(0, 0, Readings(map[], map[]), 0, 0, Some(Counts(0, 0, active, 0, 0, 0)), true, true)
  }

  ghost function Quiet(runs: map<string, RunState>): Shared {
    Shared(OFF, 1, 0, 0, 0, 0, None, 0, IDLE_WIRING, runs)
  }

  /** One step of the only request there is. */
  lemma OneStep(states: seq<Sys>, events: seq<Event>, x: Input, sh: Shared, pc: Pc) returns (states': seq<Sys>, events': seq<Event>)
    requires Run(states, events) && states[|states| - 1].threads.Keys == {0}
    requires var s := states[|states| - 1]; Enabled(s, Advance(0, x)) && Step(s.sh, s.threads[0], x) == (sh, Some(pc))
    ensures Run(states', events')
    ensures var s := states[|states| - 1];
      states' == states + [Sys(sh, Relock(s.admissionMu, 0, HoldsAdmission(pc)), Relock(s.canaryMu, 0, HoldsCanary(pc)), map[0 := pc])]
  {
    states', events' := GoOn(states, events, Advance(0, x));
    assert states[|states| - 1].threads[0 := pc] == map[0 := pc];
  }

  /** The sample an idle process gives: nothing counted, nothing active. */
  ghost function IdleSample(leased: bool, canary: int): Sample {
    MakeSample(0, leased, IDLE_WIRING, OFF, 0, Readings(map[], map[]), canary, 0, 0)
  }

  lemma IdleIsIdle(leased: bool, canary: int, runId: string)
    requires runId != ""
    ensures Idle(IdleSample(false, canary), canary, "", false)
    ensures canary == 0 ==> Idle(IdleSample(leased, 0), 0, runId, true)
  {
    assert Total(map[]) == 0;
  }

  /** Nobody is inside, admission is closed by the one policy there was, and the lease is as `leased` says. */
  ghost predicate Calm(sh: Shared, leased: bool) {
    sh.active == 0 && sh.policy == OFF && sh.generation == 0 && sh.wiring == IDLE_WIRING && LeaseCheck(sh, 0) == (sh, leased)
  }

  ghost function AfterSample(job: Job, earlier: Option<Earlier>, sample: Sample): Pc {
    match earlier
    case None => Reading(job, sample)
    case Some(e) => Sampled(job, Proof(e.before, e.counts, sample.(sampleStable := Agree(e.before, sample))))
  }

  /** Only the public read runs outside the canary lock. */
  ghost function JobLock(job: Job): Option<Tid> {
    if job.PublicRead? then None else Some(0)
  }

  /** What was added to a run leaves the only request past its first sample. */
  ghost predicate Later(states: seq<Sys>, states': seq<Sys>) {
    && states <= states'
    && forall n | |states| <= n < |states'| :: 0 in states'[n].threads && !FirstCounted(states'[n].threads[0])
  }

  lemma SampleRead(states: seq<Sys>, events: seq<Event>, active: nat, job: Job, earlier: Option<Earlier>, leased: bool)
    returns (states': seq<Sys>, events': seq<Event>)
    requires Run(states, events)
    requires var s := states[|states| - 1];
      s == Sys(s.sh, None, JobLock(job), map[0 := Sampling(job, earlier, SampleStart)]) && Calm(s.sh, leased)
    ensures Run(states', events') && |states'| > 0 && (earlier.Some? ==> Later(states, states'))
    ensures var sh := states[|states| - 1].sh;
      states'[|states'| - 1] == Sys(sh, Some(0), JobLock(job), map[0 := Sampling(job, earlier, SamplePolicy(0, leased, IDLE_WIRING, OFF))])
  {
    var sh, x := states[|states| - 1].sh, Go(active);
    states', events' := OneStep(states, events, x, sh, Sampling(job, earlier, SampleCounted(0, leased, IDLE_WIRING)));
    states', events' := OneStep(states', events', x, sh, Sampling(job, earlier, SamplePolicy(0, leased, IDLE_WIRING, OFF)));
  }

  /** A whole sample: count, policy, generation, and the answers of the sources. */
  lemma TakeSample(states: seq<Sys>, events: seq<Event>, active: nat, job: Job, earlier: Option<Earlier>, leased: bool)
    returns (states': seq<Sys>, events': seq<Event>)
    requires Run(states, events)
    requires var s := states[|states| - 1];
      s == Sys(s.sh, None, JobLock(job), map[0 := Sampling(job, earlier, SampleStart)]) && Calm(s.sh, leased)
    ensures Run(states', events') && |states'| > 0 && (earlier.Some? ==> Later(states, states'))
    ensures var sh := states[|states| - 1].sh;
      states'[|states'| - 1] == Sys(sh, None, JobLock(job), map[0 := AfterSample(job, earlier, IdleSample(leased, sh.canary))])
  {
    var sh, x := states[|states| - 1].sh, Go(active);
    states', events' := SampleRead(states, events, active, job, earlier, leased);
    states', events' := OneStep(states', events', x, sh, Sampling(job, earlier, SampleUnlocked(0, leased, IDLE_WIRING, OFF, 0)));
    states', events' := OneStep(states', events', x, sh, AfterSample(job, earlier, IdleSample(leased, sh.canary)));
  }

  /** The durable counts are read and the second sample is taken. */
  lemma TakeSecond(states: seq<Sys>, events: seq<Event>, active: nat, job: Job, leased: bool)
    returns (states': seq<Sys>, events': seq<Event>)
    requires Run(states, events)
    requires var s := states[|states| - 1];
      s == Sys(s.sh, None, JobLock(job), map[0 := Reading(job, IdleSample(leased, s.sh.canary))]) && Calm(s.sh, leased)
    ensures Run(states', events') && Later(states, states')
    ensures var sh := states[|states| - 1].sh;
      states'[|states'| - 1] == Sys(sh, None, JobLock(job), map[0 := Sampled(job, CalmProof(active, leased, sh.canary))])
  {
    var sh := states[|states| - 1].sh;
    var sample := IdleSample(leased, sh.canary);
    var e := Earlier(sample, Go(active).counts.value);
    states', events' := OneStep(states, events, Go(active), sh, Sampling(job, Some(e), SampleStart));
    states', events' := TakeSample(states', events', active, job, Some(e), leased);
    assert Agree(sample, sample);
  }

  /** A whole bracketed read, in a calm process. */
  lemma TakeProof(states: seq<Sys>, events: seq<Event>, active: nat, job: Job, leased: bool)
    returns (states': seq<Sys>, events': seq<Event>)
    requires Run(states, events)
    requires var s := states[|states| - 1];
      s == Sys(s.sh, None, JobLock(job), map[0 := Sampling(job, None, SampleStart)]) && Calm(s.sh, leased)
    ensures Run(states', events') && |states'| > 0
    ensures var sh := states[|states| - 1].sh;
      states'[|states'| - 1] == Sys(sh, None, JobLock(job), map[0 := Sampled(job, CalmProof(active, leased, sh.canary))])
  {
    states', events' := TakeSample(states, events, active, job, None, leased);
    states', events' := TakeSecond(states', events', active, job, leased);
  }

  ghost function CalmProof(active: nat, leased: bool, canary: int): Proof {
    var sample := IdleSample(leased, canary);
    Proof(sample, Go(active).counts.value, sample.(sampleStable := true))
  }

  /** The first request of an operator that has been closed from the start. */
  lemma FirstStep(runs: map<string, RunState>, request: Request, pc: Pc) returns (states: seq<Sys>, events: seq<Event>)
    requires Step(Quiet(runs), Arrived(request), Go(0)) == (Quiet(runs), Some(pc)) && !HoldsAdmission(pc)
    ensures Run(states, events) && |states| > 0
    ensures states[|states| - 1] == Sys(Quiet(runs), None, Relock(None, 0, HoldsCanary(pc)), map[0 := pc])
  {
    states, events := [Sys(Quiet(runs), None, None, map[])], [];
    states, events := GoOn(states, events, Start(0, request));
    assert map[][0 := Arrived(request)] == map[0 := Arrived(request)];
    states, events := OneStep(states, events, Go(0), Quiet(runs), pc);
  }

  ghost function FirstFence(target: Target): Fence {
    Fence(false, 0, target, OFF, 0)
  }

  ghost function Installed(target: Target): Shared {
    Quiet(map[target.runId := Running]).(lease := Some(Lease(0, target, LEASE_TTL, false)), nextToken := 1)
  }

  lemma ProveLease(target: Target) returns (states: seq<Sys>, events: seq<Event>)
    ensures Run(states, events) && |states| > 0
    ensures states[|states| - 1] ==
            Sys(Installed(target), None, Some(0), map[0 := Sampled(FenceRead(FirstFence(target)), CalmProof(1, true, 0))])
  {
    var sh := Quiet(map[target.runId := Running]);
    states, events := FirstStep(sh.runs, AcquireLease(target), LeaseEntered(target));
    states, events := OneStep(states, events, Go(1), sh, LeasePolicyRead(target, 0, OFF));
    states, events := OneStep(states, events, Go(1), Installed(target), Sampling(FenceRead(FirstFence(target)), None, SampleStart));
    states, events := TakeProof(states, events, 1, FenceRead(FirstFence(target)), true);
  }

  ghost function Held(target: Target): Shared {
    Installed(target).(lease := Some(Lease(0, target, LEASE_TTL, true)))
  }

  /** A good proof is judged, and the lock is taken for the recheck. */
  lemma JudgeGood(states: seq<Sys>, events: seq<Event>, f: Fence, sh: Shared) returns (states': seq<Sys>, events': seq<Event>)
    requires Run(states, events) && sh.policy == OFF && f.target.runId != "" && f.generation == 0
    requires f.target.runId in sh.runs && sh.runs[f.target.runId] == Running
    requires states[|states| - 1] == Sys(sh, None, Some(0), map[0 := Sampled(FenceRead(f), CalmProof(1, true, 0))])
    ensures Run(states', events') && |states'| > 0
    ensures states'[|states'| - 1] == Sys(sh, Some(0), Some(0), map[0 := FenceRechecking(f, CalmProof(1, true, 0), OFF)])
  {
    var proof := CalmProof(1, true, 0);
    IdleIsIdle(true, 0, f.target.runId);
    states', events' := OneStep(states, events, Go(1), sh, FenceProved(f, proof));
    states', events' := OneStep(states', events', Go(1), sh, FenceRechecking(f, proof, OFF));
  }

  lemma HoldLease(target: Target) returns (states: seq<Sys>, events: seq<Event>)
    requires target.runId != ""
    ensures Run(states, events) && |states| > 0
    ensures states[|states| - 1] == Sys(Held(target), None, Some(0), map[0 := Finishing(LeaseHeld(0, false))])
  {
    states, events := ProveLease(target);
    states, events := JudgeGood(states, events, FirstFence(target), Installed(target));
    states, events := OneStep(states, events, Go(1), Held(target), Finishing(LeaseHeld(0, false)));
  }

  /** A run in which a lease for the one running workflow is proved and validated. */
  lemma LeaseCanBeValidated(target: Target) returns (states: seq<Sys>, events: seq<Event>)
    requires target.runId != ""
    ensures Run(states, events) && |states| > 0
    ensures states[|states| - 1].sh.lease == Some(Lease(0, target, LEASE_TTL, true))
    ensures states[|states| - 1].threads == map[0 := Finishing(LeaseHeld(0, false))]
  {
    states, events := HoldLease(target);
  }

  /** The only request returns, and another one takes its place. */
  lemma NextRequest(states: seq<Sys>, events: seq<Event>, o: Outcome, request: Request) returns (states': seq<Sys>, events': seq<Event>)
    requires Run(states, events)
    requires var s := states[|states| - 1]; s == Sys(s.sh, None, Some(0), map[0 := Finishing(o)])
    ensures Run(states', events') && |states'| > 0
    ensures states'[|states'| - 1] == Sys(states[|states| - 1].sh, None, None, map[0 := Arrived(request)])
  {
    states', events' := GoOn(states, events, Advance(0, Go(0)));
    assert states'[|states'| - 1].threads == map[];
    states', events' := GoOn(states', events', Start(0, request));
  }

  lemma BeginRenewing(target: Target) returns (states: seq<Sys>, events: seq<Event>)
    requires target.runId != ""
    ensures Run(states, events) && |states| > 0
    ensures states[|states| - 1] ==
            Sys(Held(target), None, Some(0), map[0 := Sampling(FenceRead(Fence(true, 0, target, OFF, 0)), None, SampleStart)])
  {
    states, events := HoldLease(target);
    states, events := NextRequest(states, events, LeaseHeld(0, false), RenewLease(0));
    states, events := OneStep(states, events, Go(1), Held(target), RenewEntered(0));
    states, events := OneStep(states, events, Go(1), Held(target), RenewPolicyRead(0, target, 0, OFF));
    states, events := OneStep(states, events, Go(1), Held(target), Sampling(FenceRead(Fence(true, 0, target, OFF, 0)), None, SampleStart));
  }

  lemma RenewHeld(target: Target) returns (states: seq<Sys>, events: seq<Event>)
    requires target.runId != ""
    ensures Run(states, events) && |states| > 0
    ensures states[|states| - 1] == Sys(Held(target), None, Some(0), map[0 := Finishing(Renewed(0))])
  {
    var f := Fence(true, 0, target, OFF, 0);
    states, events := BeginRenewing(target);
    states, events := TakeProof(states, events, 1, FenceRead(f), true);
    states, events := JudgeGood(states, events, f, Held(target));
    states, events := OneStep(states, events, Go(1), Held(target), Finishing(Renewed(0)));
  }

  /** A run in which the lease is renewed and then released, and nobody is left. */
  lemma LeaseCanBeRenewedAndReleased(target: Target) returns (states: seq<Sys>, events: seq<Event>, n: nat)
    requires target.runId != ""
    ensures Run(states, events) && n < |states|
    ensures states[n].threads == map[0 := Finishing(Renewed(0))] && states[n].sh.lease == Some(Lease(0, target, LEASE_TTL, true))
    ensures states[|states| - 1].sh.lease == None && states[|states| - 1].threads == map[]
  {
    var renewed, renewedEvents := RenewHeld(target);
    n := |renewed| - 1;
    states, events := GoOn(renewed, renewedEvents, Advance(0, Go(0)));
    assert states[|states| - 1].threads == map[];
    states, events := GoOn(states, events, Start(0, ReleaseLease(0)));
    states, events := GoOn(states, events, Advance(0, Go(0)));
    assert states[|states| - 1].threads == map[];
  }

  lemma EnterCanary(id: string) returns (states: seq<Sys>, events: seq<Event>)
    ensures Run(states, events) && |states| > 0
    ensures states[|states| - 1] == Sys(Quiet(map[]).(canary := 1), None, Some(0), map[0 := CanaryCounted(id)])
  {
    var sh := Quiet(map[]);
    states, events := FirstStep(map[], StartCanary(id), CanaryLookup(id));
    states, events := OneStep(states, events, Go(0), sh, CanaryEntered(id));
    states, events := OneStep(states, events, Go(0), sh.(canary := 1), CanaryCounted(id));
  }

  lemma ProveCanary(id: string) returns (states: seq<Sys>, events: seq<Event>)
    ensures Run(states, events) && |states| > 0
    ensures states[|states| - 1] ==
            Sys(Quiet(map[]).(canary := 1), None, Some(0), map[0 := Sampled(CanaryRead(id, OFF, 0), CalmProof(0, false, 1))])
  {
    var counted := Quiet(map[]).(canary := 1);
    states, events := EnterCanary(id);
    states, events := OneStep(states, events, Go(0), counted, CanaryPolicyRead(id, OFF));
    states, events := OneStep(states, events, Go(0), counted, Sampling(CanaryRead(id, OFF, 0), None, SampleStart));
    states, events := TakeProof(states, events, 0, CanaryRead(id, OFF, 0), false);
  }

  lemma AcceptProof(id: string) returns (states: seq<Sys>, events: seq<Event>)
    ensures Run(states, events) && |states| > 0
    ensures var proof := CalmProof(0, false, 1);
      states[|states| - 1] == Sys(Quiet(map[]).(canary := 1), Some(0), Some(0), map[0 := CanaryRechecking(id, OFF, 0, proof, OFF)])
  {
    var proof, counted := CalmProof(0, false, 1), Quiet(map[]).(canary := 1);
    states, events := ProveCanary(id);
    IdleIsIdle(false, 1, "run");
    states, events := OneStep(states, events, Go(0), counted, CanaryProved(id, OFF, 0, proof));
    states, events := OneStep(states, events, Go(0), counted, CanaryRechecking(id, OFF, 0, proof, OFF));
  }

  lemma CreateProved(id: string) returns (states: seq<Sys>, events: seq<Event>)
    ensures Run(states, events) && |states| > 0
    ensures var proof := CalmProof(0, false, 1);
      states[|states| - 1] == Sys(Quiet(map[id := Running]).(canary := 1), Some(0), Some(0), map[0 := CanaryCreated(id, OFF, 0, proof)])
  {
    var proof, counted := CalmProof(0, false, 1), Quiet(map[]).(canary := 1);
    states, events := AcceptProof(id);
    states, events := OneStep(states, events, Go(0), counted, CanaryCreating(id, OFF, 0, proof));
    states, events := OneStep(states, events, Go(0), counted.(runs := map[id := Running]), CanaryCreated(id, OFF, 0, proof));
  }

  lemma ConfirmCanary(id: string) returns (states: seq<Sys>, events: seq<Event>)
    ensures Run(states, events) && |states| > 0
    ensures states[|states| - 1] == Sys(Quiet(map[id := Running]).(canary := 1), None, Some(0),
                                        map[0 := CanaryLeaving(CanaryStarted(id, OFF, 0, CalmProof(0, false, 1)))])
  {
    var proof, created := CalmProof(0, false, 1), Quiet(map[id := Running]).(canary := 1);
    states, events := CreateProved(id);
    states, events := OneStep(states, events, Go(0), created, CanaryRereading(id, OFF, 0, proof, OFF));
    states, events := OneStep(states, events, Go(0), created, CanaryLeaving(CanaryStarted(id, OFF, 0, proof)));
  }

  /** A run in which a canary is started. */
  lemma CanaryCanStart(id: string) returns (states: seq<Sys>, events: seq<Event>, proof: Proof)
    ensures Run(states, events) && |states| > 0
    ensures states[|states| - 1].threads == map[0 := Finishing(CanaryStarted(id, OFF, 0, proof))]
    ensures states[|states| - 1].sh == Quiet(map[id := Running])
  {
    proof := CalmProof(0, false, 1);
    states, events := ConfirmCanary(id);
    states, events := OneStep(states, events, Go(0), Quiet(map[id := Running]), Finishing(CanaryStarted(id, OFF, 0, proof)));
  }

  // --- A quiescent read around an operational mutation ---

  /** A public read that has taken its first sample. */
  lemma FirstHalf() returns (states: seq<Sys>, events: seq<Event>)
    ensures Run(states, events) && |states| > 0
    ensures states[|states| - 1] == Sys(Quiet(map[]), None, None, map[0 := Reading(PublicRead, IdleSample(false, 0))])
  {
    states, events := FirstStep(map[], Quiescence, Sampling(PublicRead, None, SampleStart));
    states, events := TakeSample(states, events, 0, PublicRead, None, false);
  }

  /** Between the two samples an operational mutation arrives, runs and leaves. */
  lemma MutationBetween(states: seq<Sys>, events: seq<Event>) returns (states': seq<Sys>, events': seq<Event>)
    requires Run(states, events)
    requires states[|states| - 1] == Sys(Quiet(map[]), None, None, map[0 := Reading(PublicRead, IdleSample(false, 0))])
    ensures Run(states', events') && |states'| == |states| + 3 && Later(states, states')
    ensures states'[|states|+ 1] == Inside(states[|states| - 1], 1) && states'[|states| + 2] == states[|states| - 1]
  {
    states', events' := OperateFitsIn(states, events, |states| - 1, 1, Go(0));
    assert states[..|states|] == states && states[|states| - 1..] == [states[|states| - 1]];
  }

  lemma ReadAroundAMutation() returns (n: nat, states: seq<Sys>, events: seq<Event>)
    ensures Run(states, events) && 0 < n && n + 1 < |states|
    ensures states[|states| - 1] == Sys(Quiet(map[]), None, None, map[0 := Sampled(PublicRead, CalmProof(0, false, 0))])
    ensures 0 in states[n + 1].threads && states[n + 1].threads[0].Reading?
    ensures 1 in states[n + 1].threads && states[n + 1].threads[1] == Handling(false)
    ensures Later(states[..n], states)
  {
    var first, firstEvents := FirstHalf();
    var around, aroundEvents := MutationBetween(first, firstEvents);
    states, events := TakeSecond(around, aroundEvents, 0, PublicRead, false);
    n := |first|;
    assert states[n + 1] == around[n + 1];
    assert states[..n] == first;
    assert Later(first, around) && Later(around, states);
    forall k | n <= k < |around|
      ensures states[k] == around[k]
    {
    }
  }

  /**
   A run that ends with a public read reporting quiescent, with an operational mutation running in it
   strictly between the read's two counts: the verdict says nothing about such a handler.
   */
  lemma QuiescentAroundAMutation() returns (states: seq<Sys>, events: seq<Event>, p: Proof, i: nat, k: nat, m: nat)
    ensures Run(states, events) && |states| > 0
    ensures states[|states| - 1].threads == map[0 := Sampled(PublicRead, p)] && Quiescent(p, 0)
    ensures i < k < m < |states| && Bracket(states, 0, i, |states| - 1) && SecondCounted(states[m].threads[0])
    ensures 1 in states[k].threads && states[k].threads[1] == Handling(false)
  {
    p := CalmProof(0, false, 0);
    IdleIsIdle(false, 0, "run");
    var n;
    n, states, events := ReadAroundAMutation();
    k := n + 1;
    i, m := QuiescentMeansNobodyAtTheCounts(states, events, 0, |states| - 1, p);
    assert FirstCounted(states[i].threads[0]);
    assert SecondCount(states[k].threads[0]) == None;
  }
}
