/** How samples are made and judged, and which way each look of a canary start goes, over runs. */
module AdmissionVerdicts {
  import opened Basics
  import opened SafetyActivity
  import opened AdmissionProtocol
  import opened AdmissionInvariant
  import opened AdmissionSteps
  import opened AdmissionTheorems
  import opened AdmissionDecisions

  // --- Samples ---

  /** A sample says what was read: the count, lease, wiring and policy from under the lock, the rest from after it. */
  ghost predicate SampleSays(a: Sample, active: int, leaseActive: bool, wiring: Wiring, policy: Option<Policy>, generation: nat,
                             r: Readings, canary: int, spin: int, audit: int) {
    && a.activeAdmissions == active && a.leaseActive == leaseActive && a.policy == policy && a.policyGeneration == generation
    && (a.admissionClosed <==> policy.Some? && !policy.value.enabled)
    && a.sourcesReady == wiring.ready && a.wiringRequired == wiring.required && a.sourceGeneration == wiring.generation
    && a.wiringError == wiring.error && a.operations == r.operations && a.runIds == r.runIds
    && a.activitySources == |r.operations| && a.background == Total(r.operations)
    && (forall n :: n in a.missing <==> n in REQUIRED_SOURCES && n !in wiring.sources)
    && a.canaryAdmissions == canary && a.spinWorkers == spin && a.auditOutstanding == audit
  }

  lemma {:induction false} MissingAre(sources: map<string, nat>, names: seq<string>)
    ensures forall n :: n in Missing(sources, names) <==> n in names && n !in sources
  {
    if names != [] {
      MissingAre(sources, names[1..]);
      assert forall n :: n in names <==> n == names[0] || n in names[1..];
    }
  }

  lemma MadeSampleSays(active: int, leaseActive: bool, wiring: Wiring, policy: Option<Policy>, generation: nat,
                       r: Readings, canary: int, spin: int, audit: int)
    ensures var a := MakeSample(active, leaseActive, wiring, policy, generation, r, canary, spin, audit);
      SampleSays(a, active, leaseActive, wiring, policy, generation, r, canary, spin, audit)
  {
    MissingAre(wiring.sources, REQUIRED_SOURCES);
  }

  /** The policy, the generation and then everything outside the lock are read as they stand at their own step. */
  lemma SampleReads(states: seq<Sys>, events: seq<Event>, t: Tid, i: nat)
    requires Moves(states, events, i, t) && states[i].threads[t].Sampling?
    ensures var (s, pc, st) := (states[i].sh, states[i].threads[t], states[i].threads[t].stage);
      && (st.SampleCounted? ==>
            GoesTo(states, i, t, s, pc.(stage := SamplePolicy(st.active, st.leaseActive, st.wiring, s.policy))))
      && (st.SamplePolicy? ==>
            GoesTo(states, i, t, s, pc.(stage := SampleUnlocked(st.active, st.leaseActive, st.wiring, st.policy, s.generation))))
  {
    assert states[i + 1] == Next(states[i], events[i]);
  }

  /** The sample just completed: the first waits for the durable counts, the second closes the bracket. */
  lemma SampleCompletes(states: seq<Sys>, events: seq<Event>, t: Tid, i: nat) returns (a: Sample)
    requires Moves(states, events, i, t) && states[i].threads[t].Sampling? && states[i].threads[t].stage.SampleUnlocked?
    ensures var (pc, st, x) := (states[i].threads[t], states[i].threads[t].stage, events[i].x);
      && SampleSays(a, st.active, st.leaseActive, st.wiring, st.policy, st.generation, x.readings, states[i].sh.canary, x.spin, x.audit)
      && GoesTo(states, i, t, states[i].sh,
           match pc.earlier
           case None => Reading(pc.job, a)
           case Some(e) => Sampled(pc.job, Proof(e.before, e.counts, a.(sampleStable := Agree(e.before, a)))))
  {
    assert states[i + 1] == Next(states[i], events[i]);
    var (st, x) := (states[i].threads[t].stage, events[i].x);
    MadeSampleSays(st.active, st.leaseActive, st.wiring, st.policy, st.generation, x.readings, states[i].sh.canary, x.spin, x.audit);
    a := MakeSample(st.active, st.leaseActive, st.wiring, st.policy, st.generation, x.readings, states[i].sh.canary, x.spin, x.audit);
  }

  /** With the durable counts read, the second sample begins; without them no verdict is given and nothing goes on. */
  lemma CountsDecide(states: seq<Sys>, events: seq<Event>, t: Tid, i: nat)
    requires Moves(states, events, i, t) && states[i].threads[t].Reading?
    ensures states[i + 1].sh == states[i].sh
    ensures var (pc, counts) := (states[i].threads[t], events[i].x.counts);
      if counts.Some?
      then t in states[i + 1].threads
           && states[i + 1].threads[t] == Sampling(pc.job, Some(Earlier(pc.before, counts.value)), SampleStart)
      else match pc.job
        case PublicRead => t !in states[i + 1].threads
        case FenceRead(f) => t in states[i + 1].threads && states[i + 1].threads[t] == FenceClearing(f.token)
        case CanaryRead(_, _, _) => t in states[i + 1].threads && states[i + 1].threads[t] == CanaryLeaving(Refused)
  {
    assert states[i + 1] == Next(states[i], events[i]);
  }

  // --- Verdicts ---

  /**
   The verdict of a bracketed read, exactly: the store holds no work of any of the six kinds, and the two
   samples are each idle and agree.
   */
  lemma QuiescentExactly(states: seq<Sys>, events: seq<Event>, t: Tid, j: nat, allowed: int)
    requires Run(states, events) && j < |states| && t in states[j].threads && states[j].threads[t].Sampled?
    ensures var p := states[j].threads[t].proof;
      Quiescent(p, allowed) <==>
      && p.counts.queuedBacklog == 0 && p.counts.activePipelineRuns == 0 && p.counts.activeWorkflowRuns == 0
      && p.counts.activeSpinRuns == 0 && p.counts.activeCouncilRuns == 0 && p.counts.pendingDispatches == 0
      && Idle(p.before, allowed, "", false) && Idle(p.after, allowed, "", false) && Agree(p.before, p.after)
  {
    ReachedThread(states, events, j, t);
  }

  /**
   The verdict of a lease proof, exactly: one active workflow run and no other durable work, two agreeing
   samples whose only activity is the target run, the generation the proof began with, and a target that
   is running. Any other proof clears its lease.
   */
  lemma LeaseProofJudged(states: seq<Sys>, events: seq<Event>, t: Tid, i: nat, f: Fence, p: Proof)
    requires Moves(states, events, i, t) && states[i].threads[t] == Sampled(FenceRead(f), p)
    ensures states[i + 1].sh == states[i].sh && t in states[i + 1].threads
    ensures states[i + 1].threads[t] ==
      if p.counts.queuedBacklog == 0 && p.counts.activePipelineRuns == 0 && p.counts.activeWorkflowRuns == 1
         && p.counts.activeSpinRuns == 0 && p.counts.activeCouncilRuns == 0 && p.counts.pendingDispatches == 0
         && Agree(p.before, p.after) && Idle(p.after, 0, f.target.runId, true) && p.after.policyGeneration == f.generation
         && f.target.runId in states[i].sh.runs && states[i].sh.runs[f.target.runId] == Running && events[i].x.ok
      then FenceProved(f, p) else FenceClearing(f.token)
  {
    assert states[i + 1] == Next(states[i], events[i]);
    ReachedThread(states, events, i, t);
  }

  /** The canary's own proof, exactly: quiescent but for itself, under the policy object and generation it read. */
  lemma CanaryProofJudged(states: seq<Sys>, events: seq<Event>, t: Tid, i: nat, id: string, policy: Option<Policy>,
                          generation: nat, p: Proof)
    requires Moves(states, events, i, t) && states[i].threads[t] == Sampled(CanaryRead(id, policy, generation), p)
    ensures states[i + 1].sh == states[i].sh && t in states[i + 1].threads
    ensures states[i + 1].threads[t] ==
      if OnlyWorkflows(p.counts, 0) && Idle(p.before, 1, "", false) && Idle(p.after, 1, "", false) && Agree(p.before, p.after)
         && p.after.policy == policy && p.after.policyGeneration == generation
      then CanaryProved(id, policy, generation, p) else CanaryLeaving(Refused)
  {
    assert states[i + 1] == Next(states[i], events[i]);
    ReachedThread(states, events, i, t);
  }

  // --- The canary start ---

  /** An id that is free goes on, one that is taken is answered, and a failed lookup is refused. */
  lemma LookupDecides(states: seq<Sys>, events: seq<Event>, t: Tid, i: nat, id: string)
    requires Moves(states, events, i, t) && states[i].threads[t] == CanaryLookup(id)
    ensures var s, x := states[i].sh, events[i].x;
      GoesTo(states, i, t, s,
        if !x.ok then Finishing(Refused)
        else if id !in s.runs then CanaryEntered(id)
        else if x.matches then Finishing(CanaryReplayed(id))
        else Finishing(Refused))
  {
    assert states[i + 1] == Next(states[i], events[i]);
  }

  /** A canary is counted in exactly when no lease is in force. */
  lemma CanaryEnterDecides(states: seq<Sys>, events: seq<Event>, t: Tid, i: nat, id: string)
    requires Moves(states, events, i, t) && states[i].threads[t] == CanaryEntered(id)
    ensures var s := states[i].sh;
      if NoneInForce(s, events[i].x.now)
      then GoesTo(states, i, t, s.(lease := None, canary := s.canary + 1), CanaryCounted(id))
      else GoesTo(states, i, t, s, Finishing(Refused))
  {
    assert states[i + 1] == Next(states[i], events[i]);
  }

  /** The two looks at the policy before the proof: it goes on exactly in the window. */
  lemma CanaryPolicyDecides(states: seq<Sys>, events: seq<Event>, t: Tid, i: nat, id: string)
    requires Moves(states, events, i, t)
    ensures states[i].threads[t] == CanaryCounted(id) ==>
              GoesTo(states, i, t, states[i].sh, CanaryPolicyRead(id, states[i].sh.policy))
    ensures forall p :: states[i].threads[t] == CanaryPolicyRead(id, p) ==>
              GoesTo(states, i, t, states[i].sh,
                     if Window(p) then Sampling(CanaryRead(id, p, states[i].sh.generation), None, SampleStart)
                     else CanaryLeaving(Refused))
  {
    assert states[i + 1] == Next(states[i], events[i]);
  }

  /** The recheck before the row is created: it goes on exactly under the policy object and generation of the proof. */
  lemma CanaryRecheckDecides(states: seq<Sys>, events: seq<Event>, t: Tid, i: nat)
    requires Moves(states, events, i, t)
    ensures var (s, pc) := (states[i].sh, states[i].threads[t]);
      && (pc.CanaryProved? ==> GoesTo(states, i, t, s, CanaryRechecking(pc.id, pc.policy, pc.generation, pc.proof, s.policy)))
      && (pc.CanaryRechecking? ==>
            GoesTo(states, i, t, s,
                   if pc.current == pc.policy && s.generation == pc.generation && Window(pc.current)
                   then CanaryCreating(pc.id, pc.policy, pc.generation, pc.proof) else CanaryLeaving(Refused)))
  {
    assert states[i + 1] == Next(states[i], events[i]);
  }

  /** A free id becomes a running row; a taken one is answered; a store that fails creates nothing. */
  lemma CreateDecides(states: seq<Sys>, events: seq<Event>, t: Tid, i: nat)
    requires Moves(states, events, i, t) && states[i].threads[t].CanaryCreating?
    ensures var (s, pc, x) := (states[i].sh, states[i].threads[t], events[i].x);
      if x.ok && pc.id !in s.runs
      then GoesTo(states, i, t, s.(runs := s.runs[pc.id := Running]), CanaryCreated(pc.id, pc.policy, pc.generation, pc.proof))
      else GoesTo(states, i, t, s, CanaryLeaving(if x.ok && x.matches then CanaryReplayed(pc.id) else Refused))
  {
    assert states[i + 1] == Next(states[i], events[i]);
  }

  /** After the row is there the start is reported exactly if the policy is still the one of the proof. */
  lemma CanaryRereadDecides(states: seq<Sys>, events: seq<Event>, t: Tid, i: nat)
    requires Moves(states, events, i, t)
    ensures var (s, pc) := (states[i].sh, states[i].threads[t]);
      && (pc.CanaryCreated? ==> GoesTo(states, i, t, s, CanaryRereading(pc.id, pc.policy, pc.generation, pc.proof, s.policy)))
      && (pc.CanaryRereading? ==>
            GoesTo(states, i, t, s,
                   if pc.current == pc.policy && s.generation == pc.generation && Window(pc.current)
                   then CanaryLeaving(CanaryStarted(pc.id, pc.policy, pc.generation, pc.proof)) else CanaryTerminalizing(pc.id)))
  {
    assert states[i + 1] == Next(states[i], events[i]);
  }

  /** The fail-safe puts a running row into error, exactly when the store answers and the row still runs. */
  lemma TerminalizeDecides(states: seq<Sys>, events: seq<Event>, t: Tid, i: nat, id: string)
    requires Moves(states, events, i, t) && states[i].threads[t] == CanaryTerminalizing(id)
    ensures var s := states[i].sh;
      if events[i].x.ok && id in s.runs && s.runs[id] == Running
      then GoesTo(states, i, t, s.(runs := s.runs[id := Error]), CanaryLeaving(CanaryTerminalized(id)))
      else GoesTo(states, i, t, s, CanaryLeaving(CanaryStuck(id)))
  {
    assert states[i + 1] == Next(states[i], events[i]);
  }

  /** Every counted canary takes its count back on the way out, and keeps its answer. */
  lemma CanaryLeaves(states: seq<Sys>, events: seq<Event>, t: Tid, i: nat, o: Outcome)
    requires Moves(states, events, i, t) && states[i].threads[t] == CanaryLeaving(o)
    ensures GoesTo(states, i, t, states[i].sh.(canary := states[i].sh.canary - 1), Finishing(o))
  {
    assert states[i + 1] == Next(states[i], events[i]);
  }

  // --- The idempotent replay ---

  ghost predicate Answering(pc: Pc, o: Outcome) {
    pc == CanaryLeaving(o) || pc == Finishing(o)
  }

  lemma AnswerStays(s: Sys, e: Event, t: Tid, o: Outcome)
    requires Enabled(s, e) && t in s.threads && Answering(s.threads[t], o) && t in Next(s, e).threads
    ensures Answering(Next(s, e).threads[t], o)
  {
  }

  lemma {:induction false} AnswerKept(states: seq<Sys>, events: seq<Event>, t: Tid, i: nat, j: nat, o: Outcome)
    requires Run(states, events) && i <= j < |states| && Present(states, t, i, j) && Answering(states[i].threads[t], o)
    ensures Answering(states[j].threads[t], o)
    decreases j
  {
    if i < j {
      AnswerKept(states, events, t, i, j - 1, o);
      AnswerStays(states[j - 1], events[j - 1], t, o);
    }
  }

  lemma AnswerGiven(sh: Shared, pc: Pc, x: Input, id: string)
    requires Asks(pc, id) && id in sh.runs && x.ok
    ensures var (sh', pc') := Step(sh, pc, x);
      && sh' == sh && pc'.Some? && Answering(pc'.value, if x.matches then CanaryReplayed(id) else Refused)
      && (pc.CanaryLookup? ==> pc'.value.Finishing?)
  {
  }

  /** An answered request that is still there after a step of its own has taken its canary count back. */
  lemma OnlyLeaves(s: Sys, e: Event, t: Tid, o: Outcome)
    requires Enabled(s, e) && e.Advance? && e.t == t && t in s.threads && Answering(s.threads[t], o) && t in Next(s, e).threads
    ensures s.threads[t].CanaryLeaving? && Next(s, e).sh == s.sh.(canary := s.sh.canary - 1)
  {
  }

  /** The request looks at, or tries to create, this id. */
  ghost predicate Asks(pc: Pc, id: string) {
    pc == CanaryLookup(id) || (pc.CanaryCreating? && pc.id == id)
  }

  /**
   The replay of a canary start. A request whose lookup, or whose create, finds its id taken in a store
   that answers ends, however it is interleaved, as a replay of that id if the stored run has its identity
   and as refused if not. Rows, lease, admission count and tokens are not touched by it: its only later
   step takes back the canary count it had added itself.
   */
  lemma ReplayDecides(states: seq<Sys>, events: seq<Event>, t: Tid, i: nat, j: nat, id: string)
    requires Moves(states, events, i, t) && Asks(states[i].threads[t], id) && id in states[i].sh.runs && events[i].x.ok
    requires i < j < |states| && Present(states, t, i, j) && states[j].threads[t].Finishing?
    ensures states[j].threads[t].outcome == CanaryReplayed(id) <==> events[i].x.matches
    ensures states[j].threads[t].outcome == Refused <==> !events[i].x.matches
    ensures states[i + 1].sh == states[i].sh
    ensures forall k | i < k < j && Moves(states, events, k, t) ::
              states[i].threads[t].CanaryCreating? && states[k + 1].sh == states[k].sh.(canary := states[k].sh.canary - 1)
  {
    var o := if events[i].x.matches then CanaryReplayed(id) else Refused;
    AnswerGiven(states[i].sh, states[i].threads[t], events[i].x, id);
    AnswerKept(states, events, t, i + 1, j, o);
    forall k | i < k < j && Moves(states, events, k, t)
      ensures states[i].threads[t].CanaryCreating? && states[k + 1].sh == states[k].sh.(canary := states[k].sh.canary - 1)
    {
      AnswerKept(states, events, t, i + 1, k, o);
      OnlyLeaves(states[k], events[k], t, o);
      if states[i].threads[t].CanaryLookup? {
        FinishedStays(states, events, t, i + 1, k);
      }
    }
  }
}
