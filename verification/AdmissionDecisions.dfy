/**
 What the admission protocol must do: which requests are let in, go on, are answered or are refused, told
 by the fields of the state a step finds and the clock it reads, over runs.
 */
module AdmissionDecisions {
  import opened Basics
  import opened SafetyActivity
  import opened AdmissionProtocol
  import opened AdmissionInvariant
  import opened AdmissionSteps
  import opened AdmissionTheorems

  // --- Vocabulary ---

  /** The `i`-th event of the run is a step of thread `t`. */
  ghost predicate Moves(states: seq<Sys>, events: seq<Event>, i: nat, t: Tid) {
    Run(states, events) && i < |events| && events[i].Advance? && events[i].t == t && t in states[i].threads
  }

  /** No lease stands at this clock reading: there is none, or its time is up. */
  ghost predicate NoneInForce(sh: Shared, now: int) {
    sh.lease == None || now >= sh.lease.value.expiresAt
  }

  /** Thread `t` takes no step from `i` up to `j`. */
  ghost predicate Rests(events: seq<Event>, t: Tid, i: nat, j: nat)
    requires i <= j <= |events|
  {
    forall k | i <= k < j :: !(events[k].Advance? && events[k].t == t)
  }

  lemma {:induction false} RestsThere(states: seq<Sys>, events: seq<Event>, t: Tid, i: nat, j: nat)
    requires Run(states, events) && i <= j < |states| && t in states[i].threads && Rests(events, t, i, j)
    ensures t in states[j].threads && states[j].threads[t] == states[i].threads[t]
    decreases j
  {
    if i < j {
      RestsThere(states, events, t, i, j - 1);
      assert states[j] == Next(states[j - 1], events[j - 1]);
    }
  }

  /** Nothing but the thread itself has moved. */
  ghost predicate GoesTo(states: seq<Sys>, i: nat, t: Tid, sh: Shared, pc: Pc)
    requires i + 1 < |states|
  {
    states[i + 1].sh == sh && t in states[i + 1].threads && states[i + 1].threads[t] == pc
  }

  // --- Tracked handlers ---

  /**
   The work-admission barrier, exactly. A guarded handler whose check finds a policy that is there and
   enabled, and no lease in force, is running after its next own step, counted in; any other is gone, and
   nobody is counted.
   */
  lemma AdmitDecides(states: seq<Sys>, events: seq<Event>, t: Tid, i: nat, j: nat)
    requires Moves(states, events, i, t) && Moves(states, events, j, t) && i < j && Rests(events, t, i + 1, j)
    requires states[i].threads[t] == Arrived(Admit)
    ensures var s, x := states[i].sh, events[i].x;
      if s.policy.Some? && s.policy.value.enabled && NoneInForce(s, x.now)
      then t in states[j + 1].threads && states[j + 1].threads[t] == Handling(true)
           && states[j + 1].sh == states[j].sh.(active := states[j].sh.active + 1)
      else t !in states[j + 1].threads && states[j + 1].sh == states[j].sh
  {
    assert states[i + 1] == Next(states[i], events[i]);
    assert t in states[i + 1].threads;
    RestsThere(states, events, t, i + 1, j);
    assert states[j + 1] == Next(states[j], events[j]);
  }

  /** And it can: whenever the lock is free, the policy open and no lease in force, a guarded handler gets in at once. */
  lemma AdmitGetsIn(states: seq<Sys>, events: seq<Event>, u: Tid, x: Input) returns (states': seq<Sys>, events': seq<Event>)
    requires Run(states, events)
    requires var s := states[|states| - 1];
      && u !in s.threads && s.admissionMu == None
      && s.sh.policy.Some? && s.sh.policy.value.enabled && NoneInForce(s.sh, x.now)
    ensures Run(states', events') && states <= states' && |states'| == |states| + 3
    ensures var s, s' := states[|states| - 1], states'[|states'| - 1];
      && s'.sh == s.sh.(lease := None, active := s.sh.active + 1) && s'.threads == s.threads[u := Handling(true)]
      && s'.admissionMu == None
  {
    states', events' := GoOn(states, events, Start(u, Admit));
    states', events' := GoOn(states', events', Advance(u, x));
    states', events' := GoOn(states', events', Advance(u, x));
  }

  /** An operational handler is let in exactly when no lease is in force, whatever the policy. */
  lemma OperateDecides(states: seq<Sys>, events: seq<Event>, t: Tid, i: nat)
    requires Moves(states, events, i, t) && states[i].threads[t] == Arrived(Operate)
    ensures var s, s', x := states[i].sh, states[i + 1].sh, events[i].x;
      if NoneInForce(s, x.now)
      then t in states[i + 1].threads && states[i + 1].threads[t] == Handling(false)
           && s' == s.(lease := None, active := s.active + 1)
      else t !in states[i + 1].threads && s' == s
  {
    assert states[i + 1] == Next(states[i], events[i]);
  }

  /** A handler that leaves takes its one count back. */
  lemma HandlerLeaves(states: seq<Sys>, events: seq<Event>, t: Tid, i: nat)
    requires Moves(states, events, i, t) && states[i].threads[t].Handling?
    ensures t !in states[i + 1].threads && states[i + 1].sh == states[i].sh.(active := states[i].sh.active - 1)
  {
    assert states[i + 1] == Next(states[i], events[i]);
  }

  // --- Leases run out ---

  /** The points whose step looks whether a lease is in force. */
  ghost predicate Looks(pc: Pc) {
    || (pc.Arrived? && (pc.request.Admit? || pc.request.Operate? || pc.request.ReleaseLease?))
    || (pc.Sampling? && pc.stage.SampleStart?)
    || pc.LeaseEntered? || pc.RenewEntered? || pc.FenceRechecking? || pc.CanaryEntered?
  }

  lemma LookDrops(sh: Shared, pc: Pc, x: Input)
    requires Looks(pc) && sh.lease.Some? && x.now >= sh.lease.value.expiresAt
    ensures Step(sh, pc, x).0.lease == None
  {
  }

  /** A lease whose time is up is gone as soon as anybody looks, and no later state has its token. */
  lemma ExpiredLeaseIsGone(states: seq<Sys>, events: seq<Event>, t: Tid, i: nat, m: nat)
    requires Moves(states, events, i, t) && Looks(states[i].threads[t])
    requires states[i].sh.lease.Some? && events[i].x.now >= states[i].sh.lease.value.expiresAt
    requires i < m < |states|
    ensures states[i + 1].sh.lease == None && !HasToken(states[m].sh, states[i].sh.lease.value.token)
  {
    var token := states[i].sh.lease.value.token;
    assert states[i + 1] == Next(states[i], events[i]);
    LookDrops(states[i].sh, states[i].threads[t], events[i].x);
    Reachable(states, events, i);
    RunLinked(states, events);
    IssuedGrow(states, i, i + 1);
    if HasToken(states[m].sh, token) {
      TokenThroughout(states, i + 1, m, token);
    }
  }

  /** A sample records the count it finds and whether a lease is in force. */
  lemma SampleLooks(states: seq<Sys>, events: seq<Event>, t: Tid, i: nat)
    requires Moves(states, events, i, t) && states[i].threads[t].Sampling? && states[i].threads[t].stage.SampleStart?
    ensures var s, s', pc, x := states[i].sh, states[i + 1].sh, states[i].threads[t], events[i].x;
      && s' == (if NoneInForce(s, x.now) then s.(lease := None) else s)
      && t in states[i + 1].threads
      && states[i + 1].threads[t] == pc.(stage := SampleCounted(s.active, !NoneInForce(s, x.now), s.wiring))
  {
    assert states[i + 1] == Next(states[i], events[i]);
  }

  // --- Asking for a lease, renewing and releasing it ---

  /** The policy a crash proof may run under: there, closed, and with workflows enabled. */
  ghost predicate Window(p: Option<Policy>) {
    p.Some? && !p.value.enabled && p.value.workflows
  }

  /** Every request but the three handled on the spot starts at its entry point. */
  lemma RequestEnters(states: seq<Sys>, events: seq<Event>, t: Tid, i: nat)
    requires Moves(states, events, i, t) && states[i].threads[t].Arrived?
    requires var r := states[i].threads[t].request; r.Quiescence? || r.AcquireLease? || r.RenewLease? || r.StartCanary?
    ensures var r := states[i].threads[t].request;
      && (r.Quiescence? ==> GoesTo(states, i, t, states[i].sh, Sampling(PublicRead, None, SampleStart)))
      && (r.AcquireLease? ==> GoesTo(states, i, t, states[i].sh, LeaseEntered(r.target)))
      && (r.RenewLease? ==> GoesTo(states, i, t, states[i].sh, RenewEntered(r.token)))
      && (r.StartCanary? ==> GoesTo(states, i, t, states[i].sh, CanaryLookup(r.id)))
  {
    assert states[i + 1] == Next(states[i], events[i]);
  }

  /** What the request does when it finds no lease in force: it goes on to read the policy. */
  lemma LeaseRequestGoesOn(states: seq<Sys>, events: seq<Event>, t: Tid, i: nat)
    requires Moves(states, events, i, t) && states[i].threads[t].LeaseEntered? && NoneInForce(states[i].sh, events[i].x.now)
    ensures GoesTo(states, i, t, states[i].sh.(lease := None),
                   LeasePolicyRead(states[i].threads[t].target, events[i].x.now, states[i].sh.policy))
  {
    assert states[i + 1] == Next(states[i], events[i]);
  }

  /** The lease is installed exactly in the window and with a token: unproved, for ninety seconds, and its proof begins. */
  lemma LeaseInstalledInWindow(states: seq<Sys>, events: seq<Event>, t: Tid, i: nat)
    requires Moves(states, events, i, t) && states[i].threads[t].LeasePolicyRead?
    ensures t in states[i + 1].threads
    ensures var s, s', pc, x := states[i].sh, states[i + 1].sh, states[i].threads[t], events[i].x;
      if Window(pc.policy) && x.ok
      then s' == s.(lease := Some(Lease(s.nextToken, pc.target, pc.now + 90, false)), nextToken := s.nextToken + 1)
           && states[i + 1].threads[t] ==
              Sampling(FenceRead(Fence(false, s.nextToken, pc.target, pc.policy, s.generation)), None, SampleStart)
      else s' == s && states[i + 1].threads[t] == Finishing(Refused)
  {
    assert states[i + 1] == Next(states[i], events[i]);
  }

  /** A renewal goes on exactly from a validated lease in force with its token. */
  lemma RenewalGoesOn(states: seq<Sys>, events: seq<Event>, t: Tid, i: nat)
    requires Moves(states, events, i, t) && states[i].threads[t].RenewEntered?
    ensures t in states[i + 1].threads
    ensures var s, s', pc, x := states[i].sh, states[i + 1].sh, states[i].threads[t], events[i].x;
      && s' == (if NoneInForce(s, x.now) then s.(lease := None) else s)
      && states[i + 1].threads[t] ==
         if !NoneInForce(s, x.now) && s.lease.value.token == pc.token && s.lease.value.validated
         then RenewPolicyRead(pc.token, s.lease.value.target, x.now, s.policy) else Finishing(Refused)
  {
    assert states[i + 1] == Next(states[i], events[i]);
  }

  /** In the window it extends its lease by ninety seconds and proves it anew; outside, the lease is gone. */
  lemma RenewalBeginsInWindow(states: seq<Sys>, events: seq<Event>, t: Tid, i: nat)
    requires Moves(states, events, i, t) && states[i].threads[t].RenewPolicyRead?
    ensures t in states[i + 1].threads && states[i].sh.lease.Some? && states[i].sh.lease.value.token == states[i].threads[t].token
    ensures var s, s', pc := states[i].sh, states[i + 1].sh, states[i].threads[t];
      if Window(pc.policy)
      then s' == s.(lease := Some(s.lease.value.(expiresAt := pc.now + 90)))
           && states[i + 1].threads[t] ==
              Sampling(FenceRead(Fence(true, pc.token, pc.target, pc.policy, s.generation)), None, SampleStart)
      else s' == s.(lease := None) && states[i + 1].threads[t] == Finishing(FenceRefused(pc.token))
  {
    assert states[i + 1] == Next(states[i], events[i]);
    ReachedThread(states, events, i, t);
  }

  /** A release takes away the lease of its token, at once and for good, and no other that is in force. */
  lemma ReleaseDecides(states: seq<Sys>, events: seq<Event>, t: Tid, i: nat, token: nat)
    requires Moves(states, events, i, t) && states[i].threads[t] == Arrived(ReleaseLease(token))
    ensures t !in states[i + 1].threads
    ensures var s := states[i].sh;
      states[i + 1].sh ==
      if NoneInForce(s, events[i].x.now) || s.lease.value.token == token then s.(lease := None) else s
    ensures token < states[i].sh.nextToken ==> forall m | i < m < |states| :: !HasToken(states[m].sh, token)
  {
    assert states[i + 1] == Next(states[i], events[i]);
    RunLinked(states, events);
    forall m | i < m < |states|
      ensures token < states[i].sh.nextToken ==> !HasToken(states[m].sh, token)
    {
      if token < states[i].sh.nextToken && HasToken(states[m].sh, token) {
        IssuedGrow(states, i, i + 1);
        TokenThroughout(states, i + 1, m, token);
      }
    }
  }

  /** A proof judged bad, or a recheck that failed, clears its own lease and no other. */
  lemma ClearingDecides(states: seq<Sys>, events: seq<Event>, t: Tid, i: nat)
    requires Moves(states, events, i, t) && states[i].threads[t].FenceClearing?
    ensures t in states[i + 1].threads && states[i + 1].threads[t] == Finishing(FenceRefused(states[i].threads[t].token))
    ensures states[i + 1].sh ==
      if HasToken(states[i].sh, states[i].threads[t].token) then states[i].sh.(lease := None) else states[i].sh
  {
    assert states[i + 1] == Next(states[i], events[i]);
  }

  /** A proof judged good is rechecked under the policy of that moment. */
  lemma RecheckReads(states: seq<Sys>, events: seq<Event>, t: Tid, i: nat)
    requires Moves(states, events, i, t) && states[i].threads[t].FenceProved?
    ensures var (s, pc) := (states[i].sh, states[i].threads[t]);
      GoesTo(states, i, t, s, FenceRechecking(pc.fence, pc.proof, s.policy))
  {
    assert states[i + 1] == Next(states[i], events[i]);
  }

  /** The recheck reports success exactly when everything still is as the proof began with. */
  lemma RecheckDecides(states: seq<Sys>, events: seq<Event>, t: Tid, i: nat)
    requires Moves(states, events, i, t) && states[i].threads[t].FenceRechecking?
    ensures t in states[i + 1].threads
    ensures var s, s', pc, x := states[i].sh, states[i + 1].sh, states[i].threads[t], events[i].x;
      var f := pc.fence;
      if !NoneInForce(s, x.now) && s.lease.value.token == f.token && pc.current == f.policy
         && s.generation == f.generation && Window(pc.current)
      then
        if f.renewal
        then s' == s.(lease := Some(s.lease.value.(expiresAt := x.later + 90))) && states[i + 1].threads[t] == Finishing(Renewed(f.token))
        else s' == s.(lease := Some(s.lease.value.(validated := true))) && states[i + 1].threads[t] == Finishing(LeaseHeld(f.token, false))
      else
        && states[i + 1].threads[t] == (if f.renewal then Finishing(FenceRefused(f.token)) else FenceClearing(f.token))
        && s' == if NoneInForce(s, x.now) || (f.renewal && s.lease.value.token == f.token) then s.(lease := None) else s
  {
    assert states[i + 1] == Next(states[i], events[i]);
  }
}
