/** What the admission protocol promises over whole runs, for every interleaving. */
module AdmissionTheorems {
  import opened Basics
  import opened SafetyActivity
  import opened AdmissionProtocol
  import opened AdmissionInvariant
  import opened AdmissionSteps

  lemma {:induction false} Reachable(states: seq<Sys>, events: seq<Event>, i: nat)
    requires Run(states, events) && i < |states|
    ensures Inv(states[i])
  {
    if i == 0 {
      InitInv(states[0]);
    } else {
      Reachable(states, events, i - 1);
      StepKeepsInv(states[i - 1], events[i - 1]);
    }
  }

  /** A run can go on with any event that is enabled. */
  lemma GoOn(states: seq<Sys>, events: seq<Event>, e: Event) returns (states': seq<Sys>, events': seq<Event>)
    requires Run(states, events) && Enabled(states[|states| - 1], e)
    ensures Run(states', events') && states' == states + [Next(states[|states| - 1], e)]
  {
    states', events' := states + [Next(states[|states| - 1], e)], events + [e];
  }

  // --- State invariants a caller can rely on ---

  /**
   The fence: while a validated lease stands, no tracked handler is running and no canary is being
   started. No clock assumption is needed.
   */
  lemma ValidatedLeaseIsExclusive(states: seq<Sys>, events: seq<Event>, i: nat)
    requires Run(states, events) && i < |states|
    requires states[i].sh.lease.Some? && states[i].sh.lease.value.validated
    ensures states[i].sh.active == 0 && states[i].sh.canary == 0
    ensures forall t <- states[i].threads :: !states[i].threads[t].Handling? && !Counted(states[i].threads[t])
  {
    Reachable(states, events, i);
    var s := states[i];
    forall t | t in s.threads
      ensures !s.threads[t].Handling? && !Counted(s.threads[t])
    {
      assert ThreadInv(s.sh, NoWork(s.threads), NoGuardedWork(s.threads), s.threads[t]);
      assert !Working(s.threads[t]);
    }
    assert Busy(s.threads) == {};
  }

  /** With the canary lock free the lease is nil or validated; the counters count exactly the handlers inside. */
  lemma LockFreeMeansSettled(states: seq<Sys>, events: seq<Event>, i: nat)
    requires Run(states, events) && i < |states|
    ensures states[i].canaryMu == None ==> states[i].sh.lease == None || states[i].sh.lease.value.validated
    ensures states[i].sh.active == |Busy(states[i].threads)| && 0 <= states[i].sh.canary <= 1
    ensures states[i].canaryMu == None ==> states[i].sh.canary == 0
  {
    Reachable(states, events, i);
  }

  /**
   A lease request that finds an active lease always finds a validated one: a matching request gets
   the same token back and nothing changes, any other is refused and nothing changes.
   */
  lemma MatchingRequestReplays(states: seq<Sys>, events: seq<Event>, i: nat, t: Tid, now: int)
    requires Run(states, events) && i < |states| && t in states[i].threads && states[i].threads[t].LeaseEntered?
    requires states[i].sh.lease.Some? && now < states[i].sh.lease.value.expiresAt
    ensures var (sh', pc') := LeaseEnter(states[i].sh, states[i].threads[t].target, now);
      && sh' == states[i].sh
      && pc' == Finishing(if states[i].sh.lease.value.target == states[i].threads[t].target
                          then LeaseHeld(states[i].sh.lease.value.token, true) else Refused)
  {
    Reachable(states, events, i);
    assert HoldsCanary(states[i].threads[t]);
  }

  /** A canary refused because the policy changed during creation has left its run in state error. */
  lemma TerminalizedRunIsError(states: seq<Sys>, events: seq<Event>, i: nat, t: Tid, id: string)
    requires Run(states, events) && i < |states| && t in states[i].threads
    requires states[i].threads[t] == Finishing(CanaryTerminalized(id))
    ensures id in states[i].sh.runs && states[i].sh.runs[id] == Error
  {
    Reachable(states, events, i);
    var s := states[i];
    assert ThreadInv(s.sh, NoWork(s.threads), NoGuardedWork(s.threads), s.threads[t]);
  }

  /**
   The fence at work: in any run, the count of handlers or of canaries rises only in a step after which
   no lease stands; a lease that stood before it had expired by that step's clock.
   */
  lemma CountsRiseOnlyWithoutLease(states: seq<Sys>, events: seq<Event>, i: nat)
    requires Run(states, events) && i < |events|
    requires states[i + 1].sh.active > states[i].sh.active || states[i + 1].sh.canary > states[i].sh.canary
    ensures states[i + 1].sh.lease == None
    ensures states[i].sh.lease.Some? ==> events[i].Advance? && events[i].x.now >= states[i].sh.lease.value.expiresAt
  {
    Reachable(states, events, i);
    var s, e := states[i], events[i];
    assert states[i + 1] == Next(s, e);
    assert e.Advance?;
    ReachedThread(states, events, i, e.t);
    CountsRise(s.sh, s.threads[e.t], e.x);
  }

  lemma CountsRise(sh: Shared, pc: Pc, x: Input)
    requires NoLeaseWhenNeeded(sh, pc)
    requires var sh' := Step(sh, pc, x).0; sh'.active > sh.active || sh'.canary > sh.canary
    ensures Step(sh, pc, x).0.lease == None
    ensures sh.lease.Some? ==> x.now >= sh.lease.value.expiresAt
  {
  }

  /**
   An unexpired lease is lost only through its own token: by its release, by its own failed proof or
   renewal, or by a renewal that finds the policy no longer allows it. No other request can drop it.
   */
  lemma LeaseLostOnlyByItsToken(states: seq<Sys>, events: seq<Event>, i: nat)
    requires Run(states, events) && i < |events| && states[i].sh.lease.Some?
    requires !HasToken(states[i + 1].sh, states[i].sh.lease.value.token)
    ensures events[i].Advance? && events[i].t in states[i].threads
    ensures var pc := states[i].threads[events[i].t]; var token := states[i].sh.lease.value.token;
      || events[i].x.now >= states[i].sh.lease.value.expiresAt
      || pc == FenceClearing(token) || pc == Arrived(ReleaseLease(token))
      || (pc.RenewPolicyRead? && pc.token == token && !CanaryWindow(pc.policy))
      || (pc.FenceRechecking? && pc.fence.token == token && pc.fence.renewal)
  {
    Reachable(states, events, i);
    var s, e := states[i], events[i];
    assert states[i + 1] == Next(s, e);
    assert e.Advance?;
    LeaseLost(s.sh, s.threads[e.t], e.x);
  }

  lemma LeaseLost(sh: Shared, pc: Pc, x: Input)
    requires sh.lease.Some? && !HasToken(Step(sh, pc, x).0, sh.lease.value.token) && NoLeaseWhenNeeded(sh, pc)
    ensures var token := sh.lease.value.token;
      || x.now >= sh.lease.value.expiresAt
      || pc == FenceClearing(token) || pc == Arrived(ReleaseLease(token))
      || (pc.RenewPolicyRead? && pc.token == token && !CanaryWindow(pc.policy))
      || (pc.FenceRechecking? && pc.fence.token == token && pc.fence.renewal)
  {
  }

  // --- What one event can do to identities and to a read in progress ---

  /** What a thread remembers of its first sample, its job and its fence never changes within the read. */
  ghost predicate SameRead(pc: Pc, pc': Pc) {
    && FirstCount(pc') == FirstCount(pc) && FenceOf(pc') == FenceOf(pc)
    && (FirstPolicy(pc).Some? ==> FirstPolicy(pc') == FirstPolicy(pc))
  }

  ghost predicate ReadLink(s: Sys, s': Sys, t: Tid) {
    t in s'.threads && FirstCount(s'.threads[t]).Some? ==>
      if t in s.threads && FirstCount(s.threads[t]).Some? then SameRead(s.threads[t], s'.threads[t])
      else FirstCounted(s'.threads[t])
  }

  /** Tokens and policy objects are never reissued, and reads remember. */
  ghost predicate Link(s: Sys, s': Sys) {
    && s.sh.nextToken <= s'.sh.nextToken && s.sh.nextPolicy <= s'.sh.nextPolicy
    && (s'.sh.lease.Some? && s'.sh.lease.value.token < s.sh.nextToken ==> HasToken(s.sh, s'.sh.lease.value.token))
    && (s'.sh.policy.Some? && s'.sh.policy.value.id < s.sh.nextPolicy ==> s.sh.policy == s'.sh.policy)
    && (forall t :: ReadLink(s, s', t))
  }

  ghost predicate Linked(states: seq<Sys>) {
    forall i | 0 < i < |states| :: Link(states[i - 1], states[i])
  }

  lemma ReadGoesOn(sh: Shared, pc: Pc, x: Input, pc': Pc)
    requires Step(sh, pc, x).1 == Some(pc') && FirstCount(pc').Some?
    ensures if FirstCount(pc).Some? then SameRead(pc, pc') else FirstCounted(pc')
  {
  }

  lemma EventReadLink(s: Sys, e: Event, t: Tid)
    requires Enabled(s, e)
    ensures ReadLink(s, Next(s, e), t)
  {
    var s' := Next(s, e);
    if e.Advance? && e.t == t && t in s'.threads && FirstCount(s'.threads[t]).Some? {
      ReadGoesOn(s.sh, s.threads[t], e.x, s'.threads[t]);
    }
  }

  lemma EventLink(s: Sys, e: Event)
    requires Inv(s) && Enabled(s, e)
    ensures Link(s, Next(s, e))
  {
    if e.Advance? {
      LeaseMoves(s.sh, s.threads[e.t], e.x);
      PolicyStays(s.sh, s.threads[e.t], e.x);
    }
    forall t
      ensures ReadLink(s, Next(s, e), t)
    {
      EventReadLink(s, e, t);
    }
  }

  lemma RunLinked(states: seq<Sys>, events: seq<Event>)
    requires Run(states, events)
    ensures Linked(states)
  {
    forall i | 0 < i < |states|
      ensures Link(states[i - 1], states[i])
    {
      Reachable(states, events, i - 1);
      EventLink(states[i - 1], events[i - 1]);
    }
  }

  lemma {:induction false} IssuedGrow(states: seq<Sys>, i: nat, j: nat)
    requires Linked(states) && i <= j < |states|
    ensures states[i].sh.nextToken <= states[j].sh.nextToken && states[i].sh.nextPolicy <= states[j].sh.nextPolicy
    decreases j
  {
    if i < j {
      IssuedGrow(states, i, j - 1);
    }
  }

  /** A token issued before and standing now has stood all the time in between. */
  lemma {:induction false} TokenThroughout(states: seq<Sys>, i: nat, j: nat, token: nat)
    requires Linked(states) && i <= j < |states|
    requires token < states[i].sh.nextToken && HasToken(states[j].sh, token)
    ensures forall k | i <= k <= j :: HasToken(states[k].sh, token)
    decreases j
  {
    if i < j {
      IssuedGrow(states, i, j - 1);
      TokenThroughout(states, i, j - 1, token);
    }
  }

  /** A policy object seen before and current now was current all the time in between. */
  lemma {:induction false} PolicyThroughout(states: seq<Sys>, i: nat, j: nat, p: Policy)
    requires Linked(states) && i <= j < |states|
    requires p.id < states[i].sh.nextPolicy && states[j].sh.policy == Some(p)
    ensures forall k | i <= k <= j :: states[k].sh.policy == Some(p)
    decreases j
  {
    if i < j {
      IssuedGrow(states, i, j - 1);
      PolicyThroughout(states, i, j - 1, p);
    }
  }

  /** A renewal or lease proof that was refused has lost its token for good. */
  lemma RefusedTokenIsGone(states: seq<Sys>, events: seq<Event>, i: nat, j: nat, t: Tid, token: nat)
    requires Run(states, events) && i <= j < |states| && t in states[i].threads
    requires states[i].threads[t] == Finishing(FenceRefused(token))
    ensures !HasToken(states[j].sh, token)
  {
    Reachable(states, events, i);
    RunLinked(states, events);
    var s := states[i];
    assert ThreadInv(s.sh, NoWork(s.threads), NoGuardedWork(s.threads), s.threads[t]);
    if HasToken(states[j].sh, token) {
      TokenThroughout(states, i, j, token);
    }
  }

  // --- The bracket of a quiescence read ---

  /** `pc` belongs to the same read as the later point `end`. */
  ghost predicate PartOf(pc: Pc, end: Pc) {
    && FirstCount(pc).Some? && FirstCount(pc) == FirstCount(end) && FenceOf(pc) == FenceOf(end)
    && (FirstPolicy(pc).Some? ==> FirstPolicy(pc) == FirstPolicy(end))
    && (FirstPolicy(pc).None? ==> FirstCounted(pc))
  }

  /** Thread `t` has taken its first count at `i` and is in the same bracketed read through `j`. */
  ghost predicate Bracket(states: seq<Sys>, t: Tid, i: nat, j: nat)
    requires i <= j < |states|
  {
    && t in states[i].threads && FirstCounted(states[i].threads[t]) && t in states[j].threads
    && forall k | i <= k <= j :: t in states[k].threads && PartOf(states[k].threads[t], states[j].threads[t])
  }

  /** Every bracketed read began with a count taken under the admission lock. */
  lemma {:induction false} BracketStart(states: seq<Sys>, t: Tid, j: nat) returns (i: nat)
    requires Linked(states) && j < |states| && states[0].threads == map[]
    requires t in states[j].threads && FirstCount(states[j].threads[t]).Some?
    ensures i <= j && Bracket(states, t, i, j)
    decreases j
  {
    assert j > 0 && ReadLink(states[j - 1], states[j], t);
    if t in states[j - 1].threads && FirstCount(states[j - 1].threads[t]).Some? {
      i := BracketStart(states, t, j - 1);
    } else {
      i := j;
    }
  }

  /**
   The lease proof, for every interleaving: when a proved lease is about to be validated and still
   stands, its read began with a count taken under the lock at some earlier instant, and from that
   instant on nobody was inside a tracked handler or about to enter one; both samples agree, the target run
   is the only workflow activity either of them saw, and the durable store held one workflow run and no
   other work.
   */
  lemma LeaseProofWasQuiet(states: seq<Sys>, events: seq<Event>, t: Tid, j: nat) returns (i: nat)
    requires Run(states, events) && j < |states| && t in states[j].threads
    requires states[j].threads[t].FenceRechecking? && HasToken(states[j].sh, states[j].threads[t].fence.token)
    ensures i <= j && Bracket(states, t, i, j) && TargetProof(states[j].threads[t].fence, states[j].threads[t].proof)
    ensures forall k | i <= k <= j :: NoWork(states[k].threads) && states[k].sh.active == 0
    ensures forall k | i <= k <= j :: HasToken(states[k].sh, states[j].threads[t].fence.token)
    ensures OnlyWorkflows(states[j].threads[t].proof.counts, 1)
  {
    RunLinked(states, events);
    i := BracketStart(states, t, j);
    var f := states[j].threads[t].fence;
    ReachedThread(states, events, j, t);
    ReachedThread(states, events, i, t);
    TokenThroughout(states, i, j, f.token);
    forall k | i <= k <= j
      ensures NoWork(states[k].threads) && states[k].sh.active == 0
    {
      ReachedThread(states, events, k, t);
      IdleCounter(states, events, k);
    }
  }

  /** A lease turns validated only in the recheck of its own, fresh proof; so the quiet interval is behind it. */
  lemma ValidatedOnlyAfterQuiet(states: seq<Sys>, events: seq<Event>, n: nat) returns (t: Tid, i: nat)
    requires Run(states, events) && n + 1 < |states|
    requires states[n + 1].sh.lease.Some? && states[n + 1].sh.lease.value.validated
    requires states[n].sh.lease.None? || !states[n].sh.lease.value.validated
    ensures i <= n && t in states[n].threads && states[n].threads[t].FenceRechecking?
    ensures states[n].sh.lease.Some? && states[n].threads[t].fence.token == states[n].sh.lease.value.token
    ensures Bracket(states, t, i, n) && TargetProof(states[n].threads[t].fence, states[n].threads[t].proof)
    ensures forall k | i <= k <= n :: NoWork(states[k].threads) && states[k].sh.active == 0
    ensures OnlyWorkflows(states[n].threads[t].proof.counts, 1)
  {
    Reachable(states, events, n);
    var e := events[n];
    assert states[n + 1] == Next(states[n], e);
    t := e.t;
    LeaseMoves(states[n].sh, states[n].threads[t], e.x);
    FenceValidates(states[n].sh, states[n].threads[t], e.x);
    i := LeaseProofWasQuiet(states, events, t, n);
  }

  lemma ReachedThread(states: seq<Sys>, events: seq<Event>, k: nat, t: Tid)
    requires Run(states, events) && k < |states| && t in states[k].threads
    ensures ThreadInv(states[k].sh, NoWork(states[k].threads), NoGuardedWork(states[k].threads), states[k].threads[t])
  {
    Reachable(states, events, k);
  }

  lemma IdleCounter(states: seq<Sys>, events: seq<Event>, k: nat)
    requires Run(states, events) && k < |states| && NoWork(states[k].threads)
    ensures states[k].sh.active == 0
  {
    Reachable(states, events, k);
    forall t <- states[k].threads
      ensures !states[k].threads[t].Handling?
    {
      assert !Working(states[k].threads[t]);
    }
    assert Busy(states[k].threads) == {};
  }

  // --- How a lease proof ends ---

  /** The points of a lease proof or renewal for one token, and the ways it can end. */
  ghost predicate Pursues(pc: Pc, token: nat) {
    || (pc.RenewPolicyRead? && pc.token == token)
    || (FenceOf(pc).Some? && FenceOf(pc).value.token == token)
    || pc == FenceClearing(token)
    || EndsHolding(pc, token) || pc == Finishing(FenceRefused(token))
  }

  ghost predicate EndsHolding(pc: Pc, token: nat) {
    pc == Finishing(Renewed(token)) || pc == Finishing(LeaseHeld(token, false))
  }

  lemma PursuitGoesOn(sh: Shared, pc: Pc, x: Input, pc': Pc, token: nat)
    requires Pursues(pc, token) && Step(sh, pc, x).1 == Some(pc')
    ensures Pursues(pc', token) && !pc.Finishing?
  {
  }

  /** The recheck is the only way to end holding the lease. */
  lemma HeldByRecheck(sh: Shared, pc: Pc, x: Input, pc': Pc, token: nat)
    requires Pursues(pc, token) && Step(sh, pc, x).1 == Some(pc') && EndsHolding(pc', token)
    ensures pc.FenceRechecking? && pc.fence.token == token && (pc.fence.renewal <==> pc' == Finishing(Renewed(token)))
  {
  }

  /** A successful recheck keeps the token and the target, under the policy object and generation the proof began with. */
  lemma RecheckHolds(sh: Shared, f: Fence, current: Option<Policy>, now: int, later: int)
    requires EndsHolding(FenceRecheck(sh, f, current, now, later).1, f.token)
    ensures var sh' := FenceRecheck(sh, f, current, now, later).0;
      && HasToken(sh', f.token) && HasToken(sh, f.token) && sh'.lease.value.target == sh.lease.value.target
      && CanaryWindow(f.policy) && current == f.policy && sh.generation == f.generation
      && (f.renewal ==> sh'.lease.value.expiresAt == later + LEASE_TTL && sh'.lease.value.validated == sh.lease.value.validated)
      && (!f.renewal ==> sh'.lease.value.validated)
  {
  }

  /** `t` is in one and the same request from `i` to `j`. */
  ghost predicate Present(states: seq<Sys>, t: Tid, i: nat, j: nat)
    requires i <= j < |states|
  {
    forall k | i <= k <= j :: t in states[k].threads
  }

  /** The instant at which a request that has ended by `j` reached its outcome. */
  lemma {:induction false} PursuitEnd(states: seq<Sys>, events: seq<Event>, t: Tid, i: nat, j: nat, token: nat) returns (n: nat)
    requires Run(states, events) && i < j < |states| && Present(states, t, i, j)
    requires Pursues(states[i].threads[t], token) && !states[i].threads[t].Finishing? && states[j].threads[t].Finishing?
    ensures i <= n < j && Pursues(states[n].threads[t], token) && !states[n].threads[t].Finishing?
    ensures events[n].Advance? && events[n].t == t
    ensures forall k | n < k <= j :: states[k].threads[t] == states[j].threads[t]
    ensures Pursues(states[j].threads[t], token)
    decreases j - i
  {
    assert states[i + 1] == Next(states[i], events[i]);
    var own := events[i].Advance? && events[i].t == t;
    if own {
      PursuitGoesOn(states[i].sh, states[i].threads[t], events[i].x, states[i + 1].threads[t], token);
    }
    if own && states[i + 1].threads[t].Finishing? {
      n := i;
      FinishedStays(states, events, t, i + 1, j);
    } else {
      assert i + 1 < j;
      n := PursuitEnd(states, events, t, i + 1, j, token);
    }
  }

  lemma {:induction false} FinishedStays(states: seq<Sys>, events: seq<Event>, t: Tid, i: nat, j: nat)
    requires Run(states, events) && i <= j < |states| && Present(states, t, i, j) && states[i].threads[t].Finishing?
    ensures forall k | i <= k <= j :: states[k].threads[t] == states[j].threads[t]
    decreases j - i
  {
    if i < j {
      assert states[i + 1] == Next(states[i], events[i]);
      FinishedStays(states, events, t, i + 1, j);
    }
  }

  /**
   How every begun lease proof or renewal ends. A request that is pursuing `token` at `i` and has ended
   by `j` reached its outcome in the step out of some `n`. Either it reports the token as renewed or
   held, and then that step found and left the validated lease of that token and that target, under the
   policy object and generation the proof began with; or it reports the refusal of that token, and then
   no later state of the run has it.
   */
  lemma ProofEndsHeldOrGone(states: seq<Sys>, events: seq<Event>, t: Tid, i: nat, j: nat, token: nat) returns (n: nat)
    requires Run(states, events) && i < j < |states| && Present(states, t, i, j)
    requires Pursues(states[i].threads[t], token) && !states[i].threads[t].Finishing? && states[j].threads[t].Finishing?
    ensures i <= n < j && states[n + 1].threads[t] == states[j].threads[t]
    ensures
      if states[j].threads[t] == Finishing(FenceRefused(token)) then forall m | n < m < |states| :: !HasToken(states[m].sh, token)
      else EndsHolding(states[j].threads[t], token) && HeldAt(states[n], events[n], states[n + 1], t, token)
  {
    n := PursuitEnd(states, events, t, i, j, token);
    assert states[n + 1] == Next(states[n], events[n]);
    if states[j].threads[t] == Finishing(FenceRefused(token)) {
      forall m | n < m < |states|
        ensures !HasToken(states[m].sh, token)
      {
        RefusedTokenIsGone(states, events, n + 1, m, t, token);
      }
    } else {
      var s, pc, x := states[n], states[n].threads[t], events[n].x;
      HeldByRecheck(s.sh, pc, x, states[n + 1].threads[t], token);
      RecheckHolds(s.sh, pc.fence, pc.current, x.now, x.later);
      Reachable(states, events, n);
      assert HoldsCanary(pc);
    }
  }

  /** The step that ends a proof successfully. */
  ghost predicate HeldAt(s: Sys, e: Event, s': Sys, t: Tid, token: nat) {
    && e.Advance? && t in s.threads && s.threads[t].FenceRechecking? && t in s'.threads
    && HasToken(s.sh, token) && HasToken(s'.sh, token) && s'.sh.lease.value.validated
    && s'.sh.lease.value.target == s.sh.lease.value.target
    && var pc := s.threads[t];
      && CanaryWindow(pc.fence.policy) && pc.current == pc.fence.policy && s.sh.generation == pc.fence.generation
      && (s'.threads[t] == Finishing(Renewed(token)) ==> s'.sh.lease.value.expiresAt == e.x.later + LEASE_TTL)
  }

  // --- Requests that meet an unexpired lease ---

  /** On the way out without having been counted. */
  ghost predicate TurnedAway(pc: Pc) {
    pc == AdmitChecked(false) || pc == Finishing(Refused)
  }

  lemma FencedOff(sh: Shared, pc: Pc, x: Input)
    requires sh.lease.Some? && x.now < sh.lease.value.expiresAt
    requires pc == Arrived(Admit) || pc == Arrived(Operate) || pc.CanaryEntered?
    ensures var (sh', pc') := Step(sh, pc, x); sh' == sh && (pc'.Some? ==> TurnedAway(pc'.value))
  {
  }

  lemma TurnedAwayStays(s: Sys, e: Event, t: Tid)
    requires Enabled(s, e) && t in s.threads && TurnedAway(s.threads[t])
    ensures t in Next(s, e).threads ==> TurnedAway(Next(s, e).threads[t])
  {
  }

  /**
   A handler of either kind or a canary start that meets an unexpired lease is turned away for good,
   whatever the policy: it changes nothing, and is never counted for as long as the request lasts.
   */
  lemma {:induction false} LeaseTurnsAway(states: seq<Sys>, events: seq<Event>, t: Tid, i: nat, j: nat)
    requires Run(states, events) && i < j < |states| && Present(states, t, i, j - 1)
    requires events[i].Advance? && events[i].t == t
    requires states[i].sh.lease.Some? && events[i].x.now < states[i].sh.lease.value.expiresAt
    requires var pc := states[i].threads[t]; pc == Arrived(Admit) || pc == Arrived(Operate) || pc.CanaryEntered?
    ensures states[i + 1].sh == states[i].sh && (t in states[j].threads ==> TurnedAway(states[j].threads[t]))
    decreases j
  {
    if j == i + 1 {
      assert states[i + 1] == Next(states[i], events[i]);
      FencedOff(states[i].sh, states[i].threads[t], events[i].x);
    } else {
      LeaseTurnsAway(states, events, t, i, j - 1);
      TurnedAwayStays(states[j - 1], events[j - 1], t);
    }
  }

  /** The earliest instant from which thread `t` has shown the value `v` without a gap until `j`. */
  lemma {:induction false} Since<T>(states: seq<Sys>, t: Tid, j: nat, f: Pc -> Option<T>, v: T) returns (i: nat)
    requires j < |states| && t in states[j].threads && f(states[j].threads[t]) == Some(v)
    ensures i <= j && forall k | i <= k <= j :: t in states[k].threads && f(states[k].threads[t]) == Some(v)
    ensures i == 0 || t !in states[i - 1].threads || f(states[i - 1].threads[t]) != Some(v)
    decreases j
  {
    if j == 0 || t !in states[j - 1].threads || f(states[j - 1].threads[t]) != Some(v) {
      i := j;
    } else {
      i := Since(states, t, j - 1, f, v);
    }
  }

  // --- The canary start ---

  /** The policy a canary start was begun under, while it is still going to start. */
  ghost function StartPolicy(pc: Pc): Option<(string, Option<Policy>)> {
    match pc
    case CanaryPolicyRead(id, p) => Some((id, p))
    case Sampling(CanaryRead(id, p, _), _, _) => Some((id, p))
    case Reading(CanaryRead(id, p, _), _) => Some((id, p))
    case Sampled(CanaryRead(id, p, _), _) => Some((id, p))
    case CanaryProved(id, p, _, _) => Some((id, p))
    case CanaryRechecking(id, p, _, _, _) => Some((id, p))
    case CanaryCreating(id, p, _, _) => Some((id, p))
    case CanaryCreated(id, p, _, _) => Some((id, p))
    case CanaryRereading(id, p, _, _, _) => Some((id, p))
    case CanaryLeaving(CanaryStarted(id, p, _, _)) => Some((id, p))
    case Finishing(CanaryStarted(id, p, _, _)) => Some((id, p))
    case _ => None
  }

  /** The policy found after the run was created. */
  ghost function ConfirmedPolicy(pc: Pc): Option<Option<Policy>> {
    match pc
    case CanaryRereading(_, _, _, _, current) => Some(current)
    case CanaryLeaving(CanaryStarted(_, p, _, _)) => Some(p)
    case Finishing(CanaryStarted(_, p, _, _)) => Some(p)
    case _ => None
  }

  lemma StartPolicyStep(sh: Shared, pc: Pc, x: Input, pc': Pc)
    requires Step(sh, pc, x).1 == Some(pc') && StartPolicy(pc').Some? && StartPolicy(pc') != StartPolicy(pc)
    ensures pc' == CanaryPolicyRead(StartPolicy(pc').value.0, sh.policy)
  {
  }

  lemma StartPolicyRead(s: Sys, e: Event, t: Tid, v: (string, Option<Policy>))
    requires Enabled(s, e) && t in Next(s, e).threads && StartPolicy(Next(s, e).threads[t]) == Some(v)
    requires t !in s.threads || StartPolicy(s.threads[t]) != Some(v)
    ensures Next(s, e).threads[t] == CanaryPolicyRead(v.0, v.1) && Next(s, e).sh.policy == v.1
  {
    if e.Advance? && e.t == t {
      StartPolicyStep(s.sh, s.threads[t], e.x, Next(s, e).threads[t]);
      PolicyStays(s.sh, s.threads[t], e.x);
    }
  }

  lemma ConfirmedStep(sh: Shared, pc: Pc, x: Input, pc': Pc)
    requires Step(sh, pc, x).1 == Some(pc') && ConfirmedPolicy(pc').Some? && ConfirmedPolicy(pc') != ConfirmedPolicy(pc)
    ensures pc'.CanaryRereading? && pc'.current == sh.policy
  {
  }

  lemma ConfirmedRead(s: Sys, e: Event, t: Tid, p: Option<Policy>)
    requires Enabled(s, e) && t in Next(s, e).threads && ConfirmedPolicy(Next(s, e).threads[t]) == Some(p)
    requires t !in s.threads || ConfirmedPolicy(s.threads[t]) != Some(p)
    ensures Next(s, e).threads[t].CanaryRereading? && Next(s, e).sh.policy == p
  {
    if e.Advance? && e.t == t {
      ConfirmedStep(s.sh, s.threads[t], e.x, Next(s, e).threads[t]);
      PolicyStays(s.sh, s.threads[t], e.x);
    }
  }

  /**
   A canary reported as freshly started: from its first policy read at `i` until the recheck after the
   row was created at `m`, one closed policy object with workflows enabled was in force at every
   instant, and the allowance-1 quiescence proof held under it.
   */
  lemma CanaryStartedUnderOnePolicy(states: seq<Sys>, events: seq<Event>, t: Tid, j: nat,
                                    id: string, policy: Option<Policy>, generation: nat, proof: Proof)
    returns (i: nat, m: nat)
    requires Run(states, events) && j < |states| && t in states[j].threads
    requires states[j].threads[t] == Finishing(CanaryStarted(id, policy, generation, proof))
    ensures i <= m <= j && t in states[i].threads && t in states[m].threads
    ensures states[i].threads[t] == CanaryPolicyRead(id, policy) && states[m].threads[t].CanaryRereading?
    ensures CanaryWindow(policy) && CanaryProof(policy, generation, proof) && OnlyWorkflows(proof.counts, 0)
    ensures forall k | i <= k <= m :: states[k].sh.policy == policy
  {
    RunLinked(states, events);
    ReachedThread(states, events, j, t);
    i := Since(states, t, j, StartPolicy, (id, policy));
    assert states[i] == Next(states[i - 1], events[i - 1]);
    Reachable(states, events, i);
    StartPolicyRead(states[i - 1], events[i - 1], t, (id, policy));
    m := Since(states, t, j, ConfirmedPolicy, policy);
    assert states[m] == Next(states[m - 1], events[m - 1]);
    ConfirmedRead(states[m - 1], events[m - 1], t, policy);
    assert i <= m by {
      assert ConfirmedPolicy(states[i].threads[t]) == None;
    }
    PolicyThroughout(states, i, m, policy.value);
  }
}
