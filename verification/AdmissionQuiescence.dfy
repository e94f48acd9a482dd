/** What a public quiescence read that reports quiescent says about the interval it covers, and what it does not. */
module AdmissionQuiescence {
  import opened Basics
  import opened SafetyActivity
  import opened AdmissionProtocol
  import opened AdmissionInvariant
  import opened AdmissionSteps
  import opened AdmissionTheorems

  // --- Handlers behind the work-admission barrier ---

  /** The policy seen by the second sample, once it has been read. */
  ghost function SecondPolicy(pc: Pc): Option<Option<Policy>> {
    match pc
    case Sampling(_, Some(_), SamplePolicy(_, _, _, p)) => Some(p)
    case Sampling(_, Some(_), SampleUnlocked(_, _, _, p, _)) => Some(p)
    case Sampled(_, p) => Some(p.after.policy)
    case _ => None
  }

  lemma SecondPolicyRead(s: Sys, e: Event, t: Tid, p: Option<Policy>)
    requires Enabled(s, e) && t in Next(s, e).threads && SecondPolicy(Next(s, e).threads[t]) == Some(p)
    requires t !in s.threads || SecondPolicy(s.threads[t]) != Some(p)
    ensures Next(s, e).sh.policy == p && HoldsAdmission(Next(s, e).threads[t])
  {
  }

  /**
   A public read that reports quiescent: from its first count until its second sample read the policy,
   no handler behind the work-admission barrier was running or about to, at any instant, and the one
   closed policy object it saw first was in force throughout.
   */
  lemma QuiescentMeansNoGuardedWork(states: seq<Sys>, events: seq<Event>, t: Tid, j: nat, p: Proof)
    returns (i: nat, m: nat)
    requires Run(states, events) && j < |states| && t in states[j].threads
    requires states[j].threads[t] == Sampled(PublicRead, p) && Quiescent(p, 0)
    ensures i <= m <= j && Bracket(states, t, i, j) && states[m].sh.policy == p.after.policy
    ensures HoldsAdmission(states[m].threads[t])
    ensures forall k | i <= k <= m :: NoGuardedWork(states[k].threads)
    ensures forall k | i <= k <= m && FirstPolicy(states[k].threads[t]).Some? :: states[k].sh.policy == p.before.policy
  {
    RunLinked(states, events);
    ReachedThread(states, events, j, t);
    i := BracketStart(states, t, j);
    m := Since(states, t, j, SecondPolicy, p.after.policy);
    assert states[m] == Next(states[m - 1], events[m - 1]);
    SecondPolicyRead(states[m - 1], events[m - 1], t, p.after.policy);
    assert m >= i by {
      assert SecondPolicy(states[i].threads[t]) == None;
    }
    forall k | i <= k <= m
      ensures NoGuardedWork(states[k].threads)
      ensures FirstPolicy(states[k].threads[t]).Some? ==> states[k].sh.policy == p.before.policy
    {
      assert PartOf(states[k].threads[t], states[j].threads[t]);
      ReachedThread(states, events, k, t);
      if FirstPolicy(states[k].threads[t]).Some? {
        PolicyThroughout(states, k, m, p.before.policy.value);
      }
    }
  }

  // --- All counted handlers, at the two counts ---

  /** The second sample's admission count, once it has been taken. */
  ghost function SecondCount(pc: Pc): Option<int> {
    match pc
    case Sampling(_, Some(_), SampleStart) => None
    case Sampling(_, Some(_), stage) => Some(stage.active)
    case Sampled(_, p) => Some(p.after.activeAdmissions)
    case _ => None
  }

  /** At the second count, with the lock taken for it still held. */
  ghost predicate SecondCounted(pc: Pc) {
    pc.Sampling? && pc.earlier.Some? && pc.stage.SampleCounted?
  }

  lemma SecondCountTaken(sh: Shared, pc: Pc, x: Input, pc': Pc)
    requires Step(sh, pc, x).1 == Some(pc') && SecondCount(pc').Some? && SecondCount(pc') != SecondCount(pc)
    ensures SecondCounted(pc') && SecondCount(pc').value == sh.active && Step(sh, pc, x).0.active == sh.active
  {
  }

  lemma SecondCountRead(s: Sys, e: Event, t: Tid, n: int)
    requires Enabled(s, e) && t in Next(s, e).threads && SecondCount(Next(s, e).threads[t]) == Some(n)
    requires t !in s.threads || SecondCount(s.threads[t]) != Some(n)
    ensures SecondCounted(Next(s, e).threads[t]) && Next(s, e).sh.active == n
  {
    if e.Advance? && e.t == t {
      SecondCountTaken(s.sh, s.threads[t], e.x, Next(s, e).threads[t]);
    }
  }

  /** With the lock held by a thread that is counting, a zero counter means that nobody works at all. */
  lemma CountedNobody(states: seq<Sys>, events: seq<Event>, k: nat, t: Tid)
    requires Run(states, events) && k < |states| && t in states[k].threads && states[k].sh.active == 0
    requires FirstCounted(states[k].threads[t]) || SecondCounted(states[k].threads[t])
    ensures NoWork(states[k].threads)
  {
    Reachable(states, events, k);
    var s := states[k];
    assert HoldsAdmission(s.threads[t]);
    CountZero(s, t);
  }

  /**
   A public read that reports quiescent covers every counted handler at the instants of its two counts:
   at `i` and again at `m` no handler of either kind was running, nor past the admission check.
   */
  lemma QuiescentMeansNobodyAtTheCounts(states: seq<Sys>, events: seq<Event>, t: Tid, j: nat, p: Proof)
    returns (i: nat, m: nat)
    requires Run(states, events) && j < |states| && t in states[j].threads
    requires states[j].threads[t] == Sampled(PublicRead, p) && Quiescent(p, 0)
    ensures i < m <= j && Bracket(states, t, i, j) && SecondCounted(states[m].threads[t])
    ensures forall k | m <= k <= j :: t in states[k].threads && SecondCount(states[k].threads[t]) == Some(0)
    ensures NoWork(states[i].threads) && states[i].sh.active == 0
    ensures NoWork(states[m].threads) && states[m].sh.active == 0
  {
    RunLinked(states, events);
    i := BracketStart(states, t, j);
    ReachedThread(states, events, i, t);
    IdleCounter(states, events, i);
    m := Since(states, t, j, SecondCount, 0);
    assert states[m] == Next(states[m - 1], events[m - 1]);
    SecondCountRead(states[m - 1], events[m - 1], t, 0);
    assert m > i by {
      assert SecondCount(states[i].threads[t]) == None;
    }
    CountedNobody(states, events, m, t);
  }

  // --- Operational mutations between the counts ---

  /**
   Between its counts the read covers guarded handlers only. Whenever no lease stands and the admission
   lock is free, an operational mutation can arrive, run and leave, and the system is then in exactly
   the state it was in.
   */
  lemma OperateLeavesNoTrace(s: Sys, u: Tid, x: Input) returns (arrived: Sys, inside: Sys)
    requires u !in s.threads && s.admissionMu == None && s.canaryMu != Some(u) && s.sh.lease == None
    ensures Enabled(s, Start(u, Operate)) && arrived == Next(s, Start(u, Operate))
    ensures Enabled(arrived, Advance(u, x)) && inside == Next(arrived, Advance(u, x))
    ensures inside == Inside(s, u)
    ensures Enabled(inside, Advance(u, x)) && Next(inside, Advance(u, x)) == s
  {
    arrived := Next(s, Start(u, Operate));
    inside := Next(arrived, Advance(u, x));
    var left := Next(inside, Advance(u, x));
    assert left.threads == s.threads;
  }

  /** The state `s` with an operational mutation of thread `u` running in it. */
  ghost function Inside(s: Sys, u: Tid): Sys {
    s.(sh := s.sh.(active := s.sh.active + 1), threads := s.threads[u := Handling(false)])
  }

  /**
   So no read can tell. At any point `k` of any run where no lease stands and the admission lock is free,
   a whole operational mutation fits in: the longer sequence is again a run, with the same states before
   and after, and so with the same samples and the same verdicts.
   */
  lemma OperateFitsIn(states: seq<Sys>, events: seq<Event>, k: nat, u: Tid, x: Input)
    returns (states': seq<Sys>, events': seq<Event>)
    requires Run(states, events) && k < |states|
    requires u !in states[k].threads && states[k].admissionMu == None && states[k].sh.lease == None
    ensures Run(states', events')
    ensures events' == events[..k] + [Start(u, Operate), Advance(u, x), Advance(u, x)] + events[k..]
    ensures states' == states[..k + 1] + [Next(states[k], Start(u, Operate)), Inside(states[k], u)] + states[k..]
  {
    Reachable(states, events, k);
    var arrived, inside := OperateLeavesNoTrace(states[k], u, x);
    states' := states[..k + 1] + [arrived, inside] + states[k..];
    events' := events[..k] + [Start(u, Operate), Advance(u, x), Advance(u, x)] + events[k..];
    forall n | 0 <= n < |events'|
      ensures Enabled(states'[n], events'[n]) && states'[n + 1] == Next(states'[n], events'[n])
    {
      if n < k {
        assert Enabled(states[n], events[n]) && states[n + 1] == Next(states[n], events[n]);
      } else if n >= k + 3 {
        assert Enabled(states[n - 3], events[n - 3]) && states[n - 2] == Next(states[n - 3], events[n - 3]);
      }
    }
  }
}
