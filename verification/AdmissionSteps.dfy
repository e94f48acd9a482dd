/** Every step of the admission protocol keeps its invariant. */
module AdmissionSteps {
  import opened Basics
  import opened SafetyActivity
  import opened AdmissionProtocol
  import opened AdmissionInvariant

  // --- What one step of one thread may do to the shared fields ---

  ghost predicate SameLease(sh: Shared, sh': Shared) {
    sh'.lease.Some? && sh.lease.Some? && sh'.lease.value.token == sh.lease.value.token
  }

  ghost predicate Installs(sh: Shared, pc: Pc, r: (Shared, Option<Pc>)) {
    && pc.LeasePolicyRead? && r.0.nextToken == sh.nextToken + 1 && HasToken(r.0, sh.nextToken)
    && !r.0.lease.value.validated && r.1.Some? && Fencing(r.1.value, sh.nextToken)
  }

  /** A lease is dropped, kept, or freshly installed; only a recheck validates one. */
  lemma LeaseMoves(sh: Shared, pc: Pc, x: Input)
    requires sh.lease.Some? ==> sh.lease.value.token < sh.nextToken
    ensures var r := Step(sh, pc, x);
      && (r.0.lease == None || SameLease(sh, r.0) || Installs(sh, pc, r))
      && (r.0.lease != sh.lease ==> NeedsAdmission(pc))
      && (SameLease(sh, r.0) && !pc.FenceRechecking? ==> r.0.lease.value.validated == sh.lease.value.validated)
      && (SameLease(sh, r.0) && sh.lease.value.validated ==> r.0.lease.value.validated)
      && r.0.nextToken >= sh.nextToken
  {
  }

  lemma PolicyStays(sh: Shared, pc: Pc, x: Input)
    ensures var r := Step(sh, pc, x);
      r.0.policy == sh.policy && r.0.nextPolicy == sh.nextPolicy && r.0.generation == sh.generation
  {
  }

  /** Work begins only with no lease, under the admission lock, and guarded work only under an open policy. */
  lemma WorkBegins(sh: Shared, pc: Pc, x: Input, pc': Pc)
    requires Step(sh, pc, x).1 == Some(pc')
    ensures Working(pc') && !Working(pc) ==> Step(sh, pc, x).0.lease == None && pc.Arrived? && NeedsAdmission(pc)
    ensures GuardedWork(pc') && !GuardedWork(pc) ==> Open(sh.policy) && Working(pc') && !Working(pc)
  {
  }

  // --- The stepping thread keeps its own obligations ---

  ghost predicate Fields(sh: Shared) {
    PolicyKnown(sh, sh.policy) && (sh.lease.Some? ==> sh.lease.value.token < sh.nextToken)
  }

  ghost predicate Own(sh: Shared, noWork: bool, noGuarded: bool, pc: Pc) {
    ThreadInv(sh, noWork, noGuarded, pc) && Fields(sh)
  }

  /** The program points of the canary handler outside its quiescence read. */
  ghost predicate InCanary(pc: Pc) {
    || pc.CanaryLookup? || pc.CanaryEntered? || pc.CanaryCounted? || pc.CanaryPolicyRead? || pc.CanaryProved?
    || pc.CanaryRechecking? || pc.CanaryCreating? || pc.CanaryCreated? || pc.CanaryRereading?
    || pc.CanaryTerminalizing? || pc.CanaryLeaving?
  }

  /** The canary handler's own points carry no read, and the only read they begin has counted nothing yet. */
  lemma CanaryReadsNothing(sh: Shared, pc: Pc, x: Input, pc': Pc)
    requires InCanary(pc) && Step(sh, pc, x).1 == Some(pc')
    ensures FirstCount(pc') == None && !FirstCounted(pc') && FirstPolicy(pc') == None && FenceOf(pc') == None
    ensures !pc'.FenceClearing? && !pc'.RenewPolicyRead?
  {
  }

  /** The canary handler reports nothing about a fence. */
  lemma CanaryRefusesNoFence(sh: Shared, pc: Pc, x: Input, pc': Pc)
    requires InCanary(pc) && Step(sh, pc, x).1 == Some(pc')
    requires pc.CanaryLeaving? ==> !pc.outcome.FenceRefused?
    ensures pc'.CanaryLeaving? || pc'.Finishing? ==> !pc'.outcome.FenceRefused?
  {
  }

  lemma OwnIssuedInCanary(sh: Shared, pc: Pc, x: Input, pc': Pc)
    requires InCanary(pc)
    requires ThreadIssued(sh, pc) && Step(sh, pc, x).1 == Some(pc')
    ensures ThreadIssued(Step(sh, pc, x).0, pc')
  {
    CanaryReadsNothing(sh, pc, x, pc');
    CanaryRefusesNoFence(sh, pc, x, pc');
  }

  lemma OwnIssuedReading(sh: Shared, pc: Pc, x: Input, pc': Pc)
    requires pc.Sampling? || pc.Reading? || pc.Sampled?
    requires ThreadIssued(sh, pc) && Fields(sh) && Step(sh, pc, x).1 == Some(pc')
    ensures ThreadIssued(Step(sh, pc, x).0, pc')
  {
  }

  lemma OwnIssuedElsewhere(sh: Shared, pc: Pc, x: Input, pc': Pc)
    requires !InCanary(pc) && !pc.Sampling? && !pc.Reading? && !pc.Sampled?
    requires ThreadIssued(sh, pc) && Fields(sh) && Step(sh, pc, x).1 == Some(pc')
    ensures ThreadIssued(Step(sh, pc, x).0, pc')
  {
  }

  lemma OwnIssued(sh: Shared, pc: Pc, x: Input, pc': Pc)
    requires ThreadIssued(sh, pc) && Fields(sh) && Step(sh, pc, x).1 == Some(pc')
    ensures ThreadIssued(Step(sh, pc, x).0, pc')
  {
    if InCanary(pc) {
      OwnIssuedInCanary(sh, pc, x, pc');
    } else if pc.Sampling? || pc.Reading? || pc.Sampled? {
      OwnIssuedReading(sh, pc, x, pc');
    } else {
      OwnIssuedElsewhere(sh, pc, x, pc');
    }
  }

  lemma OwnNoLease(sh: Shared, pc: Pc, x: Input, pc': Pc)
    requires NoLeaseWhenNeeded(sh, pc) && Step(sh, pc, x).1 == Some(pc')
    ensures NoLeaseWhenNeeded(Step(sh, pc, x).0, pc')
  {
  }

  lemma OwnFenceElsewhere(sh: Shared, noWork: bool, pc: Pc, x: Input, pc': Pc)
    requires !InCanary(pc)
    requires FenceQuiet(sh, noWork, pc) && ThreadIssued(sh, pc) && Fields(sh) && Step(sh, pc, x).1 == Some(pc')
    requires FirstCounted(pc') && pc'.stage.active == 0 ==> noWork
    ensures FenceQuiet(Step(sh, pc, x).0, noWork, pc')
  {
  }

  lemma OwnFence(sh: Shared, noWork: bool, pc: Pc, x: Input, pc': Pc)
    requires FenceQuiet(sh, noWork, pc) && ThreadIssued(sh, pc) && Fields(sh) && Step(sh, pc, x).1 == Some(pc')
    requires FirstCounted(pc') && pc'.stage.active == 0 ==> noWork
    ensures FenceQuiet(Step(sh, pc, x).0, noWork, pc')
  {
    if InCanary(pc) {
      CanaryReadsNothing(sh, pc, x, pc');
    } else {
      OwnFenceElsewhere(sh, noWork, pc, x, pc');
    }
  }

  lemma OwnReadSampling(sh: Shared, noWork: bool, noGuarded: bool, pc: Pc, x: Input, pc': Pc)
    requires pc.Sampling?
    requires ReadQuiet(sh, noWork, noGuarded, pc) && Proved(pc) && Step(sh, pc, x).1 == Some(pc')
    requires FirstCounted(pc') && pc'.stage.active == 0 ==> noWork
    requires noWork ==> noGuarded
    ensures ReadQuiet(Step(sh, pc, x).0, noWork, noGuarded, pc')
  {
  }

  lemma OwnReadJudged(sh: Shared, noWork: bool, noGuarded: bool, pc: Pc, x: Input, pc': Pc)
    requires pc.Sampled?
    requires ReadQuiet(sh, noWork, noGuarded, pc) && Proved(pc) && Step(sh, pc, x).1 == Some(pc')
    requires FirstCounted(pc') && pc'.stage.active == 0 ==> noWork
    requires noWork ==> noGuarded
    ensures ReadQuiet(Step(sh, pc, x).0, noWork, noGuarded, pc')
  {
  }

  lemma OwnReadInCanary(sh: Shared, noWork: bool, noGuarded: bool, pc: Pc, x: Input, pc': Pc)
    requires InCanary(pc) && Step(sh, pc, x).1 == Some(pc')
    ensures ReadQuiet(Step(sh, pc, x).0, noWork, noGuarded, pc')
  {
    CanaryReadsNothing(sh, pc, x, pc');
  }

  lemma OwnReadElsewhere(sh: Shared, noWork: bool, noGuarded: bool, pc: Pc, x: Input, pc': Pc)
    requires !pc.Sampling? && !pc.Sampled? && !InCanary(pc)
    requires ReadQuiet(sh, noWork, noGuarded, pc) && Proved(pc) && Step(sh, pc, x).1 == Some(pc')
    requires FirstCounted(pc') && pc'.stage.active == 0 ==> noWork
    requires noWork ==> noGuarded
    ensures ReadQuiet(Step(sh, pc, x).0, noWork, noGuarded, pc')
  {
  }

  lemma OwnRead(sh: Shared, noWork: bool, noGuarded: bool, pc: Pc, x: Input, pc': Pc)
    requires ReadQuiet(sh, noWork, noGuarded, pc) && Proved(pc) && Step(sh, pc, x).1 == Some(pc')
    requires FirstCounted(pc') && pc'.stage.active == 0 ==> noWork
    requires noWork ==> noGuarded
    ensures ReadQuiet(Step(sh, pc, x).0, noWork, noGuarded, pc')
  {
    if pc.Sampling? {
      OwnReadSampling(sh, noWork, noGuarded, pc, x, pc');
    } else if pc.Sampled? {
      OwnReadJudged(sh, noWork, noGuarded, pc, x, pc');
    } else if InCanary(pc) {
      OwnReadInCanary(sh, noWork, noGuarded, pc, x, pc');
    } else {
      OwnReadElsewhere(sh, noWork, noGuarded, pc, x, pc');
    }
  }

  lemma OwnProvedSampling(sh: Shared, pc: Pc, x: Input, pc': Pc)
    requires pc.Sampling?
    requires Proved(pc) && Step(sh, pc, x).1 == Some(pc')
    ensures Proved(pc')
  {
  }

  lemma OwnProvedJudged(sh: Shared, pc: Pc, x: Input, pc': Pc)
    requires pc.Sampled?
    requires Proved(pc) && Step(sh, pc, x).1 == Some(pc')
    ensures Proved(pc')
  {
  }

  /** From the lookup to the first policy read, a canary start carries no proof. */
  lemma OwnProvedBefore(sh: Shared, pc: Pc, x: Input, pc': Pc)
    requires pc.CanaryLookup? || pc.CanaryEntered? || pc.CanaryCounted? || pc.CanaryPolicyRead?
    requires Step(sh, pc, x).1 == Some(pc')
    ensures Proved(pc')
  {
  }

  lemma OwnProvedCreating(sh: Shared, pc: Pc, x: Input, pc': Pc)
    requires pc.CanaryProved? || pc.CanaryRechecking? || pc.CanaryCreating?
    requires Proved(pc) && Step(sh, pc, x).1 == Some(pc')
    ensures Proved(pc')
  {
  }

  lemma OwnProvedAfter(sh: Shared, pc: Pc, x: Input, pc': Pc)
    requires pc.CanaryCreated? || pc.CanaryRereading? || pc.CanaryTerminalizing? || pc.CanaryLeaving?
    requires Proved(pc) && Step(sh, pc, x).1 == Some(pc')
    ensures Proved(pc')
  {
  }

  lemma OwnProvedInCanary(sh: Shared, pc: Pc, x: Input, pc': Pc)
    requires InCanary(pc) && Proved(pc) && Step(sh, pc, x).1 == Some(pc')
    ensures Proved(pc')
  {
    if pc.CanaryLookup? || pc.CanaryEntered? || pc.CanaryCounted? || pc.CanaryPolicyRead? {
      OwnProvedBefore(sh, pc, x, pc');
    } else if pc.CanaryProved? || pc.CanaryRechecking? || pc.CanaryCreating? {
      OwnProvedCreating(sh, pc, x, pc');
    } else {
      OwnProvedAfter(sh, pc, x, pc');
    }
  }

  lemma OwnProvedElsewhere(sh: Shared, pc: Pc, x: Input, pc': Pc)
    requires !pc.Sampling? && !pc.Sampled? && !InCanary(pc)
    requires Proved(pc) && Step(sh, pc, x).1 == Some(pc')
    ensures Proved(pc')
  {
  }

  lemma OwnProved(sh: Shared, pc: Pc, x: Input, pc': Pc)
    requires Proved(pc) && Step(sh, pc, x).1 == Some(pc')
    ensures Proved(pc')
  {
    if pc.Sampling? {
      OwnProvedSampling(sh, pc, x, pc');
    } else if pc.Sampled? {
      OwnProvedJudged(sh, pc, x, pc');
    } else if InCanary(pc) {
      OwnProvedInCanary(sh, pc, x, pc');
    } else {
      OwnProvedElsewhere(sh, pc, x, pc');
    }
  }

  lemma OwnGone(sh: Shared, pc: Pc, x: Input, pc': Pc)
    requires Gone(sh, pc) && ThreadIssued(sh, pc) && Fields(sh) && Step(sh, pc, x).1 == Some(pc')
    ensures Gone(Step(sh, pc, x).0, pc')
  {
  }

  lemma OwnSettled(sh: Shared, pc: Pc, x: Input, pc': Pc)
    requires Settled(sh, pc) && Step(sh, pc, x).1 == Some(pc')
    ensures Settled(Step(sh, pc, x).0, pc')
  {
  }

  /** Rows are only added or moved on from a live state. */
  ghost predicate RunsMove(sh: Shared, sh': Shared) {
    forall id <- sh.runs :: sh.runs[id] == Error ==> id in sh'.runs && sh'.runs[id] == Error
  }

  lemma ErrorStays(sh: Shared, pc: Pc, x: Input)
    ensures RunsMove(sh, Step(sh, pc, x).0)
  {
  }

  // --- Every other thread keeps its obligations ---

  /** What a step of one thread promises every other thread `u`: the two locks `u` holds protect it. */
  ghost predicate Rely(sh: Shared, sh': Shared, noWork: bool, noGuarded: bool, noWork': bool, noGuarded': bool,
                       admissionHeld: bool, canaryHeld: bool) {
    && (sh'.lease == None || SameLease(sh, sh') || (HasToken(sh', sh.nextToken) && !admissionHeld && !canaryHeld))
    && (sh'.lease != sh.lease ==> !admissionHeld)
    && sh'.nextToken >= sh.nextToken && sh'.nextPolicy >= sh.nextPolicy && RunsMove(sh, sh')
    && (noWork && !noWork' ==> sh'.lease == None && !admissionHeld)
    && (noGuarded && !noGuarded' ==> !PolicyClosed(sh.policy) && sh'.policy == sh.policy)
    && (sh'.policy == sh.policy || (sh'.policy.Some? && sh'.policy.value.id == sh.nextPolicy))
  }

  lemma OthersKeep(sh: Shared, sh': Shared, noWork: bool, noGuarded: bool, noWork': bool, noGuarded': bool, pc: Pc)
    requires ThreadInv(sh, noWork, noGuarded, pc)
    requires Rely(sh, sh', noWork, noGuarded, noWork', noGuarded', HoldsAdmission(pc), HoldsCanary(pc))
    ensures ThreadInv(sh', noWork', noGuarded', pc)
  {
  }

  // --- One thread's step on the whole system ---

  ghost predicate Advances(s: Sys, t: Tid, x: Input, sh': Shared, pc': Option<Pc>, s': Sys) {
    && Inv(s) && Enabled(s, Advance(t, x)) && s' == AdvanceThread(s, t, x)
    && Step(s.sh, s.threads[t], x) == (sh', pc')
  }

  lemma AdvanceLocks(s: Sys, t: Tid, x: Input, sh': Shared, pc': Option<Pc>, s': Sys)
    requires Advances(s, t, x, sh', pc', s')
    ensures Locks(s')
  {
    LocksWaitedFor(s.sh, s.threads[t], x);
    match pc' {
      case Some(p) =>
        LockStep(s.admissionMu, s.threads, HoldsAdmission, t, p);
        LockStep(s.canaryMu, s.threads, HoldsCanary, t, p);
      case None =>
        LockLeave(s.admissionMu, s.threads, HoldsAdmission, t);
        LockLeave(s.canaryMu, s.threads, HoldsCanary, t);
    }
  }

  ghost function One(b: bool): int { if b then 1 else 0 }

  lemma ActiveMoves(sh: Shared, pc: Pc, x: Input)
    ensures var (sh', pc') := Step(sh, pc, x);
      sh'.active - sh.active == One(pc'.Some? && pc'.value.Handling?) - One(pc.Handling?)
  {
  }

  lemma CanaryMovesInside(sh: Shared, pc: Pc, x: Input)
    requires InCanary(pc)
    ensures var (sh', pc') := Step(sh, pc, x);
      sh'.canary - sh.canary == One(pc'.Some? && Counted(pc'.value)) - One(Counted(pc))
  {
  }

  lemma CanaryMovesElsewhere(sh: Shared, pc: Pc, x: Input)
    requires !InCanary(pc)
    ensures var (sh', pc') := Step(sh, pc, x);
      sh'.canary - sh.canary == One(pc'.Some? && Counted(pc'.value)) - One(Counted(pc))
  {
  }

  lemma CanaryMoves(sh: Shared, pc: Pc, x: Input)
    ensures var (sh', pc') := Step(sh, pc, x);
      sh'.canary - sh.canary == One(pc'.Some? && Counted(pc'.value)) - One(Counted(pc))
  {
    if InCanary(pc) {
      CanaryMovesInside(sh, pc, x);
    } else {
      CanaryMovesElsewhere(sh, pc, x);
    }
  }

  lemma BusySet(threads: map<Tid, Pc>, t: Tid, pc: Pc)
    ensures |Busy(threads[t := pc])| == |Busy(threads - {t})| + One(pc.Handling?)
  {
    if pc.Handling? {
      assert Busy(threads[t := pc]) == Busy(threads - {t}) + {t};
    } else {
      assert Busy(threads[t := pc]) == Busy(threads - {t});
    }
  }

  lemma AdvanceCounters(s: Sys, t: Tid, x: Input, sh': Shared, pc': Option<Pc>, s': Sys)
    requires Advances(s, t, x, sh', pc', s')
    ensures Counters(s')
  {
    ActiveMoves(s.sh, s.threads[t], x);
    CanaryMoves(s.sh, s.threads[t], x);
    BusySet(s.threads, t, s.threads[t]);
    assert s.threads[t := s.threads[t]] == s.threads;
    if pc'.Some? {
      BusySet(s.threads, t, pc'.value);
    }
    LocksWaitedFor(s.sh, s.threads[t], x);
    CountedHolds(s.threads[t]);
    if pc'.Some? {
      CountedHolds(pc'.value);
    }
  }

  lemma CountedHolds(pc: Pc)
    ensures Counted(pc) ==> HoldsCanary(pc)
    ensures FenceOf(pc).Some? || pc.FenceClearing? ==> HoldsCanary(pc)
  {
  }

  /** A first sample that counts zero, under the lock, finds nobody working. */
  lemma CountZero(s: Sys, t: Tid)
    requires Inv(s) && t in s.threads && Available(s.admissionMu, t) && s.sh.active == 0 && !Working(s.threads[t])
    ensures NoWork(s.threads)
  {
    forall u | u in s.threads
      ensures !Working(s.threads[u])
    {
      assert u !in Busy(s.threads);
    }
  }

  lemma WorkMoves(s: Sys, t: Tid, x: Input, sh': Shared, pc': Option<Pc>, s': Sys)
    requires Advances(s, t, x, sh', pc', s')
    ensures NoWork(s.threads) && !NoWork(s'.threads) ==>
      pc'.Some? && Working(pc'.value) && sh'.lease == None && Available(s.admissionMu, t)
    ensures NoGuardedWork(s.threads) && !NoGuardedWork(s'.threads) ==>
      pc'.Some? && Working(pc'.value) && Open(s.sh.policy)
  {
    if pc'.Some? {
      WorkBegins(s.sh, s.threads[t], x, pc'.value);
    }
  }

  lemma AdvanceOthers(s: Sys, t: Tid, x: Input, sh': Shared, pc': Option<Pc>, s': Sys, u: Tid)
    requires Advances(s, t, x, sh', pc', s') && u in s'.threads && u != t
    ensures ThreadInv(sh', NoWork(s'.threads), NoGuardedWork(s'.threads), s'.threads[u])
  {
    LeaseMoves(s.sh, s.threads[t], x);
    PolicyStays(s.sh, s.threads[t], x);
    ErrorStays(s.sh, s.threads[t], x);
    WorkMoves(s, t, x, sh', pc', s');
    OthersKeep(s.sh, sh', NoWork(s.threads), NoGuardedWork(s.threads), NoWork(s'.threads), NoGuardedWork(s'.threads),
               s.threads[u]);
  }

  lemma AdvanceOwn(s: Sys, t: Tid, x: Input, sh': Shared, pc': Option<Pc>, s': Sys)
    requires Advances(s, t, x, sh', pc', s') && pc'.Some?
    ensures ThreadInv(sh', NoWork(s'.threads), NoGuardedWork(s'.threads), pc'.value)
  {
    var noWork, noGuarded, pc := NoWork(s.threads), NoGuardedWork(s.threads), s.threads[t];
    assert Own(s.sh, noWork, noGuarded, pc);
    if FirstCounted(pc'.value) {
      FirstCountTaken(s.sh, pc, x, pc'.value);
      if pc'.value.stage.active == 0 {
        CountZero(s, t);
      }
    }
    OwnIssued(s.sh, pc, x, pc'.value);
    OwnNoLease(s.sh, pc, x, pc'.value);
    OwnFence(s.sh, noWork, pc, x, pc'.value);
    OwnRead(s.sh, noWork, noGuarded, pc, x, pc'.value);
    OwnProved(s.sh, pc, x, pc'.value);
    OwnGone(s.sh, pc, x, pc'.value);
    OwnSettled(s.sh, pc, x, pc'.value);
    WorkMoves(s, t, x, sh', pc', s');
  }

  lemma FirstCountTaken(sh: Shared, pc: Pc, x: Input, pc': Pc)
    requires Step(sh, pc, x).1 == Some(pc') && FirstCounted(pc')
    ensures pc.Sampling? && NeedsAdmission(pc) && pc'.stage.active == sh.active
  {
  }

  lemma AdvanceLeaseQuiet(s: Sys, t: Tid, x: Input, sh': Shared, pc': Option<Pc>, s': Sys)
    requires Advances(s, t, x, sh', pc', s')
    ensures LeaseQuiet(s')
  {
    LeaseMoves(s.sh, s.threads[t], x);
    WorkMoves(s, t, x, sh', pc', s');
    if sh'.lease.Some? && sh'.lease.value.validated && !s.sh.lease.value.validated {
      FenceValidates(s.sh, s.threads[t], x);
      assert ThreadInv(s.sh, NoWork(s.threads), NoGuardedWork(s.threads), s.threads[t]);
    }
  }

  lemma FenceValidates(sh: Shared, pc: Pc, x: Input)
    requires pc.FenceRechecking? && sh.lease.Some? && !sh.lease.value.validated
    requires var sh' := Step(sh, pc, x).0; sh'.lease.Some? && sh'.lease.value.validated
    ensures HasToken(sh, pc.fence.token) && !pc.fence.renewal
  {
  }

  lemma AdvanceLeaseOwned(s: Sys, t: Tid, x: Input, sh': Shared, pc': Option<Pc>, s': Sys)
    requires Advances(s, t, x, sh', pc', s')
    ensures LeaseOwned(s')
  {
    LeaseMoves(s.sh, s.threads[t], x);
    LocksWaitedFor(s.sh, s.threads[t], x);
    if sh'.lease.Some? && !sh'.lease.value.validated {
      if s.sh.lease.Some? && s.canaryMu == Some(t) && SameLease(s.sh, sh') {
        FencingGoesOn(s.sh, s.threads[t], x);
      }
      if pc'.Some? {
        CountedHolds(pc'.value);
      }
    }
  }

  /** A proof keeps fencing its unvalidated lease until it validates or clears it. */
  lemma FencingGoesOn(sh: Shared, pc: Pc, x: Input)
    requires sh.lease.Some? && !sh.lease.value.validated && Fencing(pc, sh.lease.value.token)
    ensures var (sh', pc') := Step(sh, pc, x);
      sh'.lease.Some? && !sh'.lease.value.validated && sh'.lease.value.token == sh.lease.value.token ==>
        pc'.Some? && Fencing(pc'.value, sh.lease.value.token)
  {
  }

  lemma AdvanceKeepsInv(s: Sys, t: Tid, x: Input)
    requires Inv(s) && Enabled(s, Advance(t, x))
    ensures Inv(AdvanceThread(s, t, x))
  {
    var s' := AdvanceThread(s, t, x);
    var (sh', pc') := Step(s.sh, s.threads[t], x);
    AdvanceLocks(s, t, x, sh', pc', s');
    AdvanceCounters(s, t, x, sh', pc', s');
    AdvanceLeaseQuiet(s, t, x, sh', pc', s');
    AdvanceLeaseOwned(s, t, x, sh', pc', s');
    forall u | u in s'.threads
      ensures ThreadInv(sh', NoWork(s'.threads), NoGuardedWork(s'.threads), s'.threads[u])
    {
      if u == t {
        AdvanceOwn(s, t, x, sh', pc', s');
      } else {
        AdvanceOthers(s, t, x, sh', pc', s', u);
      }
    }
    LeaseMoves(s.sh, s.threads[t], x);
    PolicyStays(s.sh, s.threads[t], x);
  }

  // --- The environment's steps ---

  lemma SwapKeepsInv(s: Sys, enabled: bool, workflows: bool)
    requires Inv(s)
    ensures Inv(Next(s, Swap(enabled, workflows)))
  {
    var s' := Next(s, Swap(enabled, workflows));
    forall u | u in s'.threads
      ensures ThreadInv(s'.sh, NoWork(s'.threads), NoGuardedWork(s'.threads), s'.threads[u])
    {
      OthersKeep(s.sh, s'.sh, NoWork(s.threads), NoGuardedWork(s.threads), NoWork(s.threads), NoGuardedWork(s.threads),
                 s.threads[u]);
    }
  }

  lemma QuietEventKeepsInv(s: Sys, e: Event)
    requires Inv(s) && Enabled(s, e) && (e.Announce? || e.Rewire? || e.RunMoves?)
    ensures Inv(Next(s, e))
  {
    var s' := Next(s, e);
    forall u | u in s'.threads
      ensures ThreadInv(s'.sh, NoWork(s'.threads), NoGuardedWork(s'.threads), s'.threads[u])
    {
      OthersKeep(s.sh, s'.sh, NoWork(s.threads), NoGuardedWork(s.threads), NoWork(s.threads), NoGuardedWork(s.threads),
                 s.threads[u]);
    }
  }

  lemma ArrivalKeepsWork(threads: map<Tid, Pc>, t: Tid, request: Request)
    requires t !in threads
    ensures NoWork(threads[t := Arrived(request)]) == NoWork(threads)
    ensures NoGuardedWork(threads[t := Arrived(request)]) == NoGuardedWork(threads)
    ensures Busy(threads[t := Arrived(request)]) == Busy(threads)
  {
    var threads' := threads[t := Arrived(request)];
    assert forall u <- threads :: threads'[u] == threads[u];
  }

  lemma LockArrival(mu: Option<Tid>, threads: map<Tid, Pc>, holds: Pc -> bool, t: Tid, pc: Pc)
    requires LockHolder(mu, threads, holds) && t !in threads && !holds(pc)
    ensures LockHolder(mu, threads[t := pc], holds)
  {
  }

  lemma StartKeepsInv(s: Sys, t: Tid, request: Request)
    requires Inv(s) && Enabled(s, Start(t, request))
    ensures Inv(Next(s, Start(t, request)))
  {
    var s' := Next(s, Start(t, request));
    ArrivalKeepsWork(s.threads, t, request);
    LockArrival(s.admissionMu, s.threads, HoldsAdmission, t, Arrived(request));
    LockArrival(s.canaryMu, s.threads, HoldsCanary, t, Arrived(request));
    forall u | u in s'.threads
      ensures ThreadInv(s'.sh, NoWork(s'.threads), NoGuardedWork(s'.threads), s'.threads[u])
    {
      if u == t {
        ArrivedOk(s'.sh, NoWork(s'.threads), NoGuardedWork(s'.threads), request);
      } else {
        assert ThreadInv(s.sh, NoWork(s.threads), NoGuardedWork(s.threads), s.threads[u]);
      }
    }
  }

  lemma ArrivedOk(sh: Shared, noWork: bool, noGuarded: bool, request: Request)
    ensures ThreadInv(sh, noWork, noGuarded, Arrived(request))
  {
  }

  lemma StepKeepsInv(s: Sys, e: Event)
    requires Inv(s) && Enabled(s, e)
    ensures Inv(Next(s, e))
  {
    match e {
      case Start(t, request) => StartKeepsInv(s, t, request);
      case Advance(t, x) => AdvanceKeepsInv(s, t, x);
      case Swap(enabled, workflows) => SwapKeepsInv(s, enabled, workflows);
      case _ => QuietEventKeepsInv(s, e);
    }
  }
}
