/**
 The operator as an object: one method per locked region of its handlers, each proved to do to the
 fields exactly what the corresponding step of the admission protocol does to the shared state.
 */
module Operator {
  import opened Basics
  import opened SafetyActivity
  import opened AdmissionProtocol

  class CrashLease {
    const token: nat
    const target: Target
    var expiresAt: int
    var validated: bool

    constructor (token: nat, target: Target, expiresAt: int)
      ensures this.token == token && this.target == target && this.expiresAt == expiresAt && !validated
    {
      this.token, this.target, this.expiresAt, this.validated := token, target, expiresAt, false;
    }

    ghost function Value(): Lease
      reads this
    {
      Lease(token, target, expiresAt, validated)
    }
  }

  class OperatorState {
    var policy: Option<Policy>
    var policyGeneration: nat
    var activeAdmissions: int
    var canaryAdmissions: int
    var crashLease: CrashLease?
    var nextToken: nat
    var wiring: Wiring
    var runs: map<string, RunState>
    ghost var nextPolicy: nat
    ghost var unannounced: nat

    ghost function State(): Shared
      reads this, crashLease
    {
      Shared(policy, nextPolicy, policyGeneration, unannounced, activeAdmissions, canaryAdmissions,
             if crashLease == null then None else Some(crashLease.Value()), nextToken, wiring, runs)
    }

    method CrashLeaseActiveLocked(now: int) returns (active: bool)
      modifies `crashLease
      ensures (State(), active) == LeaseCheck(old(State()), now)
      ensures active <==> old(crashLease != null && now < crashLease.expiresAt)
      ensures crashLease == if active then old(crashLease) else null
    {
      if crashLease == null {
        return false;
      }
      if !(now < crashLease.expiresAt) {
        crashLease := null;
        return false;
      }
      active := true;
    }

    // --- Tracked handlers ---

    /** The check half of requireWorkAdmission; the lock is kept until EnterAdmission. */
    method CheckAdmission(now: int) returns (pc: Pc)
      modifies `crashLease
      ensures (State(), pc) == AdmitCheck(old(State()), now)
      ensures pc.AdmitChecked?
      ensures pc.ok <==> policy.Some? && policy.value.enabled && old(crashLease == null || now >= crashLease.expiresAt)
    {
      var current := policy;
      var leaseActive := CrashLeaseActiveLocked(now);
      if current.None? || !current.value.enabled || leaseActive {
        return AdmitChecked(false);
      }
      pc := AdmitChecked(true);
    }

    method EnterAdmission(ok: bool) returns (pc: Option<Pc>)
      modifies `activeAdmissions
      ensures (State(), pc) == AdmitEnter(old(State()), ok)
    {
      if !ok {
        return None;
      }
      activeAdmissions := activeAdmissions + 1;
      pc := Some(Handling(true));
    }

    method TrackSafetyActivity(now: int) returns (pc: Option<Pc>)
      modifies `crashLease, `activeAdmissions
      ensures (State(), pc) == OperateEnter(old(State()), now)
      ensures pc == (if old(crashLease != null && now < crashLease.expiresAt) then None else Some(Handling(false)))
    {
      var leaseActive := CrashLeaseActiveLocked(now);
      if leaseActive {
        return None;
      }
      activeAdmissions := activeAdmissions + 1;
      pc := Some(Handling(false));
    }

    /** The deferred decrement of either kind of handler. */
    method LeaveHandler(guarded: bool, x: Input) returns (pc: Option<Pc>)
      modifies `activeAdmissions
      ensures (State(), pc) == Step(old(State()), Handling(guarded), x)
    {
      activeAdmissions := activeAdmissions - 1;
      pc := None;
    }

    // --- The activity sample ---

    method CountActivity(job: Job, earlier: Option<Earlier>, x: Input) returns (pc: Pc)
      modifies `crashLease
      ensures (State(), pc) == SampleStep(old(State()), job, earlier, SampleStart, x)
    {
      var active := activeAdmissions;
      var leaseActive := CrashLeaseActiveLocked(x.now);
      pc := Sampling(job, earlier, SampleCounted(active, leaseActive, wiring));
    }

    // --- The crash lease ---

    method LookUpLease(target: Target, now: int) returns (pc: Pc)
      modifies `crashLease
      ensures (State(), pc) == LeaseEnter(old(State()), target, now)
    {
      var leaseActive := CrashLeaseActiveLocked(now);
      if leaseActive {
        var existing := crashLease;
        if existing.validated && existing.target == target {
          return Finishing(LeaseHeld(existing.token, true));
        }
        return Finishing(Refused);
      }
      pc := LeasePolicyRead(target, now, policy);
    }

    method InstallLease(target: Target, now: int, current: Option<Policy>, tokenOk: bool) returns (pc: Pc)
      modifies `crashLease, `nextToken
      ensures (State(), pc) == LeaseInstall(old(State()), target, now, current, tokenOk)
      ensures crashLease == old(crashLease) || fresh(crashLease)
    {
      if current.None? || current.value.enabled || !current.value.workflows {
        return Finishing(Refused);
      }
      var generation := policyGeneration;
      if !tokenOk {
        return Finishing(Refused);
      }
      var token := nextToken;
      nextToken := nextToken + 1;
      crashLease := new CrashLease(token, target, now + LEASE_TTL);
      pc := Sampling(FenceRead(Fence(false, token, target, current, generation)), None, SampleStart);
    }

    method ClearLease(token: nat)
      modifies `crashLease
      ensures State() == ClearToken(old(State()), token)
    {
      if crashLease != null && crashLease.token == token {
        crashLease := null;
      }
    }

    /** The locked recheck that ends a lease proof, fresh or renewed. */
    method RecheckFence(f: Fence, current: Option<Policy>, now: int, later: int) returns (pc: Pc)
      modifies this, crashLease
      ensures (State(), pc) == FenceRecheck(old(State()), f, current, now, later)
    {
      var leaseActive := CrashLeaseActiveLocked(now);
      if !leaseActive || crashLease.token != f.token || current != f.policy || policyGeneration != f.generation
         || current.None? || current.value.enabled || !current.value.workflows {
        if f.renewal {
          ClearLease(f.token);
          return Finishing(FenceRefused(f.token));
        }
        return FenceClearing(f.token);
      }
      if f.renewal {
        crashLease.expiresAt := later + LEASE_TTL;
        return Finishing(Renewed(f.token));
      }
      crashLease.validated := true;
      pc := Finishing(LeaseHeld(f.token, false));
    }

    method LookUpRenewal(token: nat, now: int) returns (pc: Pc)
      modifies `crashLease
      ensures (State(), pc) == RenewEnter(old(State()), token, now)
    {
      var leaseActive := CrashLeaseActiveLocked(now);
      if !leaseActive || crashLease.token != token || !crashLease.validated {
        return Finishing(Refused);
      }
      pc := RenewPolicyRead(token, crashLease.target, now, policy);
    }

    /** Renewing extends the very lease object the proof is about, or drops it. */
    method BeginRenewal(token: nat, target: Target, now: int, current: Option<Policy>) returns (pc: Pc)
      modifies this, crashLease
      ensures (State(), pc) == RenewBegin(old(State()), token, target, now, current)
    {
      var generation := policyGeneration;
      if current.None? || current.value.enabled || !current.value.workflows {
        crashLease := null;
        return Finishing(FenceRefused(token));
      }
      if crashLease != null {
        crashLease.expiresAt := now + LEASE_TTL;
      }
      pc := Sampling(FenceRead(Fence(true, token, target, current, generation)), None, SampleStart);
    }

    method ReleaseLease(token: nat, now: int) returns (released: bool)
      modifies `crashLease
      ensures State() == Release(old(State()), token, now)
      ensures released <==> LeaseCheck(old(State()), now).1 && old(crashLease).token == token
    {
      var leaseActive := CrashLeaseActiveLocked(now);
      if !leaseActive || crashLease.token != token {
        return false;
      }
      crashLease := null;
      released := true;
    }

    // --- The canary ---

    method CountCanary(id: string, now: int) returns (pc: Pc)
      modifies `crashLease, `canaryAdmissions
      ensures (State(), pc) == CanaryEnter(old(State()), id, now)
    {
      var leaseActive := CrashLeaseActiveLocked(now);
      if leaseActive {
        return Finishing(Refused);
      }
      canaryAdmissions := canaryAdmissions + 1;
      pc := CanaryCounted(id);
    }

    /** Creating the run; the store reports an id that is already taken. */
    method CreateCanary(id: string, p: Option<Policy>, generation: nat, proof: Proof, x: Input) returns (pc: Pc)
      modifies `runs
      ensures (State(), pc) == CanaryCreate(old(State()), id, p, generation, proof, x)
      ensures x.ok && id !in old(runs) ==> runs == old(runs)[id := Running] && pc == CanaryCreated(id, p, generation, proof)
      ensures x.ok && id in old(runs) ==> runs == old(runs) && pc == CanaryLeaving(if x.matches then CanaryReplayed(id) else Refused)
      ensures !x.ok ==> runs == old(runs) && pc == CanaryLeaving(Refused)
    {
      if !x.ok {
        return CanaryLeaving(Refused);
      }
      if id in runs {
        return CanaryLeaving(if x.matches then CanaryReplayed(id) else Refused);
      }
      runs := runs[id := Running];
      pc := CanaryCreated(id, p, generation, proof);
    }

    method TerminalizeCanary(id: string, ok: bool) returns (pc: Pc)
      modifies `runs
      ensures (State(), pc) == CanaryTerminalize(old(State()), id, ok)
    {
      if !ok || id !in runs || runs[id] != Running {
        return CanaryLeaving(CanaryStuck(id));
      }
      runs := runs[id := Error];
      pc := CanaryLeaving(CanaryTerminalized(id));
    }

    method LeaveCanary(outcome: Outcome, x: Input) returns (pc: Option<Pc>)
      modifies `canaryAdmissions
      ensures (State(), pc) == Step(old(State()), CanaryLeaving(outcome), x)
    {
      canaryAdmissions := canaryAdmissions - 1;
      pc := Some(Finishing(outcome));
    }
  }
}
