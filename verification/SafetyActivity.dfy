/**
 The in-memory half of the operator's quiescence proof: what one activity sample holds, when two
 samples count as the same, and when a sample counts as idle.
 */
module SafetyActivity {
  import opened Basics

  /** A loaded policy document. A reload always installs a new object, so `id` is its identity. */
  datatype Policy = Policy(id: nat, enabled: bool, workflows: bool)

  /** The durable counts of one store snapshot. */
  datatype Counts = Counts(queuedBacklog: nat, activePipelineRuns: nat, activeWorkflowRuns: nat,
                           activeSpinRuns: nat, activeCouncilRuns: nat, pendingDispatches: nat)
  {
    predicate Quiescent() {
      IdleForWorkflow(0)
    }

    predicate IdleForWorkflow(expected: nat) {
      && queuedBacklog == 0 && activePipelineRuns == 0 && activeWorkflowRuns == expected
      && activeSpinRuns == 0 && activeCouncilRuns == 0 && pendingDispatches == 0
    }
  }

  const WORKFLOW := "workflow"

  const REQUIRED_SOURCES: seq<string> := ["canary", "council", "cross_run", "pipeline", "reconciler", WORKFLOW]

  /** The registered background sources: each name is bound to one source instance. */
  datatype Wiring = Wiring(ready: bool, required: bool, error: string, generation: nat, sources: map<string, nat>)

  /** What the sources said when one sample asked them. */
  datatype Readings = Readings(operations: map<string, int>, runIds: map<string, seq<string>>)

  datatype Sample = Sample(
    admissionClosed: bool, leaseActive: bool, policyGeneration: nat, sourcesReady: bool,
    sampleStable: bool, wiringRequired: bool, activitySources: nat, sourceGeneration: nat,
    operations: map<string, int>, runIds: map<string, seq<string>>, missing: seq<string>,
    wiringError: string, activeAdmissions: int, canaryAdmissions: int, background: int,
    spinWorkers: int, auditOutstanding: int, policy: Option<Policy>)

  ghost function Total(m: map<string, int>): int
    decreases |m|
  {
    if m == map[] then 0 else
      var k :| k in m;
      m[k] + Total(m - {k})
  }

  /** The sum does not depend on the order in which the map is walked. */
  lemma {:induction false} TotalWithout(m: map<string, int>, k: string)
    requires k in m
    ensures Total(m) == m[k] + Total(m - {k})
    decreases |m|
  {
    var c :| c in m && Total(m) == m[c] + Total(m - {c});
    if c != k {
      TotalWithout(m - {c}, k);
      TotalWithout(m - {k}, c);
      assert (m - {c}) - {k} == (m - {k}) - {c};
    }
  }

  lemma {:induction false} TotalOfZeros(m: map<string, int>)
    requires forall k <- m :: m[k] == 0
    ensures Total(m) == 0
    decreases |m|
  {
    if m != map[] {
      var c :| c in m && Total(m) == m[c] + Total(m - {c});
      TotalOfZeros(m - {c});
    }
  }

  lemma TotalWith(m: map<string, int>, k: string, v: int)
    requires k !in m
    ensures Total(m[k := v]) == Total(m) + v
  {
    TotalWithout(m[k := v], k);
    assert m[k := v] - {k} == m;
  }

  lemma TotalWhenOthersIdle(m: map<string, int>)
    requires OthersIdle(m)
    ensures Total(m) == ReadOperation(m, WORKFLOW)
  {
    if WORKFLOW in m {
      TotalWithout(m, WORKFLOW);
      TotalOfZeros(m - {WORKFLOW});
    } else {
      TotalOfZeros(m);
    }
  }

  predicate PolicyClosed(p: Option<Policy>) {
    p.Some? && !p.value.enabled
  }

  function Missing(sources: map<string, nat>, names: seq<string>): seq<string> {
    if names == [] then [] else
      (if names[0] in sources then [] else [names[0]]) + Missing(sources, names[1..])
  }

  lemma {:induction false} NothingMissing(sources: map<string, nat>, names: seq<string>)
    ensures Missing(sources, names) == [] <==> forall n <- names :: n in sources
  {
    if names != [] {
      NothingMissing(sources, names[1..]);
      assert names == [names[0]] + names[1..];
    }
  }

  function ReadOperation(m: map<string, int>, name: string): int {
    if name in m then m[name] else 0
  }

  function ReadRunIds(m: map<string, seq<string>>, name: string): seq<string> {
    if name in m then m[name] else []
  }

  // --- When two samples agree ---

  method SameOperations(a: map<string, int>, b: map<string, int>) returns (same: bool)
    ensures same <==> a == b
  {
    if |a| != |b| {
      return false;
    }
    var names := a.Keys;
    while names != {}
      invariant names <= a.Keys
      invariant forall n <- a.Keys - names :: n in b && b[n] == a[n]
      decreases |names|
    {
      var n :| n in names;
      if n !in b || b[n] != a[n] {
        return false;
      }
      names := names - {n};
    }
    assert |a.Keys| == |b.Keys|;
    SameSizeSubset(a.Keys, b.Keys);
    return true;
  }

  method SameStrings(a: seq<string>, b: seq<string>) returns (same: bool)
    ensures same <==> a == b
  {
    if |a| != |b| {
      return false;
    }
    for i := 0 to |a|
      invariant forall k | 0 <= k < i :: a[k] == b[k]
    {
      if a[i] != b[i] {
        return false;
      }
    }
    return true;
  }

  method SameRunIds(a: map<string, seq<string>>, b: map<string, seq<string>>) returns (same: bool)
    ensures same <==> a == b
  {
    if |a| != |b| {
      return false;
    }
    var names := a.Keys;
    while names != {}
      invariant names <= a.Keys
      invariant forall n <- a.Keys - names :: n in b && b[n] == a[n]
      decreases |names|
    {
      var n :| n in names;
      if n !in b {
        return false;
      }
      var equal := SameStrings(a[n], b[n]);
      if !equal {
        return false;
      }
      names := names - {n};
    }
    assert |a.Keys| == |b.Keys|;
    SameSizeSubset(a.Keys, b.Keys);
    return true;
  }

  /** Go compares field by field and walks the two maps; the meaning is equality of all but the verdict flag. */
  method SameSafetyActivity(a: Sample, b: Sample) returns (same: bool)
    ensures same <==> Agree(a, b)
  {
    var missing := SameStrings(a.missing, b.missing);
    var operations := SameOperations(a.operations, b.operations);
    var runIds := SameRunIds(a.runIds, b.runIds);
    return a.admissionClosed == b.admissionClosed && a.leaseActive == b.leaseActive
           && a.policyGeneration == b.policyGeneration && a.sourcesReady == b.sourcesReady
           && a.wiringRequired == b.wiringRequired && a.activitySources == b.activitySources
           && a.sourceGeneration == b.sourceGeneration && a.wiringError == b.wiringError
           && a.activeAdmissions == b.activeAdmissions && a.canaryAdmissions == b.canaryAdmissions
           && a.background == b.background && a.spinWorkers == b.spinWorkers
           && a.auditOutstanding == b.auditOutstanding && a.policy == b.policy
           && missing && operations && runIds;
  }

  /** Two samples agree when they are equal in everything but the verdict flag. */
  predicate Agree(a: Sample, b: Sample) {
    a.(sampleStable := b.sampleStable) == b
  }

  // --- When a sample is idle ---

  predicate WiringComplete(a: Sample) {
    !a.wiringRequired ||
    (a.sourcesReady && a.activitySources >= |REQUIRED_SOURCES| && a.sourceGeneration > 0
     && a.missing == [] && a.wiringError == "")
  }

  predicate WorkflowAllowed(a: Sample, runId: string) {
    var active, ids := ReadOperation(a.operations, WORKFLOW), ReadRunIds(a.runIds, WORKFLOW);
    (active == 0 && ids == []) || (runId != "" && active == 1 && ids == [runId])
  }

  predicate OthersIdle(operations: map<string, int>) {
    forall n <- operations :: n != WORKFLOW ==> operations[n] == 0
  }

  method SourceOperationsIdleExceptWorkflow(operations: map<string, int>) returns (idle: bool)
    ensures idle <==> OthersIdle(operations)
  {
    var names := operations.Keys;
    while names != {}
      invariant names <= operations.Keys
      invariant forall n <- operations.Keys - names :: n != WORKFLOW ==> operations[n] == 0
      decreases |names|
    {
      var n :| n in names;
      names := names - {n};
      if n == WORKFLOW {
        continue;
      }
      if operations[n] != 0 {
        return false;
      }
    }
    return true;
  }

  predicate Idle(a: Sample, allowedCanary: int, runId: string, allowLease: bool) {
    && a.admissionClosed && (allowLease || !a.leaseActive) && WiringComplete(a)
    && OthersIdle(a.operations) && WorkflowAllowed(a, runId)
    && a.activeAdmissions == 0 && a.background == ReadOperation(a.operations, WORKFLOW)
    && a.canaryAdmissions == allowedCanary && a.spinWorkers == 0 && a.auditOutstanding == 0
  }

  method ValuesIdleWithAllowances(a: Sample, allowedCanary: int, runId: string, allowLease: bool) returns (idle: bool)
    ensures idle <==> Idle(a, allowedCanary, runId, allowLease)
  {
    var wiringComplete := WiringComplete(a);
    var active, ids := ReadOperation(a.operations, WORKFLOW), ReadRunIds(a.runIds, WORKFLOW);
    var workflowAllowed := runId != "" && ((active == 0 && |ids| == 0) || (active == 1 && |ids| == 1 && ids[0] == runId));
    if runId == "" {
      workflowAllowed := active == 0 && |ids| == 0;
    }
    var others := SourceOperationsIdleExceptWorkflow(a.operations);
    idle := a.admissionClosed && (allowLease || !a.leaseActive) && wiringComplete && others && workflowAllowed
            && a.activeAdmissions == 0 && a.background == active && a.canaryAdmissions == allowedCanary
            && a.spinWorkers == 0 && a.auditOutstanding == 0;
    assert |ids| == 1 ==> ids == [ids[0]];
  }

  // --- Taking a sample ---

  /** A sample is assembled from one consistent copy of the wiring and from the readings of those sources. */
  ghost function MakeSample(active: int, leaseActive: bool, wiring: Wiring, policy: Option<Policy>, generation: nat,
                      readings: Readings, canary: int, spin: int, audit: int): Sample
  {
    Sample(PolicyClosed(policy), leaseActive, generation, wiring.ready, false, wiring.required,
           |readings.operations|, wiring.generation, readings.operations, readings.runIds,
           Missing(wiring.sources, REQUIRED_SOURCES), wiring.error, active, canary, Total(readings.operations),
           spin, audit, policy)
  }

  ghost predicate ReadingsOf(r: Readings, wiring: Wiring) {
    r.operations.Keys == wiring.sources.Keys && r.runIds.Keys <= wiring.sources.Keys
  }

  /** The collecting loop: whatever order the sources are asked in, it gathers every reading and their sum. */
  method CollectReadings(sources: map<string, nat>, answers: Readings)
    returns (operations: map<string, int>, runIds: map<string, seq<string>>, background: int)
    requires answers.operations.Keys == sources.Keys && answers.runIds.Keys <= sources.Keys
    ensures operations == answers.operations && runIds == answers.runIds && background == Total(answers.operations)
  {
    operations, runIds, background := map[], map[], 0;
    var left := sources.Keys;
    while left != {}
      invariant left <= sources.Keys
      invariant Gathered(answers.operations, operations, left)
      invariant Gathered(answers.runIds, runIds, left)
      invariant background == Total(operations)
      decreases |left|
    {
      var n :| n in left;
      if n in answers.runIds {
        runIds := Gather(answers.runIds, runIds, left, n);
      } else {
        SkipOne(answers.runIds, runIds, left, n);
      }
      TotalWith(operations, n, answers.operations[n]);
      operations := Gather(answers.operations, operations, left, n);
      background := background + answers.operations[n];
      left := left - {n};
    }
    AllGathered(answers.operations, operations);
    AllGathered(answers.runIds, runIds);
  }

  lemma AllGathered<T>(all: map<string, T>, got: map<string, T>)
    requires Gathered(all, got, {})
    ensures got == all
  {
    assert got.Keys == all.Keys;
  }

  lemma SkipOne<T>(all: map<string, T>, got: map<string, T>, left: set<string>, n: string)
    requires Gathered(all, got, left) && n !in all
    ensures Gathered(all, got, left - {n})
  {
  }

  /** `got` holds exactly the entries of `all` whose source has been asked. */
  ghost predicate Gathered<T>(all: map<string, T>, got: map<string, T>, left: set<string>) {
    && (forall n <- got :: n in all && n !in left && got[n] == all[n])
    && (forall n <- all :: n !in left ==> n in got)
  }

  function Gather<T>(all: map<string, T>, got: map<string, T>, ghost left: set<string>, n: string): (r: map<string, T>)
    requires Gathered(all, got, left) && n in left && n in all
    ensures Gathered(all, r, left - {n}) && n in r && r[n] == all[n] && r.Keys == got.Keys + {n}
  {
    got[n := all[n]]
  }

  /**
   What "idle" means for a public quiescence read: admission closed, no lease, complete wiring, and
   every source, admission, canary, spin and audit count at zero. Cancelling counts cannot hide.
   */
  lemma IdleMeansAllZero(active: int, leaseActive: bool, wiring: Wiring, policy: Option<Policy>, generation: nat,
                         r: Readings, canary: int, spin: int, audit: int, allowed: int)
    requires ReadingsOf(r, wiring)
    ensures
      var a := MakeSample(active, leaseActive, wiring, policy, generation, r, canary, spin, audit);
      Idle(a, allowed, "", false) <==>
      && PolicyClosed(policy) && !leaseActive
      && (wiring.required ==> wiring.ready && wiring.generation > 0 && wiring.error == ""
                              && forall n <- REQUIRED_SOURCES :: n in wiring.sources)
      && (forall n <- wiring.sources :: r.operations[n] == 0)
      && ReadRunIds(r.runIds, WORKFLOW) == []
      && active == 0 && canary == allowed && spin == 0 && audit == 0
  {
    NothingMissing(wiring.sources, REQUIRED_SOURCES);
    assert |r.operations| == |r.operations.Keys| && |wiring.sources| == |wiring.sources.Keys|;
    if forall n <- REQUIRED_SOURCES :: n in wiring.sources {
      RequiredFit(wiring.sources);
    }
    if OthersIdle(r.operations) {
      TotalWhenOthersIdle(r.operations);
    }
  }

  /** The crash-lease allowance differs in one place only: the target run may be the one active workflow. */
  lemma LeaseIdleNamesTheTarget(active: int, leaseActive: bool, wiring: Wiring, policy: Option<Policy>,
                                generation: nat, r: Readings, canary: int, spin: int, audit: int, runId: string)
    requires ReadingsOf(r, wiring) && runId != ""
    ensures
      var a := MakeSample(active, leaseActive, wiring, policy, generation, r, canary, spin, audit);
      Idle(a, 0, runId, true) <==>
      && PolicyClosed(policy) && WiringComplete(a)
      && (forall n <- wiring.sources :: n != WORKFLOW ==> r.operations[n] == 0)
      && ((ReadOperation(r.operations, WORKFLOW) == 0 && ReadRunIds(r.runIds, WORKFLOW) == [])
          || (ReadOperation(r.operations, WORKFLOW) == 1 && ReadRunIds(r.runIds, WORKFLOW) == [runId]))
      && active == 0 && canary == 0 && spin == 0 && audit == 0
  {
    if OthersIdle(r.operations) {
      TotalWhenOthersIdle(r.operations);
    }
  }

  lemma RequiredFit(sources: map<string, nat>)
    requires forall n <- REQUIRED_SOURCES :: n in sources
    ensures |sources| >= |REQUIRED_SOURCES|
  {
    var names := {"canary", "council", "cross_run", "pipeline", "reconciler", WORKFLOW};
    assert "canary" in REQUIRED_SOURCES && "council" in REQUIRED_SOURCES && "cross_run" in REQUIRED_SOURCES
           && "pipeline" in REQUIRED_SOURCES && "reconciler" in REQUIRED_SOURCES && WORKFLOW in REQUIRED_SOURCES;
    assert names <= sources.Keys;
    SubsetSize(names, sources.Keys);
  }
}
