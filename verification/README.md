# Loom: safety of the Mills operator and its neighbours

A Dafny model of the parts of Loom where several requests, crashes or file edits meet, and proofs of what
those parts promise. `dafny verify dfyconfig.toml` checks all of it.

## What is modelled

**Work admission, quiescence and the crash lease** (`SafetyActivity`, `AdmissionProtocol`,
`AdmissionInvariant`, `AdmissionSteps`, `AdmissionTheorems`, `AdmissionQuiescence`, `AdmissionDecisions`,
`AdmissionVerdicts`, `AdmissionWitness`, `Operator`, `ActivityWiring`). Every HTTP request is a thread with a program point, one step is one atomic
region of its handler, and any number of requests interleave with policy reloads, rewiring and run transitions. A region that reads the policy while it holds
the admission lock is split at each read, because a reload takes no lock. The claims are
global: while a validated lease stands no tracked handler runs and no canary starts, and of every verdict it is
shown for which handlers it speaks at which instants of the interval it was taken over. `AdmissionDecisions`
and `AdmissionVerdicts` are the other half: what each look at the policy, the lease, the samples and the store
must lead to, told by the fields it finds. `Operator` holds the same regions as methods on an object, each proved
equal to its protocol step.

**The policy editor** (`PolicyText`, `PolicyReading`, `ProjectPath`, `PolicyBlocks`, `PolicyEdit`,
`PolicyEditLaws`, `PolicyIdempotence`, `PolicyComments`, `PolicyFraming`, `PolicyBypass`, `PolicyFile`,
`PolicyRequests`, `PolicyNote`, `PolicyEditor`). Anchored line insertions into an indentation-structured file: how lines are read, how blocks
behave under insertion, when the edit applies and what it writes, that it only inserts, frames every other
block and is idempotent, and for which provenance notes. `PolicyEditor` is the editor as it runs, with its loops.

**The shared child and the drain of the custom server** (`SessionDrain`, `SessionObjects`, `SharedChild`,
`SharedChildLaws`, `SharedInitialize`, `SharedService`, `Supervisor`). Publishing a session races with the shutdown snapshot;
many clients share one restartable child.

**The merging canary** (`CanaryMerge`, `CanaryMerger`). Remote effects that may land, land with their answer
lost, or not land, and attempts that crash anywhere and are replayed.

**Smaller stateful cores**: workflow lifecycle (`WorkflowLifecycle`), asynchronous spins (`SpinAsync`), the
merge-request hook (`HookStream`), the legacy project backfill (`LegacyBackfill`), the substrate edge
recorder (`SubstrateEdges`) and the squad ranking (`SquadRanking`). `TextOrder` and `Basics` hold shared
vocabulary.

## What is assumed

- A policy reload installs a new policy object each time, and the generation is raised in a separate later step.
- Lease tokens and session ids never repeat; they are modelled as fresh numbers.
- Clock readings are arbitrary, and may run backwards: no theorem needs them to be ordered.
- Background sources may answer anything when a sample asks them.
- The stores' compare-and-set, insert-once and read operations are atomic.
- The multiplexer answers a successful call with the reply to that very request.
- The forge keeps at most one open merge request per branch, merges only an open one at the given head, and
  never reopens a merged one; attempts for one run are sequential, and nobody else opens, merges or pushes the
  canary's branch. Its requests may be closed and reopened at any time, by others or by the client's own recovery.
- The hook's cache file works, and the hash does not collide on the texts of one session.

## Where the code and its descriptions differ

- The operational wrapper in `cmd/loom-mills-operator/server.go:534-537` is said to make the full lifetime of a handler visible to the
  safety snapshot. A public read that reports quiescent covers such handlers at the instants of its two counts
  (`AdmissionQuiescence.QuiescentMeansNobodyAtTheCounts`) and nowhere else: at any other point where no lease stands
  and the lock is free, a whole one fits into any run without changing a verdict (`AdmissionQuiescence.OperateFitsIn`), and
  `AdmissionWitness.QuiescentAroundAMutation` is a run with one inside a quiescent read. For a lease proof it is true
  throughout, because the lease itself keeps such handlers out.
- `notify` in `cmd/custom-server/main.go:249-250` says that only the first client forwards `notifications/initialized`. A flag
  raised before a restart can let a second one through to the new child: `SharedChildLaws.OneChildToldTwice`.
  `SharedChildLaws.InitializedTwiceOnlyWhenStale`, `NobodyNewWhileUp` and `ToldAgainWhileDown` say when.
- The provenance note is documented as one line (`cmd/loom-mills-operator/policy_edit.go:40-42`). The request handler builds it
  from a free-text reason without removing line breaks (`cmd/loom-mills-operator/handlers_projects.go:414-417`). Idempotence does
  not need one line: by `PolicyNote.QuietNotesExactly` it needs exactly that every further line is blank or a comment.
- The lifecycle compare-and-set compares the state alone, so a writer with a stale load can take a newer
  resumption time back: `WorkflowLifecycle.ResumedAtCanRegress`, and `CommitPutsLoadBack` for when.

## Model

| member | source | states |
|---|---|---|
| `SafetyActivity.SameOperations` | cmd/loom-mills-operator/handlers_safety.go:176-181 | walking one map against the other answers yes exactly when the two maps are equal |
| `SafetyActivity.SameStrings` | cmd/loom-mills-operator/handlers_safety.go:171-175 | the element-by-element walk answers yes exactly when the lists are equal |
| `SafetyActivity.SameRunIds` | cmd/loom-mills-operator/handlers_safety.go:182-192 | the nested walk over run ids answers yes exactly when the two maps of lists are equal |
| `SafetyActivity.SameSafetyActivity` | cmd/loom-mills-operator/handlers_safety.go:158-194 | two samples count as the same exactly when they are equal in every field but the verdict flag, policy object included |
| `SafetyActivity.SourceOperationsIdleExceptWorkflow` | cmd/loom-mills-operator/handlers_safety.go:80-90 | true exactly when every source but the workflow one reports zero |
| `SafetyActivity.ValuesIdleWithAllowances` | cmd/loom-mills-operator/handlers_safety.go:64-78 | the computed verdict is exactly the idle condition, for every allowance of canaries, target run and lease |
| `SafetyActivity.IdleMeansAllZero` | cmd/loom-mills-operator/handlers_safety.go:52-78 | public idleness holds if and only if admission is closed by a policy object, no lease stands, required wiring is complete, and every single source, admission, canary, spin and audit count is zero: counts of opposite sign cannot cancel out |
| `SafetyActivity.LeaseIdleNamesTheTarget` | cmd/loom-mills-operator/handlers_safety.go:60-78 | the crash-lease variant differs only in allowing one workflow operation, which must be the target run's |
| `SafetyActivity.CollectReadings` | cmd/loom-mills-operator/handlers_safety.go:92-125 | in whatever order the sources are asked, every reading is kept and the background count is their sum |
| `SafetyActivity.TotalWithout` | cmd/loom-mills-operator/handlers_safety.go:112-125 | the background count does not depend on the order in which the sources are walked |
| `AdmissionProtocol.LeaseCheck` | cmd/loom-mills-operator/handlers_safety_lease.go:42-51 | a lease is active exactly when there is one whose time is not up; an active one is left as it is, one whose time is up is dropped, and nothing else is touched |
| `AdmissionSteps.StepKeepsInv` | cmd/loom-mills-operator/handlers_safety_lease.go:99-256 | every step of every handler, and every reload, rewiring or run transition, keeps the invariant that ties locks, counters, lease and proofs together |
| `AdmissionSteps.AdvanceCounters` | cmd/loom-mills-operator/server.go:529-533 | the admission counter equals the number of handlers inside, and the canary counter is one exactly while a canary is between its increment and its decrement |
| `AdmissionTheorems.Reachable` | cmd/loom-mills-operator/handlers_safety_lease.go:99-256 | the invariant holds in every state of every run, for any number of requests and any interleaving |
| `AdmissionTheorems.ValidatedLeaseIsExclusive` | cmd/loom-mills-operator/handlers_safety_lease.go:42-51 | while a validated lease stands, no tracked handler is running and no canary is being started; no assumption about the clock |
| `AdmissionTheorems.LockFreeMeansSettled` | cmd/loom-mills-operator/handlers_workflow.go:147-155 | with the canary lock free the lease is nil or validated and no canary is counted; the canary count is never other than 0 or 1 |
| `AdmissionTheorems.CountsRiseOnlyWithoutLease` | cmd/loom-mills-operator/server.go:517-551 | in every run the count of handlers or of canaries rises only in a step after which no lease stands, and a lease that stood before that step had expired by its clock |
| `AdmissionTheorems.LeaseTurnsAway` | cmd/loom-mills-operator/server.go:517-551 | a guarded handler, an operational handler or a canary that meets an unexpired lease changes nothing and is never counted, for as long as its request lasts |
| `AdmissionTheorems.LeaseLostOnlyByItsToken` | cmd/loom-mills-operator/handlers_safety_lease.go:152-238 | an unexpired lease disappears only by its own release, its own failed proof or renewal, or a renewal under a policy that no longer allows it |
| `AdmissionTheorems.MatchingRequestReplays` | cmd/loom-mills-operator/handlers_safety_lease.go:119-132 | a request that finds an active lease finds a validated one: the same request gets the same token back, any other is refused, and neither changes the state |
| `AdmissionTheorems.RefusedTokenIsGone` | cmd/loom-mills-operator/handlers_safety_lease.go:211-232 | a proof or renewal that was refused has lost its token for good: it never names a lease again |
| `AdmissionTheorems.ProofEndsHeldOrGone` | cmd/loom-mills-operator/handlers_safety_lease.go:159-238 | in every run a lease proof or renewal that has begun for a token ends in one of two ways: it reports the token renewed or held, and that step found and left the validated lease of that token and target under the very policy object and generation the proof began with, renewed for a full period; or it reports the refusal, and no later state has the token |
| `AdmissionTheorems.LeaseProofWasQuiet` | cmd/loom-mills-operator/handlers_safety_lease.go:68-93 | when a proved lease is about to be validated, nobody was inside a tracked handler, or about to enter one, at any instant since the first count of its read; both samples agree, the target run is the only activity either saw, and the durable store held one workflow run and no queued, pipeline, spin, council or dispatch work |
| `AdmissionTheorems.ValidatedOnlyAfterQuiet` | cmd/loom-mills-operator/handlers_safety_lease.go:149-177 | a lease becomes validated only in the recheck of its own proof, with that quiet interval behind it and with one active workflow run and no other durable work counted in it |
| `AdmissionTheorems.TokenThroughout` | cmd/loom-mills-operator/handlers_safety_lease.go:134-151 | a token issued earlier and standing now has stood all the time in between |
| `AdmissionTheorems.PolicyThroughout` | cmd/loom-mills-operator/handlers_workflow.go:156-162 | a policy object seen earlier and current now was current all the time in between |
| `AdmissionTheorems.BracketStart` | cmd/loom-mills-operator/handlers_safety.go:200-208 | every bracketed read began with a count taken under the admission lock and has been that same read since |
| `AdmissionQuiescence.QuiescentMeansNoGuardedWork` | cmd/loom-mills-operator/handlers_safety.go:200-218 | if a public read reports quiescent, no handler behind the work-admission barrier was running at any instant from its first count to its second policy read, and one closed policy object was in force throughout |
| `AdmissionQuiescence.QuiescentMeansNobodyAtTheCounts` | cmd/loom-mills-operator/handlers_safety.go:200-218 | if a public read reports quiescent, then at its first count and again at its second no handler of either kind was running or past its admission check |
| `AdmissionQuiescence.OperateFitsIn` | cmd/loom-mills-operator/server.go:534-551 | between the counts nothing more is promised of handlers that only track activity: at any point of any run where no lease stands and the admission lock is free, a whole such handler fits in, and the longer sequence is again a run with the same states before and after, so with the same verdicts |
| `AdmissionWitness.QuiescentAroundAMutation` | cmd/loom-mills-operator/server.go:534-551 | that case is real: a run that ends with a public read reporting quiescent, with an operational handler running in it strictly between the read's two counts |
| `AdmissionWitness.LeaseCanBeValidated` | cmd/loom-mills-operator/handlers_safety_lease.go:99-183 | the theorems about validated leases are not vacuous: a run, for every target, that ends with its lease validated |
| `AdmissionWitness.CanaryCanStart` | cmd/loom-mills-operator/handlers_workflow.go:98-240 | the theorems about canaries are not vacuous: a run, for every id, that ends with the canary freshly started |
| `AdmissionWitness.LeaseCanBeRenewedAndReleased` | cmd/loom-mills-operator/handlers_safety_lease.go:185-256 | nor are those about renewals: a run, for every target, in which the lease is validated, renewed and then released |
| `AdmissionDecisions.AdmitDecides` | cmd/loom-mills-operator/server.go:517-534 | a guarded handler whose check finds the policy there and enabled and no lease in force is running after its next own step, with the count one higher; any other is gone and nobody is counted, however the steps are interleaved |
| `AdmissionDecisions.AdmitGetsIn` | cmd/loom-mills-operator/server.go:517-534 | and it can: at any point of any run where the lock is free, the policy open and no lease in force, a guarded handler gets in at once |
| `AdmissionDecisions.OperateDecides` | cmd/loom-mills-operator/server.go:538-551 | an operational handler is counted in exactly when no lease is in force, whatever the policy |
| `AdmissionDecisions.HandlerLeaves` | cmd/loom-mills-operator/server.go:529-534 | a handler that leaves takes its one count back |
| `AdmissionDecisions.ExpiredLeaseIsGone` | cmd/loom-mills-operator/handlers_safety_lease.go:42-51 | a lease whose time is up is gone as soon as any request looks, and no later state of the run has its token |
| `AdmissionDecisions.SampleLooks` | cmd/loom-mills-operator/handlers_safety.go:92-109 | a sample records the count it finds and whether a lease is in force, and drops one whose time is up |
| `AdmissionDecisions.RequestEnters` | cmd/loom-mills-operator/handlers_safety_lease.go:99-134 | every request that is not answered on the spot starts at its own entry point, with nothing changed |
| `AdmissionDecisions.RecheckReads` | cmd/loom-mills-operator/handlers_safety_lease.go:165-167 | a proof judged good is rechecked under the policy of that moment |
| `AdmissionDecisions.LeaseRequestGoesOn` | cmd/loom-mills-operator/handlers_safety_lease.go:117-134 | a lease request that finds none in force, also because the one there has run out, goes on to the policy |
| `AdmissionDecisions.LeaseInstalledInWindow` | cmd/loom-mills-operator/handlers_safety_lease.go:134-150 | the lease is installed exactly when the policy is there, closed and has workflows enabled, and a token could be made: for the target asked for, for ninety seconds, not yet validated |
| `AdmissionDecisions.RenewalGoesOn` | cmd/loom-mills-operator/handlers_safety_lease.go:190-197 | a renewal goes on exactly from a validated lease in force with its token |
| `AdmissionDecisions.RenewalBeginsInWindow` | cmd/loom-mills-operator/handlers_safety_lease.go:198-209 | under a policy that still allows it the lease is extended by ninety seconds and proved anew, and otherwise it is gone |
| `AdmissionDecisions.ReleaseDecides` | cmd/loom-mills-operator/handlers_safety_lease.go:241-256 | a release takes away the lease of its token, at once and for good, and leaves any other that is in force |
| `AdmissionDecisions.ClearingDecides` | cmd/loom-mills-operator/handlers_safety_lease.go:152-164 | a failed proof clears its own lease and no other |
| `AdmissionDecisions.RecheckDecides` | cmd/loom-mills-operator/handlers_safety_lease.go:165-183 | a proof ends well exactly when the lease is still in force with its token and the policy object and generation are those it began with; a fresh lease is then validated and a renewed one extended from that moment |
| `AdmissionVerdicts.SampleReads` | cmd/loom-mills-operator/handlers_safety.go:107-109 | the policy and the generation of a sample are those of the instant they are read |
| `AdmissionVerdicts.SampleCompletes` | cmd/loom-mills-operator/handlers_safety.go:110-156 | every field of a sample is what was read for it: the counts, the wiring, the answers of the sources and their sum; the second sample says whether it agrees with the first |
| `AdmissionVerdicts.CountsDecide` | cmd/loom-mills-operator/handlers_safety.go:204-210 | with the durable counts read the second sample begins; without them there is no verdict, and a lease proof clears its lease |
| `AdmissionVerdicts.QuiescentExactly` | cmd/loom-mills-operator/handlers_safety.go:200-218 | a bracketed read is quiescent exactly when the six durable counts are each zero and the two samples are each idle and agree |
| `AdmissionVerdicts.LeaseProofJudged` | cmd/loom-mills-operator/handlers_safety_lease.go:68-93 | a lease proof goes on exactly when the store holds one active workflow run and nothing else, the samples agree and show only the target, the generation is the one it began with, and the target is running; otherwise its lease is cleared |
| `AdmissionVerdicts.CanaryProofJudged` | cmd/loom-mills-operator/handlers_workflow.go:166-178 | a canary's proof goes on exactly when the read is quiescent but for the canary itself, under the policy object and generation it read |
| `AdmissionVerdicts.LookupDecides` | cmd/loom-mills-operator/handlers_workflow.go:129-143 | a free id goes on; a taken one is replayed if the stored run has its identity and refused if not; a failed lookup is refused |
| `AdmissionVerdicts.CanaryEnterDecides` | cmd/loom-mills-operator/handlers_workflow.go:147-155 | a canary is counted in exactly when no lease is in force |
| `AdmissionVerdicts.CanaryPolicyDecides` | cmd/loom-mills-operator/handlers_workflow.go:156-165 | it goes on to its proof exactly when the policy is there, closed and has workflows enabled |
| `AdmissionVerdicts.CanaryRecheckDecides` | cmd/loom-mills-operator/handlers_workflow.go:179-188 | the row is created only if the policy object and generation are still those of the proof, and then it is |
| `AdmissionVerdicts.CreateDecides` | cmd/loom-mills-operator/handlers_workflow.go:194-233 | a free id becomes a running row, a taken one is answered by its identity, and a failing store creates nothing |
| `AdmissionVerdicts.CanaryRereadDecides` | cmd/loom-mills-operator/handlers_workflow.go:195-199 | after creation the start is reported exactly if the policy is still the same, and the fail-safe runs otherwise |
| `AdmissionVerdicts.TerminalizeDecides` | cmd/loom-mills-operator/handlers_workflow.go:199-213 | the fail-safe puts the row into error exactly when the store answers and the row is still running |
| `AdmissionVerdicts.CanaryLeaves` | cmd/loom-mills-operator/handlers_workflow.go:155 | every counted canary takes its count back and keeps its answer |
| `AdmissionVerdicts.ReplayDecides` | cmd/loom-mills-operator/handlers_workflow.go:129-139 | a request that finds its id taken, at its lookup or at its create, ends however it is interleaved as a replay exactly when the stored run has its identity and as refused otherwise, and touches neither rows nor lease nor any count but its own |
| `AdmissionTheorems.CanaryStartedUnderOnePolicy` | cmd/loom-mills-operator/handlers_workflow.go:156-215 | a fresh canary start means that one closed policy object with workflows enabled was in force from the first policy read to the check after creation, and that the quiescence proof with one canary allowed held under it, with all six durable counts at zero |
| `AdmissionTheorems.TerminalizedRunIsError` | cmd/loom-mills-operator/handlers_workflow.go:196-213 | a canary refused because the policy changed during creation has left its run in state error |
| `Operator.OperatorState.CrashLeaseActiveLocked` | cmd/loom-mills-operator/handlers_safety_lease.go:42-51 | answers yes exactly for a lease whose time is not up, and drops one whose time is |
| `Operator.OperatorState.CheckAdmission` | cmd/loom-mills-operator/server.go:517-528 | the check half of the barrier passes exactly with an open policy and no lease in force |
| `Operator.OperatorState.EnterAdmission` | cmd/loom-mills-operator/server.go:529-531 | counts the handler in, exactly when the check passed |
| `Operator.OperatorState.TrackSafetyActivity` | cmd/loom-mills-operator/server.go:538-549 | counts an operational handler in unless a lease is active |
| `Operator.OperatorState.LeaveHandler` | cmd/loom-mills-operator/server.go:531-533 | the deferred decrement takes exactly the one count back |
| `Operator.OperatorState.CountActivity` | cmd/loom-mills-operator/handlers_safety.go:96-106 | the locked part of a sample: the counters and the wiring as of one instant |
| `Operator.OperatorState.LookUpLease` | cmd/loom-mills-operator/handlers_safety_lease.go:117-134 | replay, refuse or go on, according to the lease that stands |
| `Operator.OperatorState.InstallLease` | cmd/loom-mills-operator/handlers_safety_lease.go:134-150 | a new, unvalidated lease object with a fresh token, or a refusal that leaves everything alone |
| `Operator.OperatorState.ClearLease` | cmd/loom-mills-operator/handlers_safety_lease.go:152-158 | clears the lease with this token and no other |
| `Operator.OperatorState.RecheckFence` | cmd/loom-mills-operator/handlers_safety_lease.go:165-177 | the locked recheck that validates, renews or refuses |
| `Operator.OperatorState.LookUpRenewal` | cmd/loom-mills-operator/handlers_safety_lease.go:190-197 | a renewal goes on only from the active, validated lease with its token |
| `Operator.OperatorState.BeginRenewal` | cmd/loom-mills-operator/handlers_safety_lease.go:198-209 | extends the lease object the proof is about, or drops it when the policy no longer allows it |
| `Operator.OperatorState.ReleaseLease` | cmd/loom-mills-operator/handlers_safety_lease.go:241-256 | releases exactly the active lease with this token |
| `Operator.OperatorState.CountCanary` | cmd/loom-mills-operator/handlers_workflow.go:147-155 | counts the canary in unless a lease is active |
| `Operator.OperatorState.CreateCanary` | cmd/loom-mills-operator/handlers_workflow.go:194-233 | creates a running row for a free id; replays a taken id exactly when the identity matches, and refuses it otherwise, leaving the rows alone |
| `Operator.OperatorState.TerminalizeCanary` | cmd/loom-mills-operator/handlers_workflow.go:199-213 | the compare-and-set from running to error, or the failure to do so |
| `Operator.OperatorState.LeaveCanary` | cmd/loom-mills-operator/handlers_workflow.go:155 | the deferred decrement of the canary count |
| `ActivityWiring.RegisterAllExact` | cmd/loom-mills-operator/server.go:433-469 | registering a set of sources leaves no error if and only if all names are non-empty and different and all instances are there and different |
| `ActivityWiring.RegisterAllBinds` | cmd/loom-mills-operator/server.go:451-469 | without an error, every offer is bound under its trimmed name and nothing else is |
| `ActivityWiring.ErrorSticks` | cmd/loom-mills-operator/server.go:451-469 | a wiring error once noted is not lost by registering more |
| `ActivityWiring.CompleteMeansAllSix` | cmd/loom-mills-operator/server.go:496-511 | wiring that passes as complete binds the six required names to six different instances |
| `ActivityWiring.SourceRegistry.RegisterActivitySourceLocked` | cmd/loom-mills-operator/server.go:451-469 | the loop over the registered instances finds a duplicate if there is one; the registry stays well formed |
| `ActivityWiring.SourceRegistry.WithActivitySources` | cmd/loom-mills-operator/server.go:433-442 | replaces the whole set with a clean error and one new generation |
| `ActivityWiring.SourceRegistry.AddActivitySource` | cmd/loom-mills-operator/server.go:444-449 | adds one source and counts a generation |
| `ActivityWiring.SourceRegistry.BeginActivitySourceWiring` | cmd/loom-mills-operator/server.go:488-494 | wiring becomes required and not ready, in a new generation |
| `ActivityWiring.SourceRegistry.MarkActivitySourcesReady` | cmd/loom-mills-operator/server.go:496-501 | ready exactly when no error was noted and all required names are registered |
| `ActivityWiring.MissingFrom` | cmd/loom-mills-operator/server.go:503-511 | lists exactly the required names that are not registered, in order |
| `WorkflowLifecycle.TransitionsAllowed` | cmd/loom-mills-operator/handlers_workflow.go:429-534 | under any interleaving of pause, resume and fail on stale loads, committed changes go only running to paused and back, and from either to error; running rows have no pause time, paused rows have one, failed rows have an end time |
| `WorkflowLifecycle.EndIsFinal` | cmd/loom-mills-operator/handlers_workflow.go:510-534 | a run once failed or finished never changes again |
| `WorkflowLifecycle.HandlerDecides` | cmd/loom-mills-operator/handlers_workflow.go:460-534 | a handler goes on with the row it loads exactly from the states its action is for, with that action's changes and no others |
| `WorkflowLifecycle.CommitDecides` | cmd/loom-mills-operator/handlers_workflow.go:429-440 | the commit writes the four lifecycle columns exactly if the state is still the one loaded |
| `WorkflowLifecycle.ActionCarriedOut` | cmd/loom-mills-operator/handlers_workflow.go:429-534 | from any point of any run a pause, resume or fail on a row it is for can be carried out, and leaves the row as that action says |
| `WorkflowLifecycle.ResumedAtKept` | cmd/loom-mills-operator/handlers_workflow.go:480-495 | the resumption time changes only by a resume, or by a writer whose load had missed a change of it |
| `WorkflowLifecycle.CommitPutsLoadBack` | cmd/loom-mills-operator/handlers_workflow.go:429-495 | a pause or fail that loads the row and commits later, with anything in between, puts the resumption time back to what it was at the load if the state is the one it loaded, and changes nothing otherwise; so it takes a resumption time back exactly when that changed in between and the state came back |
| `WorkflowLifecycle.ResumedAtCanRegress` | cmd/loom-mills-operator/handlers_workflow.go:429-478 | that exception is real: a run in which a stale pause takes a newer resumption time back |
| `WorkflowLifecycle.LoadedRun.Apply` | cmd/loom-mills-operator/handlers_workflow.go:465-473 | what each handler decides and writes into the run it loaded |
| `WorkflowLifecycle.WorkflowRow.CompareAndSetLifecycle` | pkg/mills/store/dao_workflow.go:224-261 | writes the four lifecycle columns exactly when the stored state is still the expected one |
| `PolicyText.OpensKeyMeaning` | cmd/loom-mills-operator/policy_edit.go:129-132 | the key reader accepts a line exactly when it splits into blanks, the key, a colon, and then the end or a blank |
| `PolicyText.TrailerMeaning` | cmd/loom-mills-operator/policy_edit.go:168 | what may stand behind an item: white space and perhaps a comment, and nothing else |
| `PolicyReading.TrimSpaceMeaning` | cmd/loom-mills-operator/policy_edit.go:142-145 | trimming takes away white space at both ends, all of it and nothing else |
| `PolicyReading.SkippedMeaning` | cmd/loom-mills-operator/policy_edit.go:142-145 | a line is passed over exactly when it is white throughout or its first visible character is a comment mark |
| `PolicyReading.IndentMeaning` | cmd/loom-mills-operator/policy_edit.go:138-140 | the indent is the number of blanks in front, and no more |
| `PolicyReading.ItemValueMeaning` | cmd/loom-mills-operator/policy_edit.go:168-193 | a line is a sequence item exactly when it splits into blanks, a dash, blanks and the rest, whose item text is the value |
| `PolicyReading.UnquoteMeaning` | cmd/loom-mills-operator/policy_edit.go:270-276 | a value between two like quotes loses them, and any other is only trimmed |
| `PolicyReading.MapKeyMeaning` | cmd/loom-mills-operator/policy_edit.go:208-240 | a line opens an entry exactly when it splits into blanks, perhaps a quote, the name, perhaps a quote, a colon and a trailer; the name holds neither colon nor quote |
| `PolicyText.ItemTextShortest` | cmd/loom-mills-operator/policy_edit.go:168 | the item reader captures the shortest text after which only a trailer is left |
| `PolicyText.ItemReadsBack` | cmd/loom-mills-operator/policy_edit.go:266-275 | a written item reads back as its own value if and only if the value has neither a double quote nor a comment mark in it |
| `PolicyText.EntryReadsBack` | cmd/loom-mills-operator/policy_edit.go:208-240 | a written map entry is found under its own name if and only if the name is trimmed, has no colon or quote and does not start a comment |
| `ProjectPath.AcceptedPath` | cmd/loom-mills-operator/handlers_projects.go:90-109 | an accepted path comes out without outer white space and slashes, names a group and a slug in plain characters, and is accepted again unchanged |
| `ProjectPath.AcceptedReadable` | cmd/loom-mills-operator/handlers_projects.go:90-109 | every project path the request handler accepts reads back from the policy file both as an item and as an entry |
| `ProjectPath.TrimSlashMeaning` | cmd/loom-mills-operator/handlers_projects.go:95 | trimming takes away slashes at both ends, all of them and nothing else |
| `ProjectPath.AcceptedExactly` | cmd/loom-mills-operator/handlers_projects.go:90-109 | a path is accepted if and only if, trimmed, it is two or more good segments with slashes between them |
| `PolicyBlocks.Block` | cmd/loom-mills-operator/policy_edit.go:153-166 | the scan finds the one end and the one last body line of a block |
| `PolicyBlocks.TargetGrows` | cmd/loom-mills-operator/policy_edit.go:188-205 | a block edited at its end grows by exactly the inserted lines, which become its last body lines |
| `PolicyBlocks.BodyLineStays` | cmd/loom-mills-operator/policy_edit.go:258-264 | every body line of every block is still a body line of that block after the insertion |
| `PolicyBlocks.OtherBlocksKeep` | cmd/loom-mills-operator/policy_edit.go:258-264 | when no body line of the edited block is shallower than what is inserted, blocks other than it and those around it keep their extent |
| `PolicyBlocks.SkippedMoves` | cmd/loom-mills-operator/policy_edit.go:141-152 | a blank or comment line put anywhere moves every block along and changes the extent of none |
| `PolicyBlocks.EnclosingBlocksGrow` | cmd/loom-mills-operator/policy_edit.go:258-264 | the edited block and those around it grow by the inserted lines |
| `PolicyBlocks.RemoveInserted` | cmd/loom-mills-operator/policy_edit.go:258-264 | deleting the inserted lines gives back the original list |
| `PolicyEdit.FindKeyFirst` | cmd/loom-mills-operator/policy_edit.go:125-136 | the key found is the first one from the given line on, and none is missed |
| `PolicyEditLaws.OutcomeOfOne` | cmd/loom-mills-operator/policy_edit.go:174-256 | an insertion has one of four outcomes, decided by its key line and the block under it: no anchor, inline value, already there, or inserted after the last body line |
| `PolicyEditLaws.TargetStable` | cmd/loom-mills-operator/policy_edit.go:125-136 | no insertion moves another one's anchor to a different line of the file |
| `PolicyEditLaws.PresentStays` | cmd/loom-mills-operator/policy_edit.go:189-197 | an item or entry that is there stays there through any other insertion |
| `PolicyIdempotence.SecondPassSkips` | cmd/loom-mills-operator/policy_edit.go:174-256 | the second pass of one insertion skips it if and only if the first did or the name reads back; any other name is inserted again on every pass |
| `PolicyIdempotence.StaysSatisfied` | cmd/loom-mills-operator/policy_edit.go:54-111 | what one insertion has settled, no other insertion unsettles |
| `PolicyIdempotence.PassTwice` | cmd/loom-mills-operator/policy_edit.go:54-111 | for any list of insertions with readable names, a second pass changes no line and reports each as skipped |
| `PolicyIdempotence.AllReadyExactly` | cmd/loom-mills-operator/policy_edit.go:54-111 | a run of insertions succeeds if and only if each of them finds its block, and may insert under it, in the file at hand |
| `PolicyComments.SatisfiedByVisibles` | cmd/loom-mills-operator/policy_edit.go:141-166 | whether an insertion is already settled depends on the visible lines of the file alone, not on its blank and comment lines |
| `PolicyFile.SplitLines` | cmd/loom-mills-operator/policy_edit.go:60 | splitting a file into lines and joining them again gives the file back |
| `PolicyFile.JoinSplits` | cmd/loom-mills-operator/policy_edit.go:109 | joining lines and splitting again gives the lines back, when no line holds a line break |
| `PolicyFile.JoinFlattens` | cmd/loom-mills-operator/policy_edit.go:109 | in general it gives back the parts of every line, in order |
| `PolicyFile.OnboardTwice` | cmd/loom-mills-operator/policy_edit.go:54-111 | applying the same onboarding edit twice is applying it once: identical content, nothing changed, every requested key reported as skipped, for every policy file and every note whose further lines are blank or comments |
| `PolicyFile.AcceptedWellformed` | cmd/loom-mills-operator/handlers_projects.go:94-109 | the condition of that law holds for every project path the request handler accepts, with such a note and one-line caps and paths |
| `PolicyFile.OneLineIsQuiet` | cmd/loom-mills-operator/policy_edit.go:39-41 | a note of one line, as documented, is such a note |
| `PolicyNote.LoudNoteRepeats` | cmd/loom-mills-operator/policy_edit.go:40-42 | any note with a further line that is neither blank nor a comment breaks the law on some policy file, whatever the edit asks for |
| `PolicyNote.QuietNotesExactly` | cmd/loom-mills-operator/policy_edit.go:40-42 | exactly those notes are safe: with one-line names and texts, the edit is idempotent on every policy file it applies to if and only if every further line of its note is blank or a comment |
| `PolicyFraming.EditsOnlyInsert` | cmd/loom-mills-operator/policy_edit.go:54-111 | deleting the inserted lines, latest first, gives back the original lines |
| `PolicyFile.OnboardOnlyInserts` | cmd/loom-mills-operator/policy_edit.go:54-111 | the same for whole files and every edit: the new content is made of lines from which deleting the inserted ones gives back the old content, byte for byte |
| `PolicyRequests.OnboardWrites` | cmd/loom-mills-operator/policy_edit.go:54-111 | what an edit writes, on every file it applies to: the project last under `demand_projects`; if asked, last under the first `projects` behind the first `eligible_label`; an entry under `protected_paths_per_repo` with one quoted item for each path that is not blank, in order; one under `per_repo_overrides` with the money cap as `max_usd_per_run` and the daily runs as `max_runs_per_day`. Each carries the note above it, each is left out exactly when the project is there already, and the report says which; afterwards the file has them all |
| `PolicyRequests.OnboardAppliesExactly` | cmd/loom-mills-operator/policy_edit.go:54-111 | an edit applies if and only if the trimmed project is not empty and the file has, for each part asked for, its block with a key line that is no inline list or map |
| `PolicyRequests.ItemWritten` | cmd/loom-mills-operator/policy_edit.go:174-206 | a request for a sequence item makes it the new last item, at the depth of the last line, under the note, or leaves the file alone exactly when the item is there |
| `PolicyRequests.EntryWritten` | cmd/loom-mills-operator/policy_edit.go:213-256 | a request for a map entry makes it the new last entry, at the depth of the first one, with its body one level deeper, or leaves the file alone exactly when the entry is there |
| `PolicyRequests.PathsAre` | cmd/loom-mills-operator/policy_edit.go:80-88 | the body of a protected-paths entry has one quoted item for each path that is not blank, trimmed, in order |
| `PolicyFraming.ItemsGain` | cmd/loom-mills-operator/policy_edit.go:174-206 | a sequence insertion makes the block's items the old ones followed by the new one, which was not among them |
| `PolicyFraming.EntryGained` | cmd/loom-mills-operator/policy_edit.go:213-256 | a map insertion gives the block exactly one entry of that name, at its end, with exactly the requested body |
| `PolicyFraming.EnclosingBody` | cmd/loom-mills-operator/policy_edit.go:258-264 | blocks around the edited one keep their body lines and gain the inserted ones at one place |
| `PolicyFraming.OtherBody` | cmd/loom-mills-operator/policy_edit.go:258-264 | when no body line of the edited block is shallower than what is inserted, every block that is not it and not around it is moved as a whole, with the same lines in it |
| `PolicyBypass.BypassedBlocksKeep` | cmd/loom-mills-operator/policy_edit.go:54-111 | over a whole run, a block that no insertion aims at or goes inside of keeps its key line and its body |
| `PolicyBypass.BypassedFromFile` | cmd/loom-mills-operator/policy_edit.go:54-111 | the original file alone shows this: it is enough that in it the blocks aimed at are no deeper inside than what they gain, that no later one is or holds an earlier one, and that the block in question is none of them and holds none of them |
| `PolicyFile.OnboardKeepsOthers` | cmd/loom-mills-operator/policy_edit.go:54-111 | for a whole onboarding edit: if the file shows the blocks aimed at to be flat and not nested, every block that is none of them and holds none of them keeps its key line and its body |
| `PolicyEditor.FindKeyLine` | cmd/loom-mills-operator/policy_edit.go:125-136 | returns the first line at or after the given one that opens the key, or -1 when there is none |
| `PolicyEditor.BlockEnd` | cmd/loom-mills-operator/policy_edit.go:153-166 | the loop returns the end and the last body line of the block |
| `PolicyEditor.AppendSequenceItem` | cmd/loom-mills-operator/policy_edit.go:174-206 | finds, refuses, skips or inserts, exactly as specified |
| `PolicyEditor.FindEntry` | cmd/loom-mills-operator/policy_edit.go:226-241 | the loop that learns the entry indent finds the entry if and only if it is there |
| `PolicyEditor.AppendMapEntry` | cmd/loom-mills-operator/policy_edit.go:213-256 | finds, refuses, skips or inserts a map entry, exactly as specified |
| `PolicyEditor.PolicyEditResult.Record` | cmd/loom-mills-operator/policy_edit.go:113-119 | appends the key to one of the two ledgers and leaves the other alone |
| `PolicyEditor.ApplyRequested` | cmd/loom-mills-operator/policy_edit.go:63-107 | all requested insertions in order, or the error of the first that fails |
| `PolicyEditor.ApplyOnboardPolicyEdit` | cmd/loom-mills-operator/policy_edit.go:54-111 | the whole edit yields exactly the content and ledgers that the laws above are about |
| `SessionDrain.StepKeepsInv` | cmd/custom-server/streamable_http.go:216-242 | every step keeps each published session in exactly one place: registered, in one remover's hands, or closed once |
| `SessionDrain.ClosedAtMostOnce` | cmd/custom-server/streamable_http.go:212-242 | whatever the interleaving, no session is closed twice and none is closed while still registered |
| `SessionDrain.NoSessionSurvives` | cmd/custom-server/main.go:575-589 | once the drain has taken its snapshot and nobody is publishing or closing, the registry is empty and every session ever published was closed exactly once |
| `SessionDrain.LateSessionIsNeverServed` | cmd/custom-server/streamable_http.go:106-114 | after the shutdown flag is up nobody starts to be served: a session not being served at that moment is not served at any later one |
| `SessionDrain.FlagDecides` | cmd/custom-server/streamable_http.go:60-114 | with the flag up a new client is turned away and a session not yet served is taken back; with it down both go on |
| `SessionDrain.SessionComesUp` | cmd/custom-server/streamable_http.go:222-228 | a session that starts is new, is put into the table, and is then made known to the drain |
| `SessionDrain.SessionGoesDown` | cmd/custom-server/streamable_http.go:229-242 | whoever takes a session out of the table unregisters it and runs its close function once more, and nobody else does |
| `SessionDrain.ClientIsServed` | cmd/custom-server/streamable_http.go:96-114 | from any point of any run with the flag down, a new client's session can be published, made known and served |
| `SessionDrain.DeletedIsClosed` | cmd/custom-server/streamable_http.go:154-165 | a registered session that is deleted is out of both tables and closed once |
| `SessionObjects.Session.Close` | cmd/custom-server/streamable_http.go:212-214 | the close function runs the first time and never again |
| `SessionObjects.DrainRegistry.Snapshot` | cmd/custom-server/main.go:376-382 | one close function for every entry, none left out and none twice |
| `SessionObjects.StreamableHandler.Put` | cmd/custom-server/streamable_http.go:222-226 | the first half of publishing: the session is in the table |
| `SessionObjects.StreamableHandler.Register` | cmd/custom-server/streamable_http.go:227 | the second half: the drain knows it |
| `SessionObjects.StreamableHandler.Take` | cmd/custom-server/streamable_http.go:229-239 | whoever takes the session out of the table gets it, and nobody else does |
| `SessionObjects.StreamableHandler.RemoveAndClose` | cmd/custom-server/streamable_http.go:229-242 | the session is gone from both tables and closed once, and no other session is touched |
| `SharedChild.RequestIdInjective` | cmd/custom-server/main.go:225-226 | two rewritten request ids are equal only for the same generation and the same counter value |
| `SharedChildLaws.StepKeepsInv` | cmd/custom-server/main.go:89-317 | every step of every client, and every exit of a child, keeps the supervisor's invariant |
| `SharedChildLaws.CacheIsCurrent` | cmd/custom-server/main.go:89-115 | a cached initialize response was produced by the current child, and the generation counts the children started |
| `SharedChildLaws.RequestIdsNeverRepeat` | cmd/custom-server/main.go:224-227 | rewritten request ids never repeat, across every restart |
| `SharedChildLaws.ReplyIsOwn` | cmd/custom-server/main.go:206-246 | every caller gets its own id back, and unless it is the cached initialize response, the reply to its own request from the child it was sent to |
| `SharedChildLaws.NoStartWhileDraining` | cmd/custom-server/main.go:103-105 | no child is started once the drain has begun |
| `SharedService.DeliveryDecides` | cmd/custom-server/main.go:188-199 | while draining exactly initialize and every tool call but the poll are refused; everything else is delivered if the gate admits it |
| `SharedService.CacheDecides` | cmd/custom-server/main.go:206-217 | an initialize is answered from the cache, under its own id, whenever there is a cached reply, and any other call goes to the child |
| `SharedService.ChildDecides` | cmd/custom-server/main.go:89-115 | a call gets the child that is alive; without one, a new child with nothing cached about it, unless draining or starting fails |
| `SharedService.RequestGoesOut` | cmd/custom-server/main.go:223-227 | the request goes out under `ws-`, the generation and the next counter value |
| `SharedService.ReplyDecides` | cmd/custom-server/main.go:227-237 | a reply comes back under the caller's id; a caller that goes away fails alone; a broken call costs the child |
| `SharedService.InitializeStored` | cmd/custom-server/main.go:236-245 | the reply to an initialize is kept for the next one if its child is still the current one, and given to the caller |
| `SharedService.BrokenChildGoes` | cmd/custom-server/main.go:271-279 | a broken child is dropped with everything cached about it, unless it has been replaced, and is killed |
| `SharedService.NotifyDecides` | cmd/custom-server/main.go:248-259 | the first initialized notification raises the flag and goes on, the others are done while it is up, and any other kind goes on |
| `SharedService.NotifyGetsChild` | cmd/custom-server/main.go:260-263 | a notification that goes on goes to the child that is alive or newly started |
| `SharedService.NotifySent` | cmd/custom-server/main.go:264-268 | a send that works tells the child, and one that fails costs it |
| `SharedService.OutsideDecides` | cmd/custom-server/main.go:165-186 | draining starts and drops nothing; closing drops the child and what is cached and kills it |
| `SharedService.CallIsAnswered` | cmd/custom-server/main.go:206-246 | from any point of any run a new client's call to a live child, also during a drain if it may be delivered, can go all the way to its answer under the client's own id |
| `SharedInitialize.InitializedAgainOnlyAfterCancel` | cmd/custom-server/main.go:206-243 | a second initialize request goes to a child only after every earlier one to it has ended because its caller went away; none of them was answered to its caller or broke |
| `SharedInitialize.AnsweredOncePerChild` | cmd/custom-server/main.go:206-243 | however many clients initialize, at most one initialize call per child is answered to its caller |
| `SharedInitialize.OneChildAskedTwice` | cmd/custom-server/main.go:228-235 | the second request is real: a run in which one live child, never replaced, is asked to initialize twice because the first caller went away |
| `SharedChildLaws.InitializedTwiceOnlyWhenStale` | cmd/custom-server/main.go:248-269 | of two initialized notifications sent to one child, one was let through by a flag raised in an earlier epoch |
| `SharedChildLaws.OneChildToldTwice` | cmd/custom-server/main.go:248-269 | that case is real: a run in which one child is told twice |
| `SharedChildLaws.NobodyNewWhileUp` | cmd/custom-server/main.go:251-259 | while the flag is up nobody new is let through: until the epoch ends, every notification that reaches a child was already on its way when the flag was up |
| `SharedChildLaws.ToldAgainWhileDown` | cmd/custom-server/main.go:251-269 | while the flag is down, whatever the live child was told came from earlier epochs, and any client can tell it once more |
| `Supervisor.SharedChildSupervisor.ChildForRequestLocked` | cmd/custom-server/main.go:89-115 | the live child, or a cleared state and a new child, or a refusal while draining |
| `Supervisor.SharedChildSupervisor.AdmitDelivery` | cmd/custom-server/main.go:188-199 | while draining, initialize and every tool call but the poll are refused |
| `Supervisor.SharedChildSupervisor.CachedInitialize` | cmd/custom-server/main.go:211-217 | an initialize is answered from the cache, under the caller's id, exactly when there is a cached response |
| `Supervisor.SharedChildSupervisor.RewriteRequest` | cmd/custom-server/main.go:223-227 | the next counter value goes into the id and onto the record, with the kind of request |
| `Supervisor.SharedChildSupervisor.StoreInitialize` | cmd/custom-server/main.go:238-244 | the response is cached only if its child is still the current one |
| `Supervisor.SharedChildSupervisor.ClaimInitializedLocked` | cmd/custom-server/main.go:251-259 | the first to find the flag down raises it and goes on |
| `Supervisor.SharedChildSupervisor.DiscardLocked` | cmd/custom-server/main.go:271-278 | drops the child and what is cached about it, unless another child has taken its place |
| `Supervisor.SharedChildSupervisor.BeginDrainLocked` | cmd/custom-server/main.go:167-169 | draining is set and the current child is the one to be signalled |
| `Supervisor.SharedChildSupervisor.Close` | cmd/custom-server/main.go:307-317 | clears the child and everything cached about it |
| `CanaryMerge.BranchPerRun` | cmd/loom-mills-operator/workflow_merger.go:44-48 | different runs merge from different branches |
| `CanaryMerge.StepKeepsInv` | cmd/loom-mills-operator/workflow_merger.go:50-107 | every effect, landed, lost or not landed, and every crash keeps at most one merged request per branch and every request opened with the proof file in it |
| `CanaryMerge.MergedAtMostOnce` | cmd/loom-mills-operator/workflow_merger.go:50-107 | over any number of crashes and replays at most one request of the run's branch is ever merged, with the proof in it |
| `CanaryMerge.AfterMerge` | cmd/loom-mills-operator/workflow_merger.go:57-65 | a merged request stays merged, and no replay opens another one |
| `CanaryMerge.SuccessesAgree` | cmd/loom-mills-operator/workflow_merger.go:57-107 | every successful return, in whichever attempt, names the one merged request |
| `CanaryMerge.LostMergeIsAdopted` | cmd/loom-mills-operator/workflow_merger.go:57-65 | a run in which the first attempt merges and crashes before it learns of it, and the replay adopts that very merge |
| `CanaryMerge.OpenRequestAdopted` | pkg/mills/clients/gitlab.go:484-542 | an open request that is found is taken up as it is, and with none found one is opened |
| `CanaryMerge.CreateOpensOrAdopts` | pkg/mills/clients/gitlab.go:467-542 | creating opens one request at the head of the branch if there is no open one, and otherwise goes to look for that one |
| `CanaryMerge.ReconcileDecides` | pkg/mills/clients/gitlab.go:1287-1296 | a merged request is success, an open one at the authorized head is merged, and anything else ends the attempt |
| `CanaryMerge.MergeLands` | pkg/mills/clients/gitlab.go:1287-1296 | a merge effect that lands merges an open request at the authorized head and nothing else |
| `CanaryMerger.ForgeClient.MergedMRForBranch` | pkg/mills/clients/gitlab.go:667-700 | finds the latest merged request of the branch, or that there is none |
| `CanaryMerger.ForgeClient.FindOpenMRForBranch` | pkg/mills/clients/gitlab.go:484-493 | finds an open request of the branch, or that there is none |
| `CanaryMerger.ForgeClient.EnsureBranch` | pkg/mills/clients/gitlab_repo.go:125-147 | adopts an existing branch, and creates it at most once |
| `CanaryMerger.ForgeClient.EnsureFileOnBranch` | pkg/mills/clients/gitlab_repo.go:193-227 | adopts an existing proof file, and commits it at most once |
| `CanaryMerger.ForgeClient.CreateMR` | pkg/mills/clients/gitlab.go:467-542 | adopts an open request; opens one exactly when the branch has none and the effect lands, and never leaves a second one open |
| `CanaryMerger.ForgeClient.Merge` | pkg/mills/clients/gitlab.go:1287-1296 | reconciles, merges and reconciles again; success means the request is merged at the authorized head, and an open one at that head whose first merge lands is a success |
| `CanaryMerger.ForgeClient.MergeCanary` | cmd/loom-mills-operator/workflow_merger.go:50-107 | one whole attempt, wherever it breaks off: at most one merged request afterwards, a success names it, once one is merged every attempt reports that one and changes nothing, and an attempt whose effects land on a branch with nothing in its way merges |
| `SpinAsync.StepKeepsInv` | cmd/loom-mills-operator/handlers_spin_async.go:129-213 | every step keeps the worker count equal to the live workers and the slot count equal to the slots held |
| `SpinAsync.OrphanStaysVisible` | cmd/loom-mills-operator/handlers_spin_async.go:160-213 | from acceptance until its worker has exited a spin shows in its row or in the count of workers, also after the watchdog has fired |
| `SpinAsync.SlotsAndFinishes` | cmd/loom-mills-operator/handlers_spin_async.go:136-142 | no more slots are held than there are, and each spin is finished at most once, and once when its runner returns |
| `SpinAsync.RowStaysTerminal` | cmd/loom-mills-operator/handlers_spin_async.go:227-260 | a terminal row stays terminal |
| `SpinAsync.FinishRecords` | cmd/loom-mills-operator/handlers_spin_async.go:227-260 | the row says succeeded exactly for a clean end, timeout exactly for the deadline and failed exactly for any other error, once it is stored |
| `SpinAsync.SuccessIsEarned` | cmd/loom-mills-operator/handlers_spin_async.go:160-213 | a row that says it succeeded has a worker that reported a clean end; neither the watchdog nor a shutdown makes one |
| `SpinAsync.SpinStarts` | cmd/loom-mills-operator/handlers_spin_async.go:129-167 | with a slot free a new spin can be accepted and set to work, with its row running, its worker counted and its slot held |
| `SpinAsync.SpinSucceeds` | cmd/loom-mills-operator/handlers_spin_async.go:160-213 | a spin at work that ends well can come to its success, with the worker gone and the slot free again |
| `SpinAsync.QuietMeansNoWorker` | cmd/loom-mills-operator/handlers_spin_async.go:160-213 | rows all terminal at one instant and no workers counted at a later one mean that none of those spins has a worker then or ever after |
| `SpinAsync.SpinPool.Acquire` | cmd/loom-mills-operator/handlers_spin_async.go:136-142 | waits exactly while the pool is full and the context has not ended; takes one slot only when one is free, gives up only once the context has ended, and never exceeds the capacity |
| `SpinAsync.SpinRun.FinishSpin` | cmd/loom-mills-operator/handlers_spin_async.go:227-248 | sets the terminal status that belongs to the way the spin ended, with an end time |
| `SpinAsync.MergeRequestFrames` | cmd/loom-mills-operator/handlers_spin_async.go:304-320 | exactly the non-empty trimmed names asked for, each once, in the order of first mention |
| `HookStream.AttentionMeaning` | cmd/loom/cmd_agent_mrstatus.go:270-293 | the attention set keeps every request in an attention state as often as it was there, and nothing else |
| `HookStream.EmitsOnTextChange` | cmd/loom/cmd_agent_mrstatus.go:319-335 | the hook injects at a call exactly when something needs attention and its text differs from the one of the call before |
| `HookStream.EmitsOnSetChange` | cmd/loom/cmd_agent_mrstatus.go:294-335 | in terms of sets: exactly when the attention set is not empty and is not the one of the call before, in whatever order it arrives |
| `HookStream.OrderIndependent` | cmd/loom/cmd_agent_mrstatus.go:434-446 | with different keys the same set in any order sorts to the same list, and so has the same fingerprint |
| `HookStream.SortedMeaning` | cmd/loom/cmd_agent_mrstatus.go:434-446 | sorting keeps the requests and puts them by repository and within one by number |
| `HookStream.BriefLists` | cmd/loom/cmd_agent_mrstatus.go:208-222 | the brief is empty for no requests and has one line more, with number, state, reason or dash and address, for one request more |
| `HookStream.TextInjective` | cmd/loom/cmd_agent_mrstatus.go:424-432 | the text behind the fingerprint determines the list, when no field contains the separator that ends it |
| `HookStream.SeparatorsMatter` | cmd/loom/cmd_agent_mrstatus.go:424-432 | without that condition two different sets can share one text |
| `HookStream.FilterAttention` | cmd/loom/cmd_agent_mrstatus.go:284-293 | the loop keeps exactly the requests in an attention state, in order |
| `HookStream.RenderBrief` | cmd/loom/cmd_agent_mrstatus.go:208-222 | one line per request, in order, with a dash for an empty reason |
| `HookStream.DeltaCache.DeltaGate` | cmd/loom/cmd_agent_mrstatus.go:400-418 | changed exactly when the cached fingerprint is another one, which then replaces it |
| `HookStream.DeltaCache.RenderHook` | cmd/loom/cmd_agent_mrstatus.go:319-335 | injects the brief when the set changed and is not blank; the cache moves on in any case, also for an unknown vendor |
| `LegacyBackfill.PatchTargetOf` | cmd/loom-mills-operator/legacy_mr_project_backfill.go:138-193 | there is a target if and only if the run has a positive number and all successful stages with a URL, at least one, are bound to this authority and number and agree on the project; it is the latest of them, with its own URL and project |
| `LegacyBackfill.ReadReference` | cmd/loom-mills-operator/legacy_mr_project_backfill.go:155-175 | the checks one after the other accept a stage exactly when its URL is bound to the authority and carries the run's number twice |
| `LegacyBackfill.EveryCallPrepared` | cmd/loom-mills-operator/legacy_mr_project_backfill.go:95-118 | a request is verified only right after the cursor has moved past its run, and patched only right after it was verified |
| `LegacyBackfill.BackfillOne` | cmd/loom-mills-operator/legacy_mr_project_backfill.go:84-134 | for one candidate the cursor is advanced; exactly if it has a target that target is verified, and exactly if that succeeds it is patched; it is settled in the way its answers say, or the pass is aborted exactly when an answer says so |
| `LegacyBackfill.BackfillLegacyMRProjects` | cmd/loom-mills-operator/legacy_mr_project_backfill.go:58-136 | the log is that of each candidate in turn; a pass nobody cancels completes and settles every candidate in the one way its answers say, with each counter the number of calls answered that way; an aborted pass leaves at most one in no counter |
| `LegacyBackfill.ScannedAreCandidates` | cmd/loom-mills-operator/legacy_mr_project_backfill.go:84-90 | the number scanned is the number of candidates up to where the pass got |
| `SubstrateEdges.EdgesAlternate` | cmd/loom-mills-operator/main.go:1030-1062 | whatever the reports and whichever recordings fail, the edges of each capability have a standing, and the recorder's memory is what they say |
| `SubstrateEdges.StandingMeaning` | cmd/loom-mills-operator/main.go:1044-1057 | having a standing is strictly alternating, red first, each recovery with the time of its own red edge |
| `SubstrateEdges.RowRecorded` | cmd/loom-mills-operator/main.go:1037-1060 | a red row of a capability not held red records a red edge, a green row of one held red records the recovery from that very time, if the recording succeeds, and nothing else is recorded |
| `SubstrateEdges.MemoryFollowsReport` | cmd/loom-mills-operator/main.go:1030-1062 | after a report whose edges can be recorded a capability is held red exactly if the last thing said of it was red, or nothing was said and it was red before |
| `SubstrateEdges.EdgeRecorder.RecordReport` | cmd/loom-mills-operator/main.go:1037-1060 | the loop over a report records exactly the specified edges |
| `SquadRanking.SortCandidates` | cmd/loom-mills-operator/handlers_squads.go:439-450 | the in-place insertion sort yields an ordered permutation of its input |
| `SquadRanking.RankingUnique` | cmd/loom-mills-operator/handlers_squads.go:383-414 | with different squad names the ranking is the same whatever order the manifests are walked in |
| `SquadRanking.EarlierIsBetter` | cmd/loom-mills-operator/handlers_squads.go:452-460 | every earlier row has the higher confidence, then the longer path class, then the earlier name |
| `TextOrder.OrderedUnique` | cmd/loom/cmd_agent_mrstatus.go:434-446 | two ordered arrangements of the same elements are the same |
| `TextOrder.BeforeMeaning` | cmd/loom/cmd_agent_mrstatus.go:434-446 | the order of texts is dictionary order |
| `TextOrder.DigitsMeaning` | cmd/custom-server/main.go:225-226 | a number's digits stand for it, with no zero in front |

## Left out

- HTTP decoding and encoding, status codes, headers, logging and metrics: plumbing around the outcomes modelled.
- The handlers behind the admission wrappers, and those behind the administrator check alone, which the operator does not track.
- Integer widths of generations and counters: they are unbounded here.
- `workflowAdmissionAllowed`, admission suppressors and `workAdmissionOpen`: single expressions over the same state.
- `bumpPolicyChecksum`: the digest is outside the model, and its line pattern may absorb the line break behind it, so the claim about untouched bytes is about the insertions only.
- Number formatting of the two budget caps: they arrive as texts, empty when not requested.
- PolicyText.MapKey: stated for lines that are neither blank nor comments, the only ones the editor reads as entries.
- PolicyBlocks.OtherBlocksKeep: asks the same of the edited block as `PolicyFraming.OtherBody`.
- PolicyFraming.OtherBody: asks that no body line of the edited block is shallower than the first inserted line; files indented the usual way satisfy it.
- PolicyFile.OnboardTwice: the condition on names, caps and paths is sufficient for a whole edit, and exact only in the note; for a single insertion `SecondPassSkips` gives the exact one for names.
- PolicyRequests.OnboardWrites: stated for project names that read back, as every accepted project path does; each part's entry body is that of its own moment, and a later part may add to it only where the file nests the blocks.
- PolicyFile.OnboardKeepsOthers: stated for files in which the blocks aimed at are flat and not nested in an unfavourable order.
- Sequences whose items are indented no deeper than their key: the editor does not see those items, and the model says so, but no law is stated about them.
- The WebSocket handlers, which register with the drain without looking at the shutdown flag again, and their framing, ping and deadlines.
- Process spawning, signals and pipes; the notification fan-out to subscribers; the wait for deliveries at the end of a drain.
- CanaryMerger.ForgeClient.Merge: the pipeline recovery between two merge attempts, the client's own close-and-reopen cycle and the locked state are not in this method, where an attempt is a reconciliation followed by a merge request; closing and reopening are events of the step system in `CanaryMerge`.
- CanaryMerger.ForgeClient.CreateMR: nothing else happens to the forge during this method, so the adoption after a duplicate was refused is in the step system only.
- CanaryMerge.StepKeepsInv: the head of a merge request is the commit it was opened at, since nobody else pushes the branch.
- The queue bound of asynchronous spins, which is checked before the row is written and can be overrun by concurrent requests.
- LegacyBackfill.PatchTargetOf: how a URL is parsed and a project made canonical is given from outside; a reference bound to a project names a non-empty one.
- SquadRanking.SortCandidates: confidences are real numbers, so the case of a confidence that is not a number does not arise.
- Router scoring, success rates and manifests of the squads; capability reports; the durable stores themselves.
- Reports, listings, prompt builders, backend selection, the command line apart from the hook, and the sign-in flow.
