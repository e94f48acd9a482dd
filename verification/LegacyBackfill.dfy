/** Backfilling the project of legacy merge requests: which stage is patched, and what one pass accounts for. */
module LegacyBackfill {
  import opened Basics

  // --- The patch target of one run ---

  datatype Url = NoUrl | NotText | Text(text: string)

  /**
   A stage result; its URL text has lost surrounding white space, and `iid` is its recorded request number,
   when that is a positive whole number.
   */
  datatype Stage = Stage(id: int, name: string, succeeded: bool, url: Url, iid: Option<int>, startedAt: int, attempt: int)

  /** A project path; the URL library never binds a reference to an empty one. */
  type Project = s: string | s != "" witness "group/project"

  /** A reference read from a URL; it is bound to a project only if the URL names one. */
  datatype Ref = Ref(project: Option<Project>, authority: string, iid: int)

  datatype PatchTarget = PatchTarget(index: nat, project: string, url: string)

  /** What the URL library says: how a URL reads as a reference, and the canonical form of a project. */
  datatype Urls = Urls(parse: string -> Option<Ref>, canon: string -> string)
  {
    predicate Same(a: string, b: string) {
      canon(a) != "" && canon(a) == canon(b)
    }
  }

  predicate Relevant(stage: Option<Stage>) {
    stage.Some? && stage.value.name == "mr" && stage.value.succeeded && stage.value.url != NoUrl
  }

  function UrlOf(stage: Stage): string {
    if stage.url.Text? then stage.url.text else ""
  }

  /** The stage's own URL is readable, belongs to the configured authority and carries the run's number twice. */
  predicate Bound(u: Urls, stage: Stage, iid: int, authority: string) {
    var ref := u.parse(UrlOf(stage));
    && stage.url.Text? && UrlOf(stage) != "" && ref.Some? && ref.value.project.Some? && ref.value.authority != ""
    && ref.value.authority == authority && ref.value.iid == iid && stage.iid == Some(iid)
  }

  function ProjectOf(u: Urls, stage: Stage): string {
    var ref := u.parse(UrlOf(stage));
    if ref.Some? && ref.value.project.Some? then ref.value.project.value else ""
  }

  ghost predicate At(stages: seq<Option<Stage>>, k: int) {
    0 <= k < |stages| && Relevant(stages[k])
  }

  ghost predicate First(stages: seq<Option<Stage>>, f: int) {
    At(stages, f) && forall k | At(stages, k) :: f <= k
  }

  /** Later start, or same start and higher attempt. */
  predicate After(a: Stage, b: Stage) {
    a.startedAt > b.startedAt || (a.startedAt == b.startedAt && a.attempt > b.attempt)
  }

  /** All relevant stages up to `n` are bound, and agree with the first of them on the project. */
  ghost predicate AgreeUpTo(u: Urls, stages: seq<Option<Stage>>, iid: int, authority: string, n: int) {
    && (forall k | At(stages, k) && k < n :: Bound(u, stages[k].value, iid, authority))
    && (forall f, k | First(stages, f) && At(stages, k) && f < k < n ::
          u.Same(ProjectOf(u, stages[f].value), ProjectOf(u, stages[k].value)))
  }

  /** The latest relevant stage below `n`, the earliest of those if several are equally late. */
  ghost predicate Latest(stages: seq<Option<Stage>>, t: int, n: int) {
    && At(stages, t) && t < n
    && (forall k | At(stages, k) && k < n :: !After(stages[k].value, stages[t].value))
    && (forall k | At(stages, k) && k < t :: After(stages[t].value, stages[k].value))
  }

  ghost predicate TargetAt(u: Urls, stages: seq<Option<Stage>>, t: PatchTarget, n: int) {
    Latest(stages, t.index, n) && t.url == UrlOf(stages[t.index].value) && t.project == ProjectOf(u, stages[t.index].value)
  }

  /** What the scan knows before stage `i`; `first` is the first relevant stage, or -1. */
  ghost predicate SoFar(u: Urls, stages: seq<Option<Stage>>, iid: int, authority: string, i: int, first: int, project: string,
                        target: Option<PatchTarget>) {
    && i <= |stages| && AgreeUpTo(u, stages, iid, authority, i)
    && (target.None? <==> first == -1) && (project == "" <==> first == -1)
    && (first == -1 ==> forall k | At(stages, k) :: i <= k)
    && (first != -1 ==> First(stages, first) && first < i && project == ProjectOf(u, stages[first].value))
    && (target.Some? ==> TargetAt(u, stages, target.value, i))
  }

  lemma SkipStage(u: Urls, stages: seq<Option<Stage>>, iid: int, authority: string, i: nat, first: int, project: string,
                  target: Option<PatchTarget>)
    requires SoFar(u, stages, iid, authority, i, first, project, target) && i < |stages| && !Relevant(stages[i])
    ensures SoFar(u, stages, iid, authority, i + 1, first, project, target)
  {
    assert forall k | At(stages, k) :: k < i + 1 ==> k < i;
  }

  lemma TakeFirst(u: Urls, stages: seq<Option<Stage>>, iid: int, authority: string, i: nat)
    requires SoFar(u, stages, iid, authority, i, -1, "", None) && At(stages, i) && Bound(u, stages[i].value, iid, authority)
    ensures var p := ProjectOf(u, stages[i].value);
      SoFar(u, stages, iid, authority, i + 1, i, p, Some(PatchTarget(i, p, UrlOf(stages[i].value))))
  {
    assert forall k | At(stages, k) :: k < i + 1 ==> k == i;
  }

  lemma TakeNext(u: Urls, stages: seq<Option<Stage>>, iid: int, authority: string, i: nat, first: int, project: string,
                 target: PatchTarget, next: PatchTarget)
    requires SoFar(u, stages, iid, authority, i, first, project, Some(target)) && At(stages, i)
    requires Bound(u, stages[i].value, iid, authority) && u.Same(project, ProjectOf(u, stages[i].value))
    requires next == if After(stages[i].value, stages[target.index].value)
                     then PatchTarget(i, ProjectOf(u, stages[i].value), UrlOf(stages[i].value)) else target
    ensures SoFar(u, stages, iid, authority, i + 1, first, project, Some(next))
  {
    assert forall k | At(stages, k) :: k < i + 1 ==> k < i || k == i;
    assert forall f | First(stages, f) :: f == first;
  }

  /** Stages up to the first one that is not bound, or names another project, leave no target. */
  lemma Rejected(u: Urls, stages: seq<Option<Stage>>, iid: int, authority: string, i: nat, first: int, project: string,
                 target: Option<PatchTarget>)
    requires SoFar(u, stages, iid, authority, i, first, project, target) && At(stages, i)
    requires !Bound(u, stages[i].value, iid, authority) || (project != "" && !u.Same(project, ProjectOf(u, stages[i].value)))
    ensures !AgreeUpTo(u, stages, iid, authority, |stages|)
  {
    if first != -1 {
      assert First(stages, first) && first < i;
    }
  }

  /**
   The target, exactly: there is one if and only if the run has a positive number, some successful stage
   carries a URL, and all that do are bound to this authority and number and agree on the project. It is
   then the latest such stage, with that stage's own URL and project.
   */
  method PatchTargetOf(u: Urls, iid: Option<int>, stages: seq<Option<Stage>>, authority: string) returns (r: Option<PatchTarget>)
    ensures r.Some? <==> iid.Some? && iid.value > 0 && (exists k :: At(stages, k)) && AgreeUpTo(u, stages, iid.value, authority, |stages|)
    ensures r.Some? ==> TargetAt(u, stages, r.value, |stages|)
  {
    if iid.None? || iid.value <= 0 {
      return None;
    }
    var target: Option<PatchTarget> := None;
    var project := "";
    ghost var first := -1;
    for i := 0 to |stages|
      invariant SoFar(u, stages, iid.value, authority, i, first, project, target)
    {
      if !Relevant(stages[i]) {
        SkipStage(u, stages, iid.value, authority, i, first, project, target);
        continue;
      }
      assert At(stages, i);
      var stage := stages[i].value;
      var bound, found := ReadReference(u, stage, iid.value, authority);
      if !bound || (project != "" && !u.Same(project, found)) {
        Rejected(u, stages, iid.value, authority, i, first, project, target);
        return None;
      }
      if target.None? {
        TakeFirst(u, stages, iid.value, authority, i);
        project, first, target := found, i, Some(PatchTarget(i, found, UrlOf(stage)));
      } else {
        ghost var old' := target.value;
        if After(stage, stages[target.value.index].value) {
          target := Some(PatchTarget(i, found, UrlOf(stage)));
        }
        TakeNext(u, stages, iid.value, authority, i, first, project, old', target.value);
      }
    }
    if first != -1 {
      assert At(stages, first);
    }
    r := target;
  }

  /** The checks on one stage's own URL, one after the other. */
  method ReadReference(u: Urls, stage: Stage, iid: int, authority: string) returns (bound: bool, project: string)
    ensures bound <==> Bound(u, stage, iid, authority)
    ensures bound ==> project == ProjectOf(u, stage)
  {
    var mrUrl := UrlOf(stage);
    if !stage.url.Text? || mrUrl == "" {
      return false, "";
    }
    var ref := u.parse(mrUrl);
    if ref.None? || ref.value.project.None? || ref.value.authority == "" {
      return false, "";
    }
    if ref.value.authority != authority || ref.value.iid != iid {
      return false, "";
    }
    if stage.iid.None? || stage.iid.value != ref.value.iid {
      return false, "";
    }
    return true, ref.value.project.value;
  }

  // --- One pass over the candidates ---

  datatype Run = Run(id: string, iid: Option<int>)

  datatype PatchOutcome = Applied | Present | PatchFailed

  /** What the store and the forge answer for one candidate, and where the context was found cancelled. */
  datatype Answer = Answer(cancelled: bool, advanced: bool, stages: Option<seq<Option<Stage>>>, verified: bool,
                           cancelledInVerify: bool, patch: PatchOutcome, cancelledInPatch: bool)

  datatype Tally = Tally(scanned: nat, patched: nat, present: nat, rejected: nat, verificationError: nat, patchError: nat)

  /** The calls to the outside, in order and with their answers; candidates are named by their position. */
  datatype Call =
    | Advance(run: nat)
    | Verify(run: nat, target: PatchTarget, ok: bool)
    | Patch(run: nat, target: PatchTarget, outcome: PatchOutcome)

  /** A request is verified only right after the cursor has moved past its run, and patched only right after it was verified. */
  ghost predicate InOrder(log: seq<Call>) {
    log == [] || (InOrder(log[..|log| - 1]) && Prepared(log, |log| - 1))
  }

  ghost predicate Prepared(log: seq<Call>, k: nat)
    requires k < |log|
  {
    && (log[k].Verify? ==> k > 0 && log[k - 1] == Advance(log[k].run))
    && (log[k].Patch? ==> k > 0 && log[k - 1] == Verify(log[k].run, log[k].target, true))
  }

  function Advanced(log: seq<Call>): seq<nat> {
    if log == [] then [] else Advanced(log[..|log| - 1]) + (if log[|log| - 1].Advance? then [log[|log| - 1].run] else [])
  }

  /** The candidates below `n` that are there. */
  function Candidates(runs: seq<Option<Run>>, n: nat): seq<nat>
    requires n <= |runs|
  {
    if n == 0 then [] else Candidates(runs, n - 1) + (if runs[n - 1].Some? then [n - 1] else [])
  }

  /** How many calls of a log are of the given kind. */
  function Count(log: seq<Call>, kind: Call -> bool): nat {
    if log == [] then 0 else Count(log[..|log| - 1], kind) + (if kind(log[|log| - 1]) then 1 else 0)
  }

  predicate IsAdvance(c: Call) {
    c.Advance?
  }

  predicate IsVerify(c: Call) {
    c.Verify?
  }

  predicate IsRefusal(c: Call) {
    c.Verify? && !c.ok
  }

  predicate IsApplied(c: Call) {
    c.Patch? && c.outcome == Applied
  }

  predicate IsPresent(c: Call) {
    c.Patch? && c.outcome == Present
  }

  predicate IsFailure(c: Call) {
    c.Patch? && c.outcome == PatchFailed
  }

  lemma CountMore(log: seq<Call>, c: Call, kind: Call -> bool)
    ensures Count(log + [c], kind) == Count(log, kind) + (if kind(c) then 1 else 0)
  {
    assert (log + [c])[..|log|] == log;
  }

  lemma LogMore(log: seq<Call>, c: Call)
    requires InOrder(log)
    requires c.Verify? ==> log != [] && log[|log| - 1] == Advance(c.run)
    requires c.Patch? ==> log != [] && log[|log| - 1] == Verify(c.run, c.target, true)
    ensures InOrder(log + [c]) && Advanced(log + [c]) == Advanced(log) + (if c.Advance? then [c.run] else [])
  {
    assert (log + [c])[..|log|] == log;
  }

  /** In a log in order, whatever was done was prepared by the call right before it. */
  lemma {:induction false} EveryCallPrepared(log: seq<Call>, k: nat)
    requires InOrder(log) && k < |log|
    ensures Prepared(log, k)
  {
    if k < |log| - 1 {
      EveryCallPrepared(log[..|log| - 1], k);
    }
  }

  /** Where the candidate at hand was left when a pass is aborted. */
  datatype Ending = AllSettled | AtCursor | AtVerify | AtPatch

  /**
   The counters are what the answers say: patched, present and failed patches, refused verifications, and
   candidates whose cursor moved and for which nothing was verified. An aborted candidate is in no counter.
   */
  predicate TrueTally(tally: Tally, log: seq<Call>, ending: Ending) {
    && tally.patched == Count(log, IsApplied) && tally.present == Count(log, IsPresent)
    && tally.patchError == Count(log, IsFailure) - (if ending.AtPatch? then 1 else 0)
    && tally.verificationError == Count(log, IsRefusal) - (if ending.AtVerify? then 1 else 0)
    && tally.rejected == Count(log, IsAdvance) - Count(log, IsVerify) - (if ending.AtCursor? then 1 else 0)
  }

  lemma CountsMore(log: seq<Call>, c: Call)
    ensures Count(log + [c], IsApplied) == Count(log, IsApplied) + (if IsApplied(c) then 1 else 0)
    ensures Count(log + [c], IsPresent) == Count(log, IsPresent) + (if IsPresent(c) then 1 else 0)
    ensures Count(log + [c], IsFailure) == Count(log, IsFailure) + (if IsFailure(c) then 1 else 0)
    ensures Count(log + [c], IsRefusal) == Count(log, IsRefusal) + (if IsRefusal(c) then 1 else 0)
    ensures Count(log + [c], IsAdvance) == Count(log, IsAdvance) + (if IsAdvance(c) then 1 else 0)
    ensures Count(log + [c], IsVerify) == Count(log, IsVerify) + (if IsVerify(c) then 1 else 0)
  {
    CountMore(log, c, IsApplied);
    CountMore(log, c, IsPresent);
    CountMore(log, c, IsFailure);
    CountMore(log, c, IsRefusal);
    CountMore(log, c, IsAdvance);
    CountMore(log, c, IsVerify);
  }

  /** The candidates below `n` have been scanned, each once, and all but an aborted one are settled. */
  ghost predicate Accounted(runs: seq<Option<Run>>, n: nat, tally: Tally, log: seq<Call>, ending: Ending)
    requires n <= |runs|
  {
    && InOrder(log) && Advanced(log) == Candidates(runs, n) && TrueTally(tally, log, ending)
    && tally.scanned == Count(log, IsAdvance)
    && tally.scanned == tally.patched + tally.present + tally.rejected + tally.verificationError + tally.patchError
                        + (if ending.AllSettled? then 0 else 1)
  }

  /** The number scanned is the number of candidates there were. */
  lemma {:induction false} AdvancedCount(log: seq<Call>)
    ensures |Advanced(log)| == Count(log, IsAdvance)
  {
    if log != [] {
      AdvancedCount(log[..|log| - 1]);
    }
  }

  lemma ScannedAreCandidates(runs: seq<Option<Run>>, n: nat, tally: Tally, log: seq<Call>, ending: Ending)
    requires n <= |runs| && Accounted(runs, n, tally, log, ending)
    ensures tally.scanned == |Candidates(runs, n)|
  {
    AdvancedCount(log);
  }

  lemma NothingYet(runs: seq<Option<Run>>)
    ensures Accounted(runs, 0, Tally(0, 0, 0, 0, 0, 0), [], AllSettled)
  {
  }

  /** The cursor moves past the next candidate. */
  lemma Scans(runs: seq<Option<Run>>, i: nat, tally: Tally, log: seq<Call>)
    requires i < |runs| && runs[i].Some? && Accounted(runs, i, tally, log, AllSettled)
    ensures Accounted(runs, i + 1, tally.(scanned := tally.scanned + 1), log + [Advance(i)], AtCursor)
    ensures (log + [Advance(i)])[|log|] == Advance(i)
  {
    LogMore(log, Advance(i));
    CountsMore(log, Advance(i));
  }

  lemma Rejects(runs: seq<Option<Run>>, n: nat, tally: Tally, log: seq<Call>)
    requires n <= |runs| && Accounted(runs, n, tally, log, AtCursor)
    ensures Accounted(runs, n, tally.(rejected := tally.rejected + 1), log, AllSettled)
  {
  }

  /** The verification of the candidate at the cursor is refused. */
  lemma Refuses(runs: seq<Option<Run>>, n: nat, tally: Tally, log: seq<Call>, i: nat, t: PatchTarget)
    requires n <= |runs| && Accounted(runs, n, tally, log, AtCursor) && log != [] && log[|log| - 1] == Advance(i)
    ensures Accounted(runs, n, tally, log + [Verify(i, t, false)], AtVerify)
    ensures Accounted(runs, n, tally.(verificationError := tally.verificationError + 1), log + [Verify(i, t, false)], AllSettled)
  {
    LogMore(log, Verify(i, t, false));
    CountsMore(log, Verify(i, t, false));
  }

  /** It succeeds, and the patch is answered. */
  lemma Patches(runs: seq<Option<Run>>, n: nat, tally: Tally, log: seq<Call>, i: nat, t: PatchTarget, outcome: PatchOutcome)
    requires n <= |runs| && Accounted(runs, n, tally, log, AtCursor) && log != [] && log[|log| - 1] == Advance(i)
    ensures var more := log + [Verify(i, t, true)] + [Patch(i, t, outcome)];
      match outcome
      case Applied => Accounted(runs, n, tally.(patched := tally.patched + 1), more, AllSettled)
      case Present => Accounted(runs, n, tally.(present := tally.present + 1), more, AllSettled)
      case PatchFailed =>
        && Accounted(runs, n, tally, more, AtPatch)
        && Accounted(runs, n, tally.(patchError := tally.patchError + 1), more, AllSettled)
  {
    LogMore(log, Verify(i, t, true));
    CountsMore(log, Verify(i, t, true));
    LogMore(log + [Verify(i, t, true)], Patch(i, t, outcome));
    CountsMore(log + [Verify(i, t, true)], Patch(i, t, outcome));
  }

  /** The run has a positive number, and its stages with a URL, at least one, are all bound and agree. */
  ghost predicate HasTarget(u: Urls, run: Run, stages: seq<Option<Stage>>, authority: string) {
    && run.iid.Some? && run.iid.value > 0 && (exists k :: At(stages, k))
    && AgreeUpTo(u, stages, run.iid.value, authority, |stages|)
  }

  /** What is called for one candidate: the cursor; with a target, its verification; if that succeeds, its patch. */
  ghost predicate CallsFor(u: Urls, run: Run, i: nat, a: Answer, authority: string, calls: seq<Call>) {
    if a.advanced && a.stages.Some? && HasTarget(u, run, a.stages.value, authority)
    then exists t: PatchTarget ::
           TargetAt(u, a.stages.value, t, |a.stages.value|)
           && calls == [Advance(i), Verify(i, t, a.verified)] + (if a.verified then [Patch(i, t, a.patch)] else [])
    else calls == [Advance(i)]
  }

  /** The last call of the candidate failed because the context had been cancelled. */
  predicate Interrupted(calls: seq<Call>, a: Answer) {
    calls != [] &&
    match calls[|calls| - 1]
    case Advance(_) => false
    case Verify(_, _, ok) => !ok && a.cancelledInVerify
    case Patch(_, _, outcome) => outcome == PatchFailed && a.cancelledInPatch
  }

  lemma NoTarget(u: Urls, run: Run, i: nat, a: Answer, authority: string)
    requires !a.advanced || a.stages.None? || !HasTarget(u, run, a.stages.value, authority)
    ensures CallsFor(u, run, i, a, authority, [Advance(i)])
  {
  }

  lemma Targeted(u: Urls, run: Run, i: nat, a: Answer, authority: string, t: PatchTarget)
    requires a.advanced && a.stages.Some? && HasTarget(u, run, a.stages.value, authority)
    requires TargetAt(u, a.stages.value, t, |a.stages.value|)
    ensures !a.verified ==> CallsFor(u, run, i, a, authority, [Advance(i), Verify(i, t, false)])
    ensures a.verified ==> CallsFor(u, run, i, a, authority, [Advance(i), Verify(i, t, true), Patch(i, t, a.patch)])
  {
    assert [Advance(i), Verify(i, t, false)] == [Advance(i), Verify(i, t, false)] + [];
    assert [Advance(i), Verify(i, t, true), Patch(i, t, a.patch)] == [Advance(i), Verify(i, t, true)] + [Patch(i, t, a.patch)];
  }

  lemma Appended(calls: seq<Call>, x: Call, y: Call, z: Call)
    ensures calls + [x] + [y] == calls + [x, y] && calls + [x] + [y] + [z] == calls + [x, y, z]
  {
  }

  /** The target of a run, as the contract of the scan names it. */
  method TargetOf(u: Urls, run: Run, a: Answer, authority: string) returns (r: Option<PatchTarget>)
    requires a.stages.Some?
    ensures r.Some? <==> HasTarget(u, run, a.stages.value, authority)
    ensures r.Some? ==> TargetAt(u, a.stages.value, r.value, |a.stages.value|)
  {
    r := PatchTargetOf(u, run.iid, a.stages.value, authority);
  }

  /** A found target is verified and, if that succeeds, patched; each answer has its counter. */
  method SettleTarget(runs: seq<Option<Run>>, i: nat, a: Answer, t: PatchTarget, before: Tally, calls: seq<Call>)
    returns (tally: Tally, log: seq<Call>, aborted: bool, ghost ending: Ending)
    requires i < |runs| && calls != [] && calls[|calls| - 1] == Advance(i) && Accounted(runs, i + 1, before, calls, AtCursor)
    ensures Accounted(runs, i + 1, tally, log, ending) && (aborted <==> !ending.AllSettled?)
    ensures log == if a.verified then calls + [Verify(i, t, true)] + [Patch(i, t, a.patch)] else calls + [Verify(i, t, false)]
    ensures aborted <==> if a.verified then a.patch == PatchFailed && a.cancelledInPatch else a.cancelledInVerify
  {
    tally, aborted, ending := before, false, AllSettled;
    if !a.verified {
      Refuses(runs, i + 1, tally, calls, i, t);
      log := calls + [Verify(i, t, false)];
      if a.cancelledInVerify {
        aborted, ending := true, AtVerify;
        return;
      }
      tally := tally.(verificationError := tally.verificationError + 1);
      return;
    }
    Patches(runs, i + 1, tally, calls, i, t, a.patch);
    log := calls + [Verify(i, t, true)] + [Patch(i, t, a.patch)];
    match a.patch {
      case PatchFailed =>
        if a.cancelledInPatch {
          aborted, ending := true, AtPatch;
          return;
        }
        tally := tally.(patchError := tally.patchError + 1);
      case Applied => tally := tally.(patched := tally.patched + 1);
      case Present => tally := tally.(present := tally.present + 1);
    }
  }

  /** One candidate, from the cursor to the patch: it is settled in the way its answers say, or the pass is aborted. */
  method BackfillOne(u: Urls, runs: seq<Option<Run>>, i: nat, a: Answer, authority: string, before: Tally, calls: seq<Call>)
    returns (tally: Tally, log: seq<Call>, aborted: bool, ghost ending: Ending, ghost steps: seq<Call>)
    requires i < |runs| && runs[i].Some? && Accounted(runs, i, before, calls, AllSettled)
    ensures Accounted(runs, i + 1, tally, log, ending) && (aborted <==> !ending.AllSettled?)
    ensures log == calls + steps && CallsFor(u, runs[i].value, i, a, authority, steps)
    ensures aborted <==> !a.advanced || Interrupted(steps, a)
  {
    var run := runs[i].value;
    tally, aborted, ending := before.(scanned := before.scanned + 1), true, AtCursor;
    steps := [Advance(i)];
    log := calls + [Advance(i)];
    Scans(runs, i, before, calls);
    if !a.advanced {
      return;
    }
    var target: Option<PatchTarget> := None;
    if a.stages.Some? {
      target := TargetOf(u, run, a, authority);
    }
    if target.None? {
      aborted, ending := false, AllSettled;
      NoTarget(u, run, i, a, authority);
      Rejects(runs, i + 1, tally, log);
      tally := tally.(rejected := tally.rejected + 1);
      return;
    }
    var t := target.value;
    Targeted(u, run, i, a, authority, t);
    Appended(calls, Advance(i), Verify(i, t, a.verified), Patch(i, t, a.patch));
    steps := if a.verified then [Advance(i), Verify(i, t, true), Patch(i, t, a.patch)] else [Advance(i), Verify(i, t, false)];
    tally, log, aborted, ending := SettleTarget(runs, i, a, t, tally, log);
  }

  /** The calls made for the candidate at `k`; none for one that is not there. */
  ghost predicate CallsAt(u: Urls, runs: seq<Option<Run>>, answers: seq<Answer>, authority: string, k: nat, steps: seq<Call>)
    requires k < |runs| == |answers|
  {
    if runs[k].Some? then CallsFor(u, runs[k].value, k, answers[k], authority, steps) else steps == []
  }

  function Joined(parts: seq<seq<Call>>): seq<Call> {
    if parts == [] then [] else Joined(parts[..|parts| - 1]) + parts[|parts| - 1]
  }

  /** The log is made of the calls for each candidate, one after the other. */
  ghost predicate PassLog(u: Urls, runs: seq<Option<Run>>, answers: seq<Answer>, authority: string,
                          parts: seq<seq<Call>>, log: seq<Call>)
    requires |runs| == |answers|
  {
    && |parts| <= |runs| && log == Joined(parts)
    && forall k: nat | k < |parts| :: CallsAt(u, runs, answers, authority, k, parts[k])
  }

  lemma PassMore(u: Urls, runs: seq<Option<Run>>, answers: seq<Answer>, authority: string,
                 parts: seq<seq<Call>>, log: seq<Call>, steps: seq<Call>)
    requires |parts| < |runs| == |answers| && PassLog(u, runs, answers, authority, parts, log)
    requires CallsAt(u, runs, answers, authority, |parts|, steps)
    ensures PassLog(u, runs, answers, authority, parts + [steps], log + steps)
  {
    assert (parts + [steps])[..|parts|] == parts;
  }

  /**
   One pass. Every candidate scanned has its cursor advanced exactly once and before anything else is done
   for it; a pass without error settles every scanned candidate in the one way its answers say, and an
   aborted one leaves at most the candidate it was working on.
   */
  method BackfillLegacyMRProjects(u: Urls, runs: seq<Option<Run>>, answers: seq<Answer>, authority: string)
    returns (tally: Tally, completed: bool, log: seq<Call>, ghost parts: seq<seq<Call>>, ghost ending: Ending)
    requires |answers| == |runs|
    ensures |parts| <= |runs| && Accounted(runs, |parts|, tally, log, ending)
    ensures PassLog(u, runs, answers, authority, parts, log)
    ensures completed ==> |parts| == |runs| && ending.AllSettled?
    ensures (forall a <- answers :: Undisturbed(a)) ==> completed
  {
    tally, completed, log, parts, ending := Tally(0, 0, 0, 0, 0, 0), false, [], [], AllSettled;
    NothingYet(runs);
    for i := 0 to |runs|
      invariant |parts| == i && Accounted(runs, i, tally, log, AllSettled) && ending.AllSettled?
      invariant PassLog(u, runs, answers, authority, parts, log)
    {
      assert answers[i] in answers;
      if answers[i].cancelled {
        return;
      }
      ghost var steps := [];
      var aborted := false;
      if runs[i].Some? {
        ghost var before := log;
        tally, log, aborted, ending, steps := BackfillOne(u, runs, i, answers[i], authority, tally, log);
        PassMore(u, runs, answers, authority, parts, before, steps);
      } else {
        SkipMissing(runs, i, tally, log);
        PassMore(u, runs, answers, authority, parts, log, []);
        NoMore(log);
      }
      parts := parts + [steps];
      if aborted {
        return;
      }
    }
    completed := true;
  }

  lemma NoMore(log: seq<Call>)
    ensures log + [] == log
  {
  }

  /** Nothing is cancelled and the cursor moves. */
  predicate Undisturbed(a: Answer) {
    !a.cancelled && a.advanced && !a.cancelledInVerify && !a.cancelledInPatch
  }

  lemma SkipMissing(runs: seq<Option<Run>>, i: nat, tally: Tally, log: seq<Call>)
    requires i < |runs| && runs[i].None? && Accounted(runs, i, tally, log, AllSettled)
    ensures Accounted(runs, i + 1, tally, log, AllSettled)
  {
    assert Candidates(runs, i + 1) == Candidates(runs, i) + [];
  }
}
