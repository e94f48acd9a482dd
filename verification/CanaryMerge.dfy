/**
 The merging canary's single merge effect, over any number of crashes and replays. The forge is a state
 machine with the contracts the client relies on: one open merge request per branch, a merge only of an
 open request at the authorized head, and merged as a final state. Every remote effect may land, land
 with its answer lost, or not land at all.
 */
module CanaryMerge {
  import opened Basics

  type Sha = nat

  datatype MrState = Opened | Merged(at: int) | Closed

  datatype Mr = Mr(branch: string, state: MrState, sha: Sha)

  /** Branch heads, the commits that contain the run's proof file, and the merge requests in the order they were opened. */
  datatype Forge = Forge(main: Sha, nextSha: Sha, proofs: set<Sha>, branches: map<string, Sha>, mrs: seq<Mr>)

  function CanaryMergeBranch(runId: string): string {
    "mills-wf-merge/" + runId
  }

  lemma BranchPerRun(a: string, b: string)
    requires CanaryMergeBranch(a) == CanaryMergeBranch(b)
    ensures a == b
  {
    var n := |"mills-wf-merge/"|;
    assert CanaryMergeBranch(a)[n..] == a && CanaryMergeBranch(b)[n..] == b;
  }

  // --- Looking things up ---

  predicate MergedAt(f: Forge, branch: string, i: nat) {
    i < |f.mrs| && f.mrs[i].branch == branch && f.mrs[i].state.Merged?
  }

  predicate OpenAt(f: Forge, branch: string, i: nat) {
    i < |f.mrs| && f.mrs[i].branch == branch && f.mrs[i].state.Opened?
  }

  ghost predicate LatestMerged(f: Forge, branch: string, found: Option<nat>) {
    match found
    case None => forall i: nat :: !MergedAt(f, branch, i)
    case Some(i) => MergedAt(f, branch, i) && forall j: nat | MergedAt(f, branch, j) :: f.mrs[j].state.at <= f.mrs[i].state.at
  }

  ghost predicate SomeOpen(f: Forge, branch: string, found: Option<nat>) {
    match found
    case None => forall i: nat :: !OpenAt(f, branch, i)
    case Some(i) => OpenAt(f, branch, i)
  }

  // --- The forge's side of each effect ---

  /** Creating a branch that is already there changes nothing. */
  function CreateBranch(f: Forge, branch: string): Forge {
    if branch in f.branches then f else f.(branches := f.branches[branch := f.main])
  }

  /** Committing the proof file moves the head, unless the file is already there. */
  function CommitFile(f: Forge, branch: string): Forge {
    if branch !in f.branches || f.branches[branch] in f.proofs then f
    else f.(branches := f.branches[branch := f.nextSha], proofs := f.proofs + {f.nextSha}, nextSha := f.nextSha + 1)
  }

  /** Opening a second request for a branch that has an open one is refused. */
  ghost predicate CanOpen(f: Forge, branch: string) {
    branch in f.branches && SomeOpen(f, branch, None)
  }

  function OpenMr(f: Forge, branch: string): Forge
    requires branch in f.branches
  {
    f.(mrs := f.mrs + [Mr(branch, Opened, f.branches[branch])])
  }

  /** A merge is accepted only of an open request whose head is the authorized one. */
  predicate CanMerge(f: Forge, i: nat, expected: Sha) {
    i < |f.mrs| && f.mrs[i].state.Opened? && f.mrs[i].sha == expected
  }

  function WithState(f: Forge, i: nat, state: MrState): Forge
    requires i < |f.mrs|
  {
    f.(mrs := f.mrs[i := f.mrs[i].(state := state)])
  }

  function MergeMr(f: Forge, i: nat, now: int): Forge
    requires i < |f.mrs|
  {
    WithState(f, i, Merged(now))
  }

  // --- One attempt ---

  datatype Pc =
    | Idle
    | LookingUp
    | EnsuringBranch
    | EnsuringFile
    | FindingOpen(head: Sha)
    | Creating(head: Sha)
    | Adopting(head: Sha)
    | Reconciling(i: nat, head: Sha)
    | Merging(i: nat, head: Sha)
    | Succeeded(i: nat)
    | GaveUp

  datatype Fate = Landed | AnswerLost | NotLanded

  datatype Sys = Sys(forge: Forge, pc: Pc)

  datatype Event =
    | Attempt
    | Lookup(found: Option<nat>)
    | BranchEffect(fate: Fate)
    | FileEffect(fate: Fate)
    | OpenLookup(found: Option<nat>)
    | CreateEffect(fate: Fate)
    | MergeEffect(fate: Fate, now: int)
    | Reconcile
    | Crash
    | CloseMr(i: nat)
    | ReopenMr(i: nat)
    | DeleteMergedBranch
    | Elsewhere(forge: Forge)

  /** What happens to other branches is arbitrary; nobody else opens, merges or pushes this branch. */
  ghost predicate SameHere(f: Forge, g: Forge, branch: string) {
    && (branch in f.branches <==> branch in g.branches) && (branch in f.branches ==> g.branches[branch] == f.branches[branch])
    && f.proofs <= g.proofs && |f.mrs| <= |g.mrs| && (forall i | 0 <= i < |f.mrs| :: f.mrs[i].branch == branch ==> g.mrs[i] == f.mrs[i])
    && (forall i | 0 <= i < |f.mrs| :: g.mrs[i].branch == f.mrs[i].branch)
    && (forall i | |f.mrs| <= i < |g.mrs| :: g.mrs[i].branch != branch)
  }

  ghost predicate Enabled(s: Sys, branch: string, e: Event) {
    match e
    case Attempt => s.pc.Idle? || s.pc.Succeeded? || s.pc.GaveUp?
    case Lookup(found) => s.pc.LookingUp? && LatestMerged(s.forge, branch, found)
    case BranchEffect(_) => s.pc.EnsuringBranch?
    case FileEffect(_) => s.pc.EnsuringFile?
    case OpenLookup(found) => (s.pc.FindingOpen? || s.pc.Adopting?) && SomeOpen(s.forge, branch, found)
    case CreateEffect(_) => s.pc.Creating?
    case MergeEffect(_, _) => s.pc.Merging?
    case Reconcile => s.pc.Reconciling? && s.pc.i < |s.forge.mrs|
    case Crash => true
    case CloseMr(i) => OpenAt(s.forge, branch, i)
    case ReopenMr(i) => i < |s.forge.mrs| && s.forge.mrs[i].branch == branch && s.forge.mrs[i].state.Closed?
    case DeleteMergedBranch => exists i: nat :: MergedAt(s.forge, branch, i)
    case Elsewhere(g) => SameHere(s.forge, g, branch)
  }

  ghost function Next(s: Sys, branch: string, e: Event): Sys
    requires Enabled(s, branch, e)
  {
    match e
    case Attempt => s.(pc := LookingUp)
    case Lookup(found) => s.(pc := if found.Some? then Succeeded(found.value) else EnsuringBranch)
    case BranchEffect(fate) =>
      Sys(if fate.NotLanded? then s.forge else CreateBranch(s.forge, branch), if fate.Landed? then EnsuringFile else GaveUp)
    case FileEffect(fate) =>
      var f := if fate.NotLanded? then s.forge else CommitFile(s.forge, branch);
      Sys(f, if fate.Landed? && branch in f.branches then FindingOpen(f.branches[branch]) else GaveUp)
    case OpenLookup(found) =>
      s.(pc := if found.Some? then Reconciling(found.value, s.pc.head)
               else if s.pc.FindingOpen? then Creating(s.pc.head) else GaveUp)
    case CreateEffect(fate) =>
      if !CanOpen(s.forge, branch) then s.(pc := if fate.Landed? then Adopting(s.pc.head) else GaveUp)
      else if fate.NotLanded? then s.(pc := GaveUp)
      else Sys(OpenMr(s.forge, branch), if fate.Landed? then Reconciling(|s.forge.mrs|, s.pc.head) else GaveUp)
    case Reconcile => s.(pc := ReconcileMr(s.forge.mrs[s.pc.i], s.pc.i, s.pc.head, branch))
    case MergeEffect(fate, now) =>
      if CanMerge(s.forge, s.pc.i, s.pc.head) && !fate.NotLanded?
      then Sys(MergeMr(s.forge, s.pc.i, now), Reconciling(s.pc.i, s.pc.head))
      else s.(pc := if fate.AnswerLost? then GaveUp else Reconciling(s.pc.i, s.pc.head))
    case Crash => s.(pc := Idle)
    case CloseMr(i) => s.(forge := WithState(s.forge, i, Closed))
    case ReopenMr(i) => s.(forge := WithState(s.forge, i, Opened))
    case DeleteMergedBranch => s.(forge := s.forge.(branches := s.forge.branches - {branch}))
    case Elsewhere(g) => s.(forge := g)
  }

  /** reconcileMergeState: the live request decides whether to report, merge or give up. */
  function ReconcileMr(mr: Mr, i: nat, head: Sha, branch: string): Pc {
    if mr.branch != branch || mr.sha != head then GaveUp
    else match mr.state
      case Merged(_) => Succeeded(i)
      case Closed => GaveUp
      case Opened => Merging(i, head)
  }

  ghost predicate Run(branch: string, states: seq<Sys>, events: seq<Event>) {
    && |states| == |events| + 1 && states[0].pc == Idle
    && (forall i | 0 <= i < |states[0].forge.mrs| :: states[0].forge.mrs[i].branch != branch)
    && forall i {:trigger events[i]} | 0 <= i < |events| :: Enabled(states[i], branch, events[i]) && states[i + 1] == Next(states[i], branch, events[i])
  }

  // --- The invariant ---

  ghost predicate AtMostOneMerged(f: Forge, branch: string) {
    forall i: nat, j: nat | MergedAt(f, branch, i) && MergedAt(f, branch, j) :: i == j
  }

  /** Between the lookup and the merge nothing of this branch has been merged; while merging, only the request at hand can be. */
  ghost predicate Progress(s: Sys, branch: string) {
    match s.pc
    case EnsuringBranch => Unmerged(s.forge, branch)
    case EnsuringFile => Unmerged(s.forge, branch)
    case FindingOpen(head) => Unmerged(s.forge, branch) && ProofHead(s.forge, branch, head)
    case Creating(head) => Unmerged(s.forge, branch) && ProofHead(s.forge, branch, head)
    case Adopting(head) => Unmerged(s.forge, branch) && ProofHead(s.forge, branch, head)
    case Reconciling(i, _) => AtHand(s.forge, branch, i)
    case Merging(i, _) => AtHand(s.forge, branch, i)
    case Succeeded(i) => MergedAt(s.forge, branch, i)
    case _ => true
  }

  ghost predicate Unmerged(f: Forge, branch: string) {
    forall i: nat :: !MergedAt(f, branch, i)
  }

  ghost predicate ProofHead(f: Forge, branch: string, head: Sha) {
    branch in f.branches && f.branches[branch] == head && head in f.proofs
  }

  ghost predicate AtHand(f: Forge, branch: string, i: nat) {
    i < |f.mrs| && f.mrs[i].branch == branch && forall j: nat | MergedAt(f, branch, j) :: j == i
  }

  /** Every request of the branch was opened at a head with the proof file in it. */
  ghost predicate Proven(f: Forge, branch: string) {
    forall i | 0 <= i < |f.mrs| :: f.mrs[i].branch == branch ==> f.mrs[i].sha in f.proofs
  }

  ghost predicate Inv(s: Sys, branch: string) {
    AtMostOneMerged(s.forge, branch) && Progress(s, branch) && Proven(s.forge, branch)
  }

  lemma StepKeepsInv(s: Sys, branch: string, e: Event)
    requires Inv(s, branch) && Enabled(s, branch, e)
    ensures Inv(Next(s, branch, e), branch)
  {
    match e {
      case Elsewhere(g) => ElsewhereKeeps(s, branch, g);
      case CloseMr(i) => ToggleKeeps(s, branch, i, Closed);
      case ReopenMr(i) => ToggleKeeps(s, branch, i, Opened);
      case CreateEffect(fate) => CreateKeeps(s, branch, fate);
      case MergeEffect(fate, now) => MergeKeeps(s, branch, fate, now);
      case _ => QuietKeeps(s, branch, e);
    }
  }

  /** Steps that leave the merge requests alone. */
  lemma QuietKeeps(s: Sys, branch: string, e: Event)
    requires Inv(s, branch) && Enabled(s, branch, e)
    requires !e.Elsewhere? && !e.CloseMr? && !e.ReopenMr? && !e.CreateEffect? && !e.MergeEffect?
    ensures Inv(Next(s, branch, e), branch)
  {
    var s' := Next(s, branch, e);
    assert forall i: nat :: MergedAt(s'.forge, branch, i) <==> MergedAt(s.forge, branch, i);
  }

  lemma ElsewhereKeeps(s: Sys, branch: string, g: Forge)
    requires Inv(s, branch) && SameHere(s.forge, g, branch)
    ensures Inv(s.(forge := g), branch)
  {
    assert forall i: nat :: MergedAt(g, branch, i) <==> MergedAt(s.forge, branch, i);
  }

  /** Closing a request that is open, or opening one again that was closed, merges nothing and undoes no merge. */
  lemma ToggleKeeps(s: Sys, branch: string, i: nat, state: MrState)
    requires Inv(s, branch) && i < |s.forge.mrs| && !s.forge.mrs[i].state.Merged? && !state.Merged?
    ensures Inv(s.(forge := WithState(s.forge, i, state)), branch)
  {
    assert forall j: nat :: MergedAt(WithState(s.forge, i, state), branch, j) <==> MergedAt(s.forge, branch, j);
  }

  lemma CreateKeeps(s: Sys, branch: string, fate: Fate)
    requires Inv(s, branch) && s.pc.Creating?
    ensures Inv(Next(s, branch, CreateEffect(fate)), branch)
  {
    var s' := Next(s, branch, CreateEffect(fate));
    assert forall j: nat :: MergedAt(s'.forge, branch, j) <==> MergedAt(s.forge, branch, j);
  }

  lemma MergeKeeps(s: Sys, branch: string, fate: Fate, now: int)
    requires Inv(s, branch) && s.pc.Merging?
    ensures Inv(Next(s, branch, MergeEffect(fate, now)), branch)
  {
    var s' := Next(s, branch, MergeEffect(fate, now));
    assert forall j: nat :: MergedAt(s'.forge, branch, j) ==> MergedAt(s.forge, branch, j) || j == s.pc.i;
  }

  lemma {:induction false} Reachable(branch: string, states: seq<Sys>, events: seq<Event>, i: nat)
    requires Run(branch, states, events) && i < |states|
    ensures Inv(states[i], branch)
  {
    if i > 0 {
      Reachable(branch, states, events, i - 1);
      StepKeepsInv(states[i - 1], branch, events[i - 1]);
    }
  }

  // --- The theorems ---

  /** Over any number of crashes and replays, at most one request of the run's branch is ever merged, with the proof in it. */
  lemma MergedAtMostOnce(branch: string, states: seq<Sys>, events: seq<Event>, n: nat, i: nat, j: nat)
    requires Run(branch, states, events) && n < |states|
    requires MergedAt(states[n].forge, branch, i) && MergedAt(states[n].forge, branch, j)
    ensures i == j && states[n].forge.mrs[i].sha in states[n].forge.proofs
  {
    Reachable(branch, states, events, n);
  }

  /** A merged request stays merged, and from then on no request of the branch is opened. */
  lemma EventAfterMerge(s: Sys, branch: string, e: Event, i: nat)
    requires Inv(s, branch) && Enabled(s, branch, e) && MergedAt(s.forge, branch, i)
    ensures var f := Next(s, branch, e).forge;
      && MergedAt(f, branch, i)
      && forall j | |s.forge.mrs| <= j < |f.mrs| :: f.mrs[j].branch != branch
  {
  }

  lemma {:induction false} AfterMerge(branch: string, states: seq<Sys>, events: seq<Event>, m: nat, n: nat, i: nat)
    requires Run(branch, states, events) && m <= n < |states| && MergedAt(states[m].forge, branch, i)
    ensures |states[m].forge.mrs| <= |states[n].forge.mrs| && MergedAt(states[n].forge, branch, i)
    ensures forall j | |states[m].forge.mrs| <= j < |states[n].forge.mrs| :: states[n].forge.mrs[j].branch != branch
    decreases n
  {
    if m < n {
      AfterMerge(branch, states, events, m, n - 1, i);
      Reachable(branch, states, events, n - 1);
      EventAfterMerge(states[n - 1], branch, events[n - 1], i);
      RequestsKeepBranch(states[n - 1], branch, events[n - 1]);
    }
  }

  lemma RequestsKeepBranch(s: Sys, branch: string, e: Event)
    requires Inv(s, branch) && Enabled(s, branch, e)
    ensures var f := Next(s, branch, e).forge;
      |s.forge.mrs| <= |f.mrs| && forall j | 0 <= j < |s.forge.mrs| :: f.mrs[j].branch == s.forge.mrs[j].branch
  {
  }

  /** Every successful return, in whichever attempt, names the one merged request. */
  lemma SuccessesAgree(branch: string, states: seq<Sys>, events: seq<Event>, m: nat, n: nat)
    requires Run(branch, states, events) && m <= n < |states| && states[m].pc.Succeeded? && states[n].pc.Succeeded?
    ensures states[m].pc.i == states[n].pc.i && MergedAt(states[n].forge, branch, states[n].pc.i)
  {
    Reachable(branch, states, events, m);
    Reachable(branch, states, events, n);
    AfterMerge(branch, states, events, m, n, states[m].pc.i);
  }

  // --- What an attempt must do ---

  ghost predicate Happens(branch: string, states: seq<Sys>, events: seq<Event>, n: nat) {
    Run(branch, states, events) && n < |events|
  }

  /** An open request that is found is taken up as it is; none found means one is opened, or that the attempt is over. */
  lemma OpenRequestAdopted(branch: string, states: seq<Sys>, events: seq<Event>, n: nat, found: Option<nat>)
    requires Happens(branch, states, events, n) && events[n] == OpenLookup(found)
    ensures states[n + 1].forge == states[n].forge
    ensures states[n + 1].pc ==
      if found.Some? then Reconciling(found.value, states[n].pc.head)
      else if states[n].pc.FindingOpen? then Creating(states[n].pc.head) else GaveUp
  {
    assert states[n + 1] == Next(states[n], branch, events[n]);
  }

  /** Creating opens one request at the branch's head if there is no open one, and otherwise looks for that one. */
  lemma CreateOpensOrAdopts(branch: string, states: seq<Sys>, events: seq<Event>, n: nat)
    requires Happens(branch, states, events, n) && events[n] == CreateEffect(Landed)
    ensures var (s, s') := (states[n], states[n + 1]);
      if exists i: nat :: OpenAt(s.forge, branch, i) then s'.pc == Adopting(s.pc.head) && s'.forge == s.forge
      else s'.pc == Reconciling(|s.forge.mrs|, s.pc.head) && branch in s.forge.branches
           && s'.forge == s.forge.(mrs := s.forge.mrs + [Mr(branch, Opened, s.forge.branches[branch])])
  {
    Reachable(branch, states, events, n);
    assert states[n + 1] == Next(states[n], branch, events[n]);
  }

  /** The live request decides: merged means success, open at the authorized head means merge, anything else ends it. */
  lemma ReconcileDecides(branch: string, states: seq<Sys>, events: seq<Event>, n: nat)
    requires Happens(branch, states, events, n) && events[n] == Reconcile
    ensures var (i, head) := (states[n].pc.i, states[n].pc.head);
      i < |states[n].forge.mrs| && states[n + 1].forge == states[n].forge &&
      var mr := states[n].forge.mrs[i];
      states[n + 1].pc ==
      if mr.branch == branch && mr.sha == head && mr.state.Merged? then Succeeded(i)
      else if mr.branch == branch && mr.sha == head && mr.state == Opened then Merging(i, head) else GaveUp
  {
    assert states[n + 1] == Next(states[n], branch, events[n]);
  }

  /** A merge effect that lands merges an open request at the authorized head, and nothing else. */
  lemma MergeLands(branch: string, states: seq<Sys>, events: seq<Event>, n: nat, now: int)
    requires Happens(branch, states, events, n) && events[n] == MergeEffect(Landed, now)
    ensures var (f, i, head) := (states[n].forge, states[n].pc.i, states[n].pc.head);
      && states[n + 1].pc == Reconciling(i, head)
      && states[n + 1].forge ==
         if i < |f.mrs| && f.mrs[i].state == Opened && f.mrs[i].sha == head
         then f.(mrs := f.mrs[i := Mr(f.mrs[i].branch, Merged(now), f.mrs[i].sha)]) else f
  {
    assert states[n + 1] == Next(states[n], branch, events[n]);
  }

  // --- The replay is real ---

  lemma Extend(branch: string, states: seq<Sys>, events: seq<Event>, e: Event) returns (states': seq<Sys>, events': seq<Event>)
    requires Run(branch, states, events) && Enabled(states[|states| - 1], branch, e)
    ensures Run(branch, states', events') && states' == states + [Next(states[|states| - 1], branch, e)]
  {
    states', events' := states + [Next(states[|states| - 1], branch, e)], events + [e];
  }

  /** A first attempt up to its commit, on an empty forge. */
  lemma CommitFirst(branch: string) returns (states: seq<Sys>, events: seq<Event>)
    ensures Run(branch, states, events) && |states| > 0
    ensures states[|states| - 1] == Sys(Forge(0, 2, {1}, map[branch := 1], []), FindingOpen(1))
  {
    states, events := [Sys(Forge(0, 1, {}, map[], []), Idle)], [];
    states, events := Extend(branch, states, events, Attempt);
    states, events := Extend(branch, states, events, Lookup(None));
    states, events := Extend(branch, states, events, BranchEffect(Landed));
    states, events := Extend(branch, states, events, FileEffect(Landed));
  }

  lemma OpenFirst(branch: string) returns (states: seq<Sys>, events: seq<Event>)
    ensures Run(branch, states, events) && |states| > 0
    ensures states[|states| - 1] == Sys(Forge(0, 2, {1}, map[branch := 1], [Mr(branch, Opened, 1)]), Merging(0, 1))
  {
    states, events := CommitFirst(branch);
    states, events := Extend(branch, states, events, OpenLookup(None));
    states, events := Extend(branch, states, events, CreateEffect(Landed));
    states, events := Extend(branch, states, events, Reconcile);
  }

  /** A run whose first attempt merges and crashes before it learns of it; the replay adopts that very merge. */
  lemma LostMergeIsAdopted(branch: string) returns (states: seq<Sys>, events: seq<Event>)
    ensures Run(branch, states, events) && |states| > 3
    ensures states[|states| - 3].pc == Idle && states[|states| - 1].pc == Succeeded(0)
    ensures states[|states| - 1].forge.mrs == [Mr(branch, Merged(7), 1)]
  {
    states, events := OpenFirst(branch);
    states, events := Extend(branch, states, events, MergeEffect(AnswerLost, 7));
    states, events := Extend(branch, states, events, Crash);
    var f := states[|states| - 1].forge;
    assert f.mrs == [Mr(branch, Merged(7), 1)];
    states, events := Extend(branch, states, events, Attempt);
    assert LatestMerged(f, branch, Some(0));
    states, events := Extend(branch, states, events, Lookup(Some(0)));
  }
}
