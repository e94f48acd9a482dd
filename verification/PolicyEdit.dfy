/** The onboarding edit of the policy file: line-anchored insertions into sequences and maps. */
module PolicyEdit {
  import opened Basics
  import opened PolicyText
  import opened PolicyBlocks

  type Lines = seq<string>

  datatype EditError = ProjectRequired | MissingAnchor(key: string) | InlineSequence(key: string) | InlineMap(key: string)

  /** One requested insertion. A sequence may be searched for from an anchor line on. */
  datatype Insertion =
    | SeqItem(key: string, anchor: Option<string>, value: string, note: string)
    | MapItem(key: string, entry: string, body: Lines, note: string)

  /** One repository's onboarding delta. The two budget caps arrive as formatted text, empty when not requested. */
  datatype OnboardEdit = OnboardEdit(project: string, intakeIssues: bool, protectedPaths: seq<string>,
                                     usd: string, runs: string, note: string)

  datatype Edited = Edited(content: string, changed: seq<string>, skipped: seq<string>)

  // --- Lines and outlines ---

  function ShapeOf(line: string): Shape {
    Shape(Skipped(line), Indent(line))
  }

  function Outlined(lines: Lines): (o: Outline)
    ensures |o| == |lines|
  {
    if lines == [] then [] else [ShapeOf(lines[0])] + Outlined(lines[1..])
  }

  lemma {:induction false} OutlinedAt(lines: Lines, i: nat)
    requires i < |lines|
    ensures Outlined(lines)[i] == ShapeOf(lines[i])
  {
    if i > 0 {
      OutlinedAt(lines[1..], i - 1);
    }
  }

  function EndOf(lines: Lines, k: nat): nat
    requires k < |lines|
  {
    End(Outlined(lines), k)
  }

  function LastOf(lines: Lines, k: nat): nat
    requires k < |lines|
  {
    Last(Outlined(lines), k)
  }

  lemma LastBounds(lines: Lines, k: nat)
    requires k < |lines|
    ensures k <= LastOf(lines, k) < EndOf(lines, k) <= |lines|
  {
  }

  function FindKey(lines: Lines, key: string, from: nat): (r: Option<nat>)
    ensures r.Some? ==> from <= r.value < |lines| && OpensKey(lines[r.value], key)
    decreases |lines| - from
  {
    if from >= |lines| then None
    else if OpensKey(lines[from], key) then Some(from)
    else FindKey(lines, key, from + 1)
  }

  /** The first line from `from` on that opens the key, and no earlier one. */
  lemma {:induction false} FindKeyIs(lines: Lines, key: string, from: nat, k: nat)
    requires from <= k < |lines| && OpensKey(lines[k], key)
    requires forall i | from <= i < k :: !OpensKey(lines[i], key)
    ensures FindKey(lines, key, from) == Some(k)
    decreases k - from
  {
    if from < k {
      FindKeyIs(lines, key, from + 1, k);
    }
  }

  lemma {:induction false} FindKeyFirst(lines: Lines, key: string, from: nat)
    ensures var r := FindKey(lines, key, from);
      forall i | from <= i < (if r.Some? then r.value else |lines|) :: !OpensKey(lines[i], key)
    decreases |lines| - from
  {
    if from < |lines| && !OpensKey(lines[from], key) {
      FindKeyFirst(lines, key, from + 1);
    }
  }

  predicate HasBraces(line: string) {
    exists i | 0 <= i < |line| - 1 :: line[i] == '{' && line[i + 1] == '}'
  }

  // --- Sequences ---

  predicate SeqPresent(lines: Lines, k: nat, value: string)
    requires k < |lines|
  {
    LastBounds(lines, k);
    exists i | k < i <= LastOf(lines, k) :: ItemIs(lines[i], value)
  }

  function NoteLine(indent: nat, note: string): Lines {
    if TrimSpace(note) != "" then [Spaces(indent) + ("# " + TrimSpace(note))] else []
  }

  function SeqLines(indent: nat, value: string, note: string): Lines {
    NoteLine(indent, note) + [Spaces(indent) + ("- " + Quote(value))]
  }

  function ItemIndent(lines: Lines, k: nat): nat
    requires k < |lines|
  {
    LastBounds(lines, k);
    if LastOf(lines, k) > k then Indent(lines[LastOf(lines, k)]) else Indent(lines[k]) + 2
  }

  function AppendSeq(lines: Lines, key: string, after: int, value: string, note: string): Result<(Lines, bool), EditError> {
    match FindKey(lines, key, if after < 0 then 0 else after)
    case None => Err(MissingAnchor(key))
    case Some(k) =>
      LastBounds(lines, k);
      if '[' in lines[k] then Err(InlineSequence(key))
      else if SeqPresent(lines, k, value) then Ok((lines, false))
      else Ok((Insert(lines, LastOf(lines, k) + 1, SeqLines(ItemIndent(lines, k), value, note)), true))
  }

  // --- Maps ---

  /** The indent of the block's first entry, or one level in when the block is empty. */
  function EntryIndent(lines: Lines, k: nat): nat
    requires k < |lines|
  {
    var o := Outlined(lines);
    if Last(o, k) > k then FirstBodyInBlock(o, k); o[FirstBody(o, k + 1)].indent else Indent(lines[k]) + 2
  }

  predicate IsEntry(line: string, indent: nat, entry: string) {
    !Skipped(line) && Indent(line) == indent && EntryIs(line, entry)
  }

  predicate MapPresent(lines: Lines, k: nat, entry: string)
    requires k < |lines|
  {
    LastBounds(lines, k);
    exists i | k < i <= LastOf(lines, k) :: IsEntry(lines[i], EntryIndent(lines, k), entry)
  }

  function Padded(indent: nat, body: Lines): (r: Lines)
    ensures |r| == |body| && forall i | 0 <= i < |body| :: r[i] == Spaces(indent) + body[i]
  {
    if body == [] then [] else [Spaces(indent) + body[0]] + Padded(indent, body[1..])
  }

  function MapLines(indent: nat, entry: string, body: Lines, note: string): Lines {
    NoteLine(indent, note) + [Spaces(indent) + (Quote(entry) + ":")] + Padded(indent + 2, body)
  }

  function AppendMap(lines: Lines, key: string, entry: string, body: Lines, note: string): Result<(Lines, bool), EditError> {
    match FindKey(lines, key, 0)
    case None => Err(MissingAnchor(key))
    case Some(k) =>
      LastBounds(lines, k);
      if HasBraces(lines[k]) then Err(InlineMap(key))
      else if MapPresent(lines, k, entry) then Ok((lines, false))
      else Ok((Insert(lines, LastOf(lines, k) + 1, MapLines(EntryIndent(lines, k), entry, body, note)), true))
  }

  // --- The whole edit ---

  function ApplyOne(lines: Lines, ins: Insertion): Result<(Lines, bool), EditError> {
    match ins
    case SeqItem(key, None, value, note) => AppendSeq(lines, key, -1, value, note)
    case SeqItem(key, Some(anchor), value, note) =>
      (match FindKey(lines, anchor, 0)
       case None => Err(MissingAnchor(anchor))
       case Some(a) => AppendSeq(lines, key, a, value, note))
    case MapItem(key, entry, body, note) => AppendMap(lines, key, entry, body, note)
  }

  /** Runs the steps one after the other until one fails, noting of each whether it changed anything. */
  function Chain<S, X, E>(step: (S, X) -> Result<(S, bool), E>, from: S, todo: seq<X>): Result<(S, seq<bool>), E> {
    if todo == [] then Ok((from, []))
    else match step(from, todo[0])
      case Err(e) => Err(e)
      case Ok((next, did)) =>
        match Chain(step, next, todo[1..])
        case Err(e) => Err(e)
        case Ok((last, rest)) => Ok((last, [did] + rest))
  }

  function ApplyAll(lines: Lines, todo: seq<Insertion>): Result<(Lines, seq<bool>), EditError> {
    Chain(ApplyOne, lines, todo)
  }

  function TrimSlash(s: string): string
    decreases |s|
  {
    if s != "" && s[0] == '/' then TrimSlash(s[1..])
    else if s != "" && s[|s| - 1] == '/' then TrimSlash(s[..|s| - 1])
    else s
  }

  predicate PathAsked(p: string) {
    TrimSpace(p) != ""
  }

  function PathItem(p: string): string {
    "- " + Quote(TrimSpace(p))
  }

  function PathItems(paths: seq<string>): Lines {
    if paths == [] then [] else (if PathAsked(paths[0]) then [PathItem(paths[0])] else []) + PathItems(paths[1..])
  }

  function BudgetBody(e: OnboardEdit): Lines {
    (if e.usd != "" then ["max_usd_per_run: " + e.usd] else []) + (if e.runs != "" then ["max_runs_per_day: " + e.runs] else [])
  }

  function ProjectOf(e: OnboardEdit): string {
    TrimSlash(TrimSpace(e.project))
  }

  type Request = (string, Insertion)

  function DemandRequest(project: string, note: string): Request {
    ("cross_repo.demand_projects", SeqItem("demand_projects", None, project, note))
  }

  function IntakeRequest(project: string, note: string): Request {
    ("intake.gitlab.projects", SeqItem("projects", Some("eligible_label"), project, note))
  }

  function PathsRequest(project: string, body: Lines, note: string): Request {
    ("pipeline.protected_paths_per_repo", MapItem("protected_paths_per_repo", project, body, note))
  }

  function BudgetRequest(project: string, body: Lines, note: string): Request {
    ("pipeline.per_repo_overrides", MapItem("per_repo_overrides", project, body, note))
  }

  /** The insertions an onboarding edit asks for, in order, with the names they are reported under. */
  function Requested(e: OnboardEdit): seq<Request> {
    RequestedFor(ProjectOf(e), e)
  }

  function RequestedFor(project: string, e: OnboardEdit): seq<Request> {
    [DemandRequest(project, e.note)]
    + (if e.intakeIssues then [IntakeRequest(project, e.note)] else [])
    + (if e.protectedPaths != [] then [PathsRequest(project, PathItems(e.protectedPaths), e.note)] else [])
    + (if BudgetBody(e) != [] then [BudgetRequest(project, BudgetBody(e), e.note)] else [])
  }

  function Labels(todo: seq<Request>, did: seq<bool>, wanted: bool): seq<string> {
    if todo == [] || did == [] then [] else
      (if did[0] == wanted then [todo[0].0] else []) + Labels(todo[1..], did[1..], wanted)
  }

  function Insertions(todo: seq<Request>): seq<Insertion> {
    if todo == [] then [] else [todo[0].1] + Insertions(todo[1..])
  }

  function Split(s: string): (r: Lines)
    ensures r != []
  {
    if s == "" then [""]
    else if s[0] == '\n' then [""] + Split(s[1..])
    else var rest := Split(s[1..]); [[s[0]] + rest[0]] + rest[1..]
  }

  function Join(lines: Lines): string {
    if lines == [] then "" else if |lines| == 1 then lines[0] else lines[0] + "\n" + Join(lines[1..])
  }

  function Apply(content: string, e: OnboardEdit): Result<Edited, EditError> {
    if ProjectOf(e) == "" then Err(ProjectRequired)
    else
      var todo := Requested(e);
      match ApplyAll(Split(content), Insertions(todo))
      case Err(x) => Err(x)
      case Ok((lines, did)) => Ok(Edited(Join(lines), Labels(todo, did, true), Labels(todo, did, false)))
  }
}
