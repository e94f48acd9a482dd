/** The editor as it runs: loops over the lines and a result ledger that grows entry by entry. */
module PolicyEditor {
  import opened Basics
  import opened PolicyText
  import opened PolicyBlocks
  import opened PolicyEdit
  import opened PolicyEditLaws
  import opened PolicyIdempotence

  // --- Finding the place ---

  method FindKeyLine(lines: Lines, key: string, from: int) returns (index: int)
    ensures index == match FindKey(lines, key, if from < 0 then 0 else from) case None => -1 case Some(k) => k
    ensures index >= 0 ==> from <= index < |lines| && OpensKey(lines[index], key)
    ensures forall i | 0 <= i && from <= i < (if index < 0 then |lines| else index) :: !OpensKey(lines[i], key)
  {
    var start := if from < 0 then 0 else from;
    FindKeyFirst(lines, key, start);
    if start >= |lines| {
      return -1;
    }
    for i := start to |lines|
      invariant FindKey(lines, key, start) == FindKey(lines, key, i)
    {
      if OpensKey(lines[i], key) {
        return i;
      }
    }
    return -1;
  }

  method BlockEnd(lines: Lines, keyIdx: nat) returns (end: nat, lastBody: nat)
    requires keyIdx < |lines|
    ensures end == EndOf(lines, keyIdx) && lastBody == LastOf(lines, keyIdx)
    ensures keyIdx <= lastBody < end <= |lines|
  {
    LastBounds(lines, keyIdx);
    ghost var o := Outlined(lines);
    OutlinedAt(lines, keyIdx);
    var keyIndent := Indent(lines[keyIdx]);
    lastBody := keyIdx;
    for i := keyIdx + 1 to |lines|
      invariant lastBody < i && Scan(o, keyIndent, keyIdx + 1, keyIdx) == Scan(o, keyIndent, i, lastBody)
    {
      OutlinedAt(lines, i);
      if Skipped(lines[i]) {
        continue;
      }
      if Indent(lines[i]) <= keyIndent {
        return i, lastBody;
      }
      lastBody := i;
    }
    end := |lines|;
  }

  // --- Inserting ---

  method AppendSequenceItem(lines: Lines, key: string, after: int, value: string, note: string)
    returns (r: Result<(Lines, bool), EditError>)
    ensures r == AppendSeq(lines, key, after, value, note)
  {
    var keyIdx := FindKeyLine(lines, key, after);
    if keyIdx < 0 {
      return Err(MissingAnchor(key));
    }
    if '[' in lines[keyIdx] {
      return Err(InlineSequence(key));
    }
    var _, lastBody := BlockEnd(lines, keyIdx);
    for i := keyIdx + 1 to lastBody + 1
      invariant forall m | keyIdx < m < i :: !ItemIs(lines[m], value)
    {
      var m := ItemValue(lines[i]);
      if m.None? {
        continue;
      }
      if Unquote(m.value) == value {
        return Ok((lines, false));
      }
    }
    var itemIndent := Indent(lines[keyIdx]) + 2;
    if lastBody > keyIdx {
      itemIndent := Indent(lines[lastBody]);
    }
    var pad := Spaces(itemIndent);
    var ins := [];
    if TrimSpace(note) != "" {
      ins := ins + [pad + ("# " + TrimSpace(note))];
    }
    ins := ins + [pad + ("- " + Quote(value))];
    assert ins == SeqLines(itemIndent, value, note);
    return Ok((Insert(lines, lastBody + 1, ins), true));
  }

  ghost predicate NoneBetween(lines: Lines, k: nat, i: nat, isEntry: string -> bool) {
    i <= |lines| && forall m | k < m < i :: !isEntry(lines[m])
  }

  lemma NoneMore(lines: Lines, k: nat, i: nat, isEntry: string -> bool)
    requires NoneBetween(lines, k, i, isEntry) && i < |lines| && !isEntry(lines[i])
    ensures NoneBetween(lines, k, i + 1, isEntry)
  {
  }

  /** What the scan for entries has established before it looks at line `i`; `isEntry` tells the entry looked for. */
  ghost predicate Scanned(lines: Lines, k: nat, i: nat, entryIndent: int, isEntry: string -> bool)
    requires k < |lines|
  {
    && k < i <= EndOf(lines, k) <= |lines|
    && (entryIndent < 0 ==> FirstBody(Outlined(lines), k + 1) == FirstBody(Outlined(lines), i))
    && (entryIndent >= 0 ==> LastOf(lines, k) > k && entryIndent == EntryIndent(lines, k))
    && NoneBetween(lines, k, i, isEntry)
  }

  lemma FirstEntry(lines: Lines, k: nat, i: nat)
    requires k < |lines| && k < i < EndOf(lines, k) <= |lines| && !Skipped(lines[i])
    requires FirstBody(Outlined(lines), k + 1) == FirstBody(Outlined(lines), i)
    ensures LastOf(lines, k) > k && EntryIndent(lines, k) == Indent(lines[i])
  {
    OutlinedAt(lines, i);
    assert IsBlock(Outlined(lines), k, EndOf(lines, k), LastOf(lines, k));
  }

  lemma ScanDone(lines: Lines, k: nat, entryIndent: int, entry: string)
    requires k < |lines| && EndOf(lines, k) <= |lines|
    requires Scanned(lines, k, EndOf(lines, k), entryIndent, EntryTest(EntryIndent(lines, k), entry))
    ensures !MapPresent(lines, k, entry)
    ensures EntryIndent(lines, k) == if entryIndent < 0 then Indent(lines[k]) + 2 else entryIndent
  {
    LastBounds(lines, k);
    ScanLearned(lines, k, entryIndent, EntryTest(EntryIndent(lines, k), entry));
    MapPresentIs(lines, k, entry);
  }

  lemma ScanLearned(lines: Lines, k: nat, entryIndent: int, isEntry: string -> bool)
    requires k < |lines| && EndOf(lines, k) <= |lines| && Scanned(lines, k, EndOf(lines, k), entryIndent, isEntry)
    ensures EntryIndent(lines, k) == if entryIndent < 0 then Indent(lines[k]) + 2 else entryIndent
  {
    LastBounds(lines, k);
    assert IsBlock(Outlined(lines), k, EndOf(lines, k), LastOf(lines, k));
  }

  lemma EntryFound(lines: Lines, k: nat, i: nat, entry: string)
    requires k < |lines| && k < i < EndOf(lines, k) <= |lines| && IsEntry(lines[i], EntryIndent(lines, k), entry)
    ensures MapPresent(lines, k, entry)
  {
    OutlinedAt(lines, i);
    assert IsBlock(Outlined(lines), k, EndOf(lines, k), LastOf(lines, k));
  }

  lemma ScanSkips(lines: Lines, k: nat, i: nat, entryIndent: int, isEntry: string -> bool)
    requires k < |lines| && Scanned(lines, k, i, entryIndent, isEntry) && i < EndOf(lines, k)
    requires Outlined(lines)[i].skipped && !isEntry(lines[i])
    ensures Scanned(lines, k, i + 1, entryIndent, isEntry)
  {
    FirstBodySkips(Outlined(lines), i);
    NoneMore(lines, k, i, isEntry);
  }

  lemma FirstBodySkips(lines: Outline, i: nat)
    requires i < |lines| && lines[i].skipped
    ensures FirstBody(lines, i) == FirstBody(lines, i + 1)
  {
  }

  lemma ScanLearns(lines: Lines, k: nat, i: nat, isEntry: string -> bool)
    requires k < |lines| && Scanned(lines, k, i, -1, isEntry) && i < EndOf(lines, k) && !Skipped(lines[i])
    ensures Scanned(lines, k, i, Indent(lines[i]), isEntry)
  {
    FirstEntry(lines, k, i);
  }

  lemma ScanPasses(lines: Lines, k: nat, i: nat, entryIndent: nat, isEntry: string -> bool)
    requires k < |lines| && Scanned(lines, k, i, entryIndent, isEntry) && i < EndOf(lines, k) && !isEntry(lines[i])
    ensures Scanned(lines, k, i + 1, entryIndent, isEntry)
  {
    NoneMore(lines, k, i, isEntry);
  }

  method FindEntry(lines: Lines, keyIdx: nat, end: nat, entry: string) returns (found: bool, entryIndent: int)
    requires keyIdx < |lines| && end == EndOf(lines, keyIdx) && keyIdx < end <= |lines|
    ensures found <==> MapPresent(lines, keyIdx, entry)
    ensures !found ==> EntryIndent(lines, keyIdx) == if entryIndent < 0 then Indent(lines[keyIdx]) + 2 else entryIndent
  {
    entryIndent := -1;
    ghost var isEntry := EntryTest(EntryIndent(lines, keyIdx), entry);
    for i := keyIdx + 1 to end
      invariant entryIndent >= -1 && Scanned(lines, keyIdx, i, entryIndent, isEntry)
    {
      if Skipped(lines[i]) {
        OutlinedAt(lines, i);
        ScanSkips(lines, keyIdx, i, entryIndent, isEntry);
        continue;
      }
      var ind := Indent(lines[i]);
      if entryIndent < 0 {
        ScanLearns(lines, keyIdx, i, isEntry);
        entryIndent := ind;
      }
      if ind != entryIndent {
        ScanPasses(lines, keyIdx, i, entryIndent, isEntry);
        continue;
      }
      if EntryIs(lines[i], entry) {
        EntryFound(lines, keyIdx, i, entry);
        return true, entryIndent;
      }
      ScanPasses(lines, keyIdx, i, entryIndent, isEntry);
    }
    ScanDone(lines, keyIdx, entryIndent, entry);
    found := false;
  }

  method AppendMapEntry(lines: Lines, key: string, entry: string, body: Lines, note: string)
    returns (r: Result<(Lines, bool), EditError>)
    ensures r == AppendMap(lines, key, entry, body, note)
  {
    var keyIdx := FindKeyLine(lines, key, 0);
    if keyIdx < 0 {
      return Err(MissingAnchor(key));
    }
    if HasBraces(lines[keyIdx]) {
      return Err(InlineMap(key));
    }
    var end, lastBody := BlockEnd(lines, keyIdx);
    var found, entryIndent := FindEntry(lines, keyIdx, end, entry);
    if found {
      return Ok((lines, false));
    }
    if entryIndent < 0 {
      entryIndent := Indent(lines[keyIdx]) + 2;
    }
    var ins := EntryLinesOf(entryIndent, entry, body, note);
    return Ok((Insert(lines, lastBody + 1, ins), true));
  }

  lemma TakeMore(head: Lines, tail: Lines, i: nat)
    requires i < |tail|
    ensures head + tail[..i + 1] == (head + tail[..i]) + [tail[i]]
  {
  }

  method EntryLinesOf(entryIndent: nat, entry: string, body: Lines, note: string) returns (ins: Lines)
    ensures ins == MapLines(entryIndent, entry, body, note)
  {
    ins := [];
    if TrimSpace(note) != "" {
      ins := ins + [Spaces(entryIndent) + ("# " + TrimSpace(note))];
    }
    ins := ins + [Spaces(entryIndent) + (Quote(entry) + ":")];
    ins := AddBody(ins, entryIndent + 2, body);
  }

  method AddBody(head: Lines, indent: nat, body: Lines) returns (ins: Lines)
    ensures ins == head + Padded(indent, body)
  {
    ins := head;
    var inner := Spaces(indent);
    ghost var padded := Padded(indent, body);
    for i := 0 to |body|
      invariant ins == head + padded[..i]
    {
      TakeMore(head, padded, i);
      ins := ins + [inner + body[i]];
    }
    assert padded[..|body|] == padded;
  }

  // --- The whole edit ---

  /** The edited text with its ledger of what changed. */
  class PolicyEditResult {
    var content: string
    var changed: seq<string>
    var skipped: seq<string>

    constructor ()
      ensures content == "" && changed == [] && skipped == []
    {
      content, changed, skipped := "", [], [];
    }

    method Record(key: string, did: bool)
      modifies `changed, `skipped
      ensures changed == old(changed) + (if did then [key] else [])
      ensures skipped == old(skipped) + (if did then [] else [key])
    {
      if did {
        changed := changed + [key];
      } else {
        skipped := skipped + [key];
      }
    }
  }

  /** The requests `done` have been applied to `start`, giving `lines` and this ledger. */
  ghost predicate Reached(start: Lines, done: seq<Request>, lines: Lines, changed: seq<string>, skipped: seq<string>) {
    exists did: seq<bool> :: Outcome(start, done, lines, did) && Labels(done, did, true) == changed && Labels(done, did, false) == skipped
  }

  ghost predicate Outcome(start: Lines, done: seq<Request>, lines: Lines, did: seq<bool>) {
    |did| == |done| && ApplyAll(start, Insertions(done)) == Ok((lines, did))
  }

  /** The step that comes after a run decides how the longer run goes on. */
  lemma ChainMore<S, X, E>(step: (S, X) -> Result<(S, bool), E>, from: S, done: seq<X>, x: X, rest: seq<X>)
    requires Chain(step, from, done).Ok?
    ensures var (mid, did) := Chain(step, from, done).value;
      match step(mid, x)
      case Err(e) => Chain(step, from, done + [x] + rest) == Err(e)
      case Ok((next, one)) => Chain(step, from, done + [x]) == Ok((next, did + [one]))
  {
    assert done + [x] + rest == done + ([x] + rest) && ([x] + rest)[1..] == rest && [x][1..] == [];
    assert forall one: bool :: [one] + [] == [one];
    ChainJoin(step, from, done, [x] + rest);
    ChainJoin(step, from, done, [x]);
  }

  lemma {:induction false} LabelsMore(todo: seq<Request>, did: seq<bool>, x: Request, one: bool, wanted: bool)
    requires |did| == |todo|
    ensures Labels(todo + [x], did + [one], wanted) == Labels(todo, did, wanted) + (if one == wanted then [x.0] else [])
  {
    if todo == [] {
      assert todo + [x] == [x] && did + [one] == [one];
    } else {
      assert (todo + [x])[1..] == todo[1..] + [x] && (did + [one])[1..] == did[1..] + [one];
      LabelsMore(todo[1..], did[1..], x, one, wanted);
    }
  }

  lemma AdvanceBy(start: Lines, done: seq<Request>, lines: Lines, changed: seq<string>, skipped: seq<string>,
                  x: Request, rest: seq<Request>)
    requires Reached(start, done, lines, changed, skipped)
    ensures match ApplyOne(lines, x.1)
      case Err(e) => ApplyAll(start, Insertions(done + [x] + rest)) == Err(e)
      case Ok((next, one)) =>
        Reached(start, done + [x], next, changed + (if one then [x.0] else []), skipped + (if one then [] else [x.0]))
  {
    var did :| Outcome(start, done, lines, did) && Labels(done, did, true) == changed && Labels(done, did, false) == skipped;
    var step := ApplyOne;
    ChainMore(step, start, Insertions(done), x.1, Insertions(rest));
    var r := ApplyOne(lines, x.1);
    assert r == step(lines, x.1);
    InsertionsMore(done, x, rest);
    if r.Ok? {
      LabelsMore(done, did, x, r.value.1, true);
      LabelsMore(done, did, x, r.value.1, false);
      assert Outcome(start, done + [x], r.value.0, did + [r.value.1]);
    }
  }

  lemma CutAt(todo: seq<Request>, n: nat)
    requires n < |todo|
    ensures todo == todo[..n] + [todo[n]] + todo[n + 1..] && todo[..n + 1] == todo[..n] + [todo[n]]
  {
  }

  /** One request more: it is applied on top, or the whole edit fails with its error. */
  lemma Advance(start: Lines, todo: seq<Request>, n: nat, lines: Lines, changed: seq<string>, skipped: seq<string>)
    requires n < |todo| && Reached(start, todo[..n], lines, changed, skipped)
    ensures match ApplyOne(lines, todo[n].1)
      case Err(e) => ApplyAll(start, Insertions(todo)) == Err(e)
      case Ok((next, one)) =>
        Reached(start, todo[..n + 1], next, changed + (if one then [todo[n].0] else []), skipped + (if one then [] else [todo[n].0]))
  {
    CutAt(todo, n);
    AdvanceBy(start, todo[..n], lines, changed, skipped, todo[n], todo[n + 1..]);
  }

  lemma InsertionsMore(done: seq<Request>, x: Request, rest: seq<Request>)
    ensures Insertions(done + [x]) == Insertions(done) + [x.1]
    ensures Insertions(done + [x] + rest) == Insertions(done) + [x.1] + Insertions(rest)
  {
    assert Insertions([x]) == [x.1];
    InsertionsJoin(done, [x]);
    InsertionsJoin(done + [x], rest);
  }

  lemma PathItemsFrom(paths: seq<string>, i: nat)
    requires i < |paths|
    ensures PathItems(paths[i..]) ==
            (if PathAsked(paths[i]) then [PathItem(paths[i])] else []) + PathItems(paths[i + 1..])
  {
    assert paths[i..][0] == paths[i] && paths[i..][1..] == paths[i + 1..];
  }

  lemma Joins(a: Lines, b: Lines, c: Lines)
    ensures a + (b + c) == (a + b) + c && a + [] == a && [] + a == a
  {
  }

  method ProtectedBody(paths: seq<string>) returns (body: Lines)
    ensures body == PathItems(paths)
  {
    body := [];
    assert paths[0..] == paths;
    for i := 0 to |paths|
      invariant body + PathItems(paths[i..]) == PathItems(paths)
    {
      PathItemsFrom(paths, i);
      var p := TrimSpace(paths[i]);
      if p == "" {
        Joins(PathItems(paths[i + 1..]), [], []);
        continue;
      }
      Joins(body, ["- " + Quote(p)], PathItems(paths[i + 1..]));
      body := body + ["- " + Quote(p)];
    }
    assert PathItems(paths[|paths|..]) == [];
  }

  /** After request `n`: either it has been applied on top, or the whole edit fails with its error. */
  ghost predicate Continues(start: Lines, todo: seq<Request>, n: nat, next: Lines,
                            err: Option<EditError>, changed: seq<string>, skipped: seq<string>)
    requires n < |todo|
  {
    match err
    case None => Reached(start, todo[..n + 1], next, changed, skipped)
    case Some(e) => ApplyAll(start, Insertions(todo)) == Err(e)
  }

  method AddDemand(ghost start: Lines, ghost todo: seq<Request>, ghost n: nat, lines: Lines, project: string,
             e: OnboardEdit, res: PolicyEditResult)
    returns (next: Lines, err: Option<EditError>)
    requires n < |todo| && todo[n] == DemandRequest(project, e.note) && Reached(start, todo[..n], lines, res.changed, res.skipped)
    modifies res`changed, res`skipped
    ensures Continues(start, todo, n, next, err, res.changed, res.skipped)
  {
    next := lines;
    Advance(start, todo, n, lines, res.changed, res.skipped);
    var r := AppendSequenceItem(lines, "demand_projects", -1, project, e.note);
    if r.Err? {
      return lines, Some(r.error);
    }
    next, err := r.value.0, None;
    res.Record("cross_repo.demand_projects", r.value.1);
  }

  method AddIntake(ghost start: Lines, ghost todo: seq<Request>, ghost n: nat, lines: Lines, project: string,
             e: OnboardEdit, res: PolicyEditResult)
    returns (next: Lines, err: Option<EditError>)
    requires n < |todo| && todo[n] == IntakeRequest(project, e.note) && Reached(start, todo[..n], lines, res.changed, res.skipped)
    modifies res`changed, res`skipped
    ensures Continues(start, todo, n, next, err, res.changed, res.skipped)
  {
    next := lines;
    Advance(start, todo, n, lines, res.changed, res.skipped);
    var anchor := FindKeyLine(lines, "eligible_label", 0);
    if anchor < 0 {
      return lines, Some(MissingAnchor("eligible_label"));
    }
    var r := AppendSequenceItem(lines, "projects", anchor, project, e.note);
    if r.Err? {
      return lines, Some(r.error);
    }
    next, err := r.value.0, None;
    res.Record("intake.gitlab.projects", r.value.1);
  }

  method AddProtectedPaths(ghost start: Lines, ghost todo: seq<Request>, ghost n: nat, lines: Lines, project: string,
             e: OnboardEdit, res: PolicyEditResult)
    returns (next: Lines, err: Option<EditError>)
    requires n < |todo| && todo[n] == PathsRequest(project, PathItems(e.protectedPaths), e.note) && Reached(start, todo[..n], lines, res.changed, res.skipped)
    modifies res`changed, res`skipped
    ensures Continues(start, todo, n, next, err, res.changed, res.skipped)
  {
    next := lines;
    Advance(start, todo, n, lines, res.changed, res.skipped);
    var body := ProtectedBody(e.protectedPaths);
    var r := AppendMapEntry(lines, "protected_paths_per_repo", project, body, e.note);
    if r.Err? {
      return lines, Some(r.error);
    }
    next, err := r.value.0, None;
    res.Record("pipeline.protected_paths_per_repo", r.value.1);
  }

  method AddBudget(ghost start: Lines, ghost todo: seq<Request>, ghost n: nat, lines: Lines, project: string,
             e: OnboardEdit, res: PolicyEditResult)
    returns (next: Lines, err: Option<EditError>)
    requires n < |todo| && todo[n] == BudgetRequest(project, BudgetBody(e), e.note) && Reached(start, todo[..n], lines, res.changed, res.skipped)
    modifies res`changed, res`skipped
    ensures Continues(start, todo, n, next, err, res.changed, res.skipped)
  {
    next := lines;
    Advance(start, todo, n, lines, res.changed, res.skipped);
    var body := [];
    if e.usd != "" {
      body := body + ["max_usd_per_run: " + e.usd];
    }
    if e.runs != "" {
      body := body + ["max_runs_per_day: " + e.runs];
    }
    assert body == BudgetBody(e);
    var r := AppendMapEntry(lines, "per_repo_overrides", project, body, e.note);
    if r.Err? {
      return lines, Some(r.error);
    }
    next, err := r.value.0, None;
    res.Record("pipeline.per_repo_overrides", r.value.1);
  }

  /** The four kinds of request, where they stand in the list. */
  ghost predicate Listed(todo: seq<Request>, project: string, e: OnboardEdit) {
    var i := if e.intakeIssues then 1 else 0;
    var p := if |e.protectedPaths| > 0 then 1 else 0;
    var b := if e.usd != "" || e.runs != "" then 1 else 0;
    && |todo| == 1 + i + p + b && todo[0] == DemandRequest(project, e.note)
    && (i == 1 ==> todo[1] == IntakeRequest(project, e.note))
    && (p == 1 ==> todo[1 + i] == PathsRequest(project, PathItems(e.protectedPaths), e.note))
    && (b == 1 ==> todo[1 + i + p] == BudgetRequest(project, BudgetBody(e), e.note))
  }

  lemma RequestedListed(project: string, e: OnboardEdit)
    ensures Listed(RequestedFor(project, e), project, e)
  {
  }

  method AddToSequences(start: Lines, ghost todo: seq<Request>, project: string, e: OnboardEdit, res: PolicyEditResult)
    returns (lines: Lines, err: Option<EditError>, ghost n: nat)
    requires Listed(todo, project, e) && Reached(start, todo[..0], start, res.changed, res.skipped)
    modifies res`changed, res`skipped
    ensures n == (if e.intakeIssues then 2 else 1) <= |todo|
    ensures match err
      case None => Reached(start, todo[..n], lines, res.changed, res.skipped)
      case Some(x) => ApplyAll(start, Insertions(todo)) == Err(x)
  {
    n := if e.intakeIssues then 2 else 1;
    lines, err := AddDemand(start, todo, 0, start, project, e, res);
    if err.None? && e.intakeIssues {
      lines, err := AddIntake(start, todo, 1, lines, project, e, res);
    }
  }

  method AddToMaps(ghost start: Lines, ghost todo: seq<Request>, from: Lines, project: string, e: OnboardEdit, res: PolicyEditResult)
    returns (lines: Lines, err: Option<EditError>)
    requires Listed(todo, project, e)
    requires Reached(start, todo[..if e.intakeIssues then 2 else 1], from, res.changed, res.skipped)
    modifies res`changed, res`skipped
    ensures match err
      case None => Reached(start, todo, lines, res.changed, res.skipped)
      case Some(x) => ApplyAll(start, Insertions(todo)) == Err(x)
  {
    ghost var n := if e.intakeIssues then 2 else 1;
    lines, err := from, None;
    if |e.protectedPaths| > 0 {
      lines, err := AddProtectedPaths(start, todo, n, lines, project, e, res);
      if err.Some? {
        return;
      }
      n := n + 1;
    }
    if e.usd != "" || e.runs != "" {
      lines, err := AddBudget(start, todo, n, lines, project, e, res);
      if err.Some? {
        return;
      }
      n := n + 1;
    }
    AllOf(todo, n);
  }

  lemma AllOf(todo: seq<Request>, n: nat)
    requires n == |todo|
    ensures todo[..n] == todo
  {
  }

  /** The requested insertions one after the other: all of them, or the error of the first that fails. */
  method ApplyRequested(start: Lines, project: string, e: OnboardEdit, res: PolicyEditResult)
    returns (lines: Lines, err: Option<EditError>)
    requires res.changed == [] && res.skipped == []
    modifies res`changed, res`skipped
    ensures var todo := RequestedFor(project, e);
      match err
      case None => Reached(start, todo, lines, res.changed, res.skipped)
      case Some(x) => ApplyAll(start, Insertions(todo)) == Err(x)
  {
    ghost var todo := RequestedFor(project, e);
    RequestedListed(project, e);
    NothingReached(start, todo);
    ghost var n;
    lines, err, n := AddToSequences(start, todo, project, e, res);
    if err.None? {
      lines, err := AddToMaps(start, todo, lines, project, e, res);
    }
  }

  lemma NothingReached(start: Lines, todo: seq<Request>)
    ensures Reached(start, todo[..0], start, [], [])
  {
    assert Outcome(start, todo[..0], start, []);
  }

  /** The edit as a whole gives what the specification says, which is idempotent and only inserts. */
  method ApplyOnboardPolicyEdit(content: string, e: OnboardEdit) returns (res: PolicyEditResult, err: Option<EditError>)
    ensures fresh(res)
    ensures match Apply(content, e)
      case Err(x) => err == Some(x)
      case Ok(edited) => err == None && Edited(res.content, res.changed, res.skipped) == edited
  {
    res := new PolicyEditResult();
    var project := ProjectOf(e);
    if project == "" {
      return res, Some(ProjectRequired);
    }
    var lines;
    lines, err := ApplyRequested(Split(content), project, e, res);
    if err.None? {
      res.content := Join(lines);
    }
  }
}
