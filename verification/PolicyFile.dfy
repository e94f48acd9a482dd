/**
 The onboarding edit of a whole policy file: the lines of a file, and what an edit of the file promises.
 A provenance note may span several lines; they come back from the file as lines of their own.
 */
module PolicyFile {
  import opened Basics
  import opened PolicyText
  import opened PolicyBlocks
  import opened PolicyEdit
  import opened PolicyEditLaws
  import opened PolicyIdempotence
  import opened PolicyComments
  import opened PolicyFraming
  import opened PolicyBypass
  import opened ProjectPath

  // --- Files are lines ---

  ghost predicate OneLiners(lines: Lines) {
    forall l <- lines :: '\n' !in l
  }

  lemma {:induction false} SplitLines(s: string)
    ensures OneLiners(Split(s)) && Join(Split(s)) == s
  {
    if s != "" {
      SplitLines(s[1..]);
      var rest := Split(s[1..]);
      assert s == [s[0]] + s[1..];
      if s[0] == '\n' {
        JoinCons("", rest);
      } else {
        assert rest[0] in rest;
        JoinFirst(s[0], rest);
      }
    }
  }

  lemma JoinCons(l: string, rest: Lines)
    requires rest != []
    ensures Join([l] + rest) == l + "\n" + Join(rest)
  {
    assert ([l] + rest)[1..] == rest;
  }

  /** A character in front of the first line is a character in front of the text. */
  lemma JoinFirst(c: char, lines: Lines)
    requires lines != []
    ensures Join([[c] + lines[0]] + lines[1..]) == [c] + Join(lines)
  {
    var longer := [[c] + lines[0]] + lines[1..];
    assert longer[1..] == lines[1..];
    if |lines| > 1 {
      assert ([c] + lines[0]) + "\n" + Join(lines[1..]) == [c] + (lines[0] + "\n" + Join(lines[1..]));
    }
  }

  lemma {:induction false} SplitLine(l: string)
    requires '\n' !in l
    ensures Split(l) == [l]
  {
    if l != "" {
      SplitLine(l[1..]);
      assert l == [l[0]] + l[1..];
    }
  }

  // --- Lines with line breaks in them ---

  /** The lines as they come back from the file. */
  function Flatten(lines: Lines): Lines {
    Harvest(lines, Split)
  }

  /** A character in front of a text is a line break, or is in front of its first line. */
  function Prepend(c: char, lines: Lines): Lines
    requires lines != []
  {
    if c == '\n' then [""] + lines else [[c] + lines[0]] + lines[1..]
  }

  lemma SplitCons(s: string)
    requires s != ""
    ensures Split(s) == Prepend(s[0], Split(s[1..]))
  {
  }

  lemma PrependSum(c: char, a: Lines, b: Lines)
    requires a != []
    ensures Prepend(c, a + b) == Prepend(c, a) + b
  {
  }

  lemma {:induction false} SplitSum(a: string, s: string)
    ensures Split(a + "\n" + s) == Split(a) + Split(s)
  {
    var whole := a + "\n" + s;
    SplitCons(whole);
    if a == "" {
      assert whole[1..] == s;
    } else {
      assert whole[1..] == a[1..] + "\n" + s;
      SplitSum(a[1..], s);
      SplitCons(a);
      PrependSum(a[0], Split(a[1..]), Split(s));
    }
  }

  /** Written and read again, every line is replaced by its parts. */
  lemma {:induction false} JoinFlattens(lines: Lines)
    requires lines != []
    ensures Split(Join(lines)) == Flatten(lines)
  {
    if |lines| == 1 {
      assert Flatten(lines[1..]) == [];
    } else {
      JoinFlattens(lines[1..]);
      SplitSum(lines[0], Join(lines[1..]));
    }
  }

  /** Lines without breaks come back as they were. */
  lemma {:induction false} FlattenOneLiners(lines: Lines)
    requires OneLiners(lines)
    ensures Flatten(lines) == lines
  {
    if lines != [] {
      assert lines[0] in lines;
      SplitLine(lines[0]);
      FlattenOneLiners(lines[1..]);
    }
  }

  lemma JoinSplits(lines: Lines)
    requires lines != [] && OneLiners(lines)
    ensures Split(Join(lines)) == lines
  {
    JoinFlattens(lines);
    FlattenOneLiners(lines);
  }

  /** A text without a break goes in front of the first line. */
  function Prefixed(pre: string, lines: Lines): Lines
    requires lines != []
  {
    [pre + lines[0]] + lines[1..]
  }

  lemma PrefixedCons(c: char, pre: string, lines: Lines)
    requires lines != [] && c != '\n'
    ensures Prepend(c, Prefixed(pre, lines)) == Prefixed([c] + pre, lines)
  {
    assert [c] + (pre + lines[0]) == ([c] + pre) + lines[0];
  }

  lemma PrefixedNothing(lines: Lines)
    requires lines != []
    ensures Prefixed("", lines) == lines
  {
    assert "" + lines[0] == lines[0];
  }

  lemma {:induction false} SplitAfter(pre: string, s: string)
    requires '\n' !in pre
    ensures Split(pre + s) == Prefixed(pre, Split(s))
  {
    if pre == "" {
      assert pre + s == s;
      PrefixedNothing(Split(s));
    } else {
      assert (pre + s)[1..] == pre[1..] + s && [pre[0]] + pre[1..] == pre;
      SplitCons(pre + s);
      SplitAfter(pre[1..], s);
      PrefixedCons(pre[0], pre[1..], Split(s));
    }
  }

  /** A line without a break, or a comment all of whose parts are blank or comments too. */
  ghost predicate Mild(line: string) {
    '\n' !in line || (Skipped(line) && forall part <- Split(line) :: Skipped(part))
  }

  ghost predicate AllMild(lines: Lines) {
    forall l <- lines :: Mild(l)
  }

  lemma {:induction false} NothingVisible(lines: Lines)
    requires forall l <- lines :: Skipped(l)
    ensures Visibles(lines) == []
  {
    if lines != [] {
      NothingVisible(lines[1..]);
    }
  }

  /** Taking mild lines apart does not change the visible ones. */
  lemma {:induction false} FlattenKeepsVisibles(lines: Lines)
    requires AllMild(lines)
    ensures Visibles(Flatten(lines)) == Visibles(lines)
  {
    if lines != [] {
      FlattenKeepsVisibles(lines[1..]);
      HarvestJoin(Split(lines[0]), Flatten(lines[1..]), VisibleOf);
      assert lines[0] in lines;
      if '\n' in lines[0] {
        NothingVisible(Split(lines[0]));
      } else {
        SplitLine(lines[0]);
        assert Visibles([lines[0]]) == VisibleOf(lines[0]) + Visibles([]);
      }
    }
  }

  // --- Insertions of mild lines ---

  /** The further lines of the note are blank or comments. */
  predicate QuietNote(note: string) {
    forall i | 1 <= i < |Split(TrimSpace(note))| :: Skipped(Split(TrimSpace(note))[i])
  }

  lemma OneLineIsQuiet(note: string)
    requires '\n' !in TrimSpace(note)
    ensures QuietNote(note)
  {
    SplitLine(TrimSpace(note));
  }

  /** The note line and its parts: the first is a comment, the others are the note's further lines. */
  lemma NoteParts(n: nat, note: string)
    ensures var l := Spaces(n) + ("# " + TrimSpace(note)); var parts := Split(TrimSpace(note));
      Split(l) == [Spaces(n) + ("# " + parts[0])] + parts[1..]
    ensures Skipped(Spaces(n) + ("# " + TrimSpace(note))) && Skipped(Spaces(n) + ("# " + Split(TrimSpace(note))[0]))
  {
    SplitComment(n, TrimSpace(note));
    PadSkipped(n, "# " + Split(TrimSpace(note))[0]);
    PadSkipped(n, "# " + TrimSpace(note));
  }

  lemma SplitComment(n: nat, text: string)
    ensures Split(Spaces(n) + ("# " + text)) == [Spaces(n) + ("# " + Split(text)[0])] + Split(text)[1..]
  {
    CommentStart(n);
    SplitAfter(Spaces(n) + "# ", text);
    Regroup(Spaces(n), "# ", text);
    Regroup(Spaces(n), "# ", Split(text)[0]);
  }

  lemma CommentStart(n: nat)
    ensures '\n' !in Spaces(n) + "# "
  {
    assert forall c <- Spaces(n) :: c == ' ';
  }

  lemma Regroup(a: string, b: string, c: string)
    ensures a + (b + c) == (a + b) + c
  {
  }

  lemma QuietIsMild(n: nat, note: string)
    requires QuietNote(note)
    ensures Mild(Spaces(n) + ("# " + TrimSpace(note)))
  {
    NoteParts(n, note);
    var parts := Split(TrimSpace(note));
    forall part | part in parts[1..]
      ensures Skipped(part)
    {
      var i :| 0 <= i < |parts[1..]| && parts[1..][i] == part;
      assert part == parts[i + 1];
    }
  }

  /** The names and bodies span one line each; the note is quiet. */
  ghost predicate Tame(ins: Insertion) {
    && QuietNote(ins.note)
    && match ins
       case SeqItem(_, _, value, _) => '\n' !in value
       case MapItem(_, entry, body, _) => '\n' !in entry && OneLiners(body)
  }

  lemma {:induction false} EscapeOneLine(s: string)
    requires '\n' !in s
    ensures '\n' !in Escape(s)
  {
    if s != "" {
      EscapeOneLine(s[1..]);
    }
  }

  lemma PaddedOneLine(n: nat, body: Lines)
    requires OneLiners(body)
    ensures OneLiners(Padded(n, body))
  {
    var padded := Padded(n, body);
    forall l | l in padded
      ensures '\n' !in l
    {
      var i :| 0 <= i < |padded| && l == padded[i];
      assert body[i] in body;
    }
  }

  lemma NewLinesMild(lines: Lines, k: nat, ins: Insertion)
    requires k < |lines| && Tame(ins)
    ensures AllMild(NewLines(lines, k, ins)) && NewLines(lines, k, ins) != []
  {
    match ins {
      case SeqItem(_, _, value, note) =>
        QuietIsMild(ItemIndent(lines, k), note);
        EscapeOneLine(value);
      case MapItem(_, entry, body, note) =>
        QuietIsMild(EntryIndent(lines, k), note);
        EscapeOneLine(entry);
        PaddedOneLine(EntryIndent(lines, k) + 2, body);
    }
  }

  lemma OneStaysMild(lines: Lines, ins: Insertion)
    requires AllMild(lines) && lines != [] && Tame(ins) && ApplyOne(lines, ins).Ok?
    ensures AllMild(ApplyOne(lines, ins).value.0) && ApplyOne(lines, ins).value.0 != []
  {
    OutcomeOfOne(lines, ins);
    var t := Target(lines, ins);
    if t.Some? && ApplyOne(lines, ins).value.1 {
      NewLinesMild(lines, t.value, ins);
    }
  }

  lemma {:induction false} AllStayMild(lines: Lines, todo: seq<Insertion>)
    requires AllMild(lines) && lines != [] && (forall ins <- todo :: Tame(ins)) && ApplyAll(lines, todo).Ok?
    ensures AllMild(ApplyAll(lines, todo).value.0) && ApplyAll(lines, todo).value.0 != []
    decreases |todo|
  {
    if todo != [] {
      OneStaysMild(lines, todo[0]);
      AllStayMild(ApplyOne(lines, todo[0]).value.0, todo[1..]);
    }
  }

  /** A second pass over the file as it was written finds everything settled. */
  lemma FlattenedSkips(lines: Lines, todo: seq<Insertion>)
    requires AllMild(lines) && lines != [] && Steady(todo) && (forall ins <- todo :: Tame(ins)) && ApplyAll(lines, todo).Ok?
    ensures var out := ApplyAll(lines, todo).value.0; ApplyAll(Flatten(out), todo) == Ok((Flatten(out), Nothing(|todo|)))
  {
    var out := ApplyAll(lines, todo).value.0;
    AllStayMild(lines, todo);
    AllSatisfied(lines, todo);
    FlattenKeepsVisibles(out);
    forall ins | ins in todo
      ensures Satisfied(Flatten(out), ins)
    {
      SatisfiedByVisibles(out, Flatten(out), ins);
    }
    SkipsAll(Flatten(out), todo);
  }

  // --- The whole edit ---

  /** A project name the editor can find again, and caps and paths that span one line each. */
  predicate PlainTexts(e: OnboardEdit) {
    && EntryName(ProjectOf(e)) && '#' !in ProjectOf(e) && '\n' !in ProjectOf(e)
    && '\n' !in e.usd && '\n' !in e.runs
    && forall p <- e.protectedPaths :: '\n' !in TrimSpace(p)
  }

  /** Such an edit with a quiet note. */
  predicate Wellformed(e: OnboardEdit) {
    PlainTexts(e) && QuietNote(e.note)
  }

  lemma PathItemIs(p: string)
    ensures BodyText(PathItem(p)) && ('\n' !in TrimSpace(p) ==> '\n' !in PathItem(p))
  {
    if '\n' !in TrimSpace(p) {
      EscapeOneLine(TrimSpace(p));
    }
  }

  lemma {:induction false} PathItemsAreItems(paths: seq<string>)
    ensures forall b <- PathItems(paths) :: BodyText(b)
    ensures (forall p <- paths :: '\n' !in TrimSpace(p)) ==> OneLiners(PathItems(paths))
  {
    if paths != [] {
      PathItemsAreItems(paths[1..]);
      PathItemIs(paths[0]);
      assert paths == [paths[0]] + paths[1..];
    }
  }

  lemma {:induction false} InsertionsAt(todo: seq<Request>)
    ensures |Insertions(todo)| == |todo| && forall i | 0 <= i < |todo| :: Insertions(todo)[i] == todo[i].1
  {
    if todo != [] {
      InsertionsAt(todo[1..]);
    }
  }

  /** What holds of the three kinds of insertion an onboarding edit asks for holds of all it asks for. */
  lemma EachRequested(e: OnboardEdit, f: Insertion -> bool)
    requires f(SeqItem("demand_projects", None, ProjectOf(e), e.note))
    requires f(SeqItem("projects", Some("eligible_label"), ProjectOf(e), e.note))
    requires f(MapItem("protected_paths_per_repo", ProjectOf(e), PathItems(e.protectedPaths), e.note))
    requires f(MapItem("per_repo_overrides", ProjectOf(e), BudgetBody(e), e.note))
    ensures forall ins <- Insertions(Requested(e)) :: f(ins)
  {
    InsertionsAt(Requested(e));
  }

  lemma BudgetIsBody(e: OnboardEdit)
    ensures forall b <- BudgetBody(e) :: BodyText(b)
    ensures '\n' !in e.usd && '\n' !in e.runs ==> OneLiners(BudgetBody(e))
  {
  }

  /** An insertion that can be placed, is found again, and leaves mild lines. */
  ghost predicate Sound(ins: Insertion) {
    Placeable(ins) && Readable(ins) && (ins.MapItem? ==> ins.entry != "") && Tame(ins)
  }

  /** Every onboarding edit asks for insertions the editor can place. */
  lemma RequestedPlaceable(e: OnboardEdit)
    ensures forall ins <- Insertions(Requested(e)) :: Placeable(ins)
  {
    PathItemsAreItems(e.protectedPaths);
    BudgetIsBody(e);
    EachRequested(e, Placeable);
  }

  lemma ItemSound(key: string, anchor: Option<string>, project: string, note: string)
    requires AnchorKey(key) && (anchor.Some? ==> AnchorKey(anchor.value))
    requires '"' !in project && '#' !in project && '\n' !in project && QuietNote(note)
    ensures Sound(SeqItem(key, anchor, project, note))
  {
  }

  lemma EntrySound(key: string, project: string, body: Lines, note: string)
    requires AnchorKey(key) && EntryName(project) && '\n' !in project && QuietNote(note)
    requires (forall b <- body :: BodyText(b)) && OneLiners(body)
    ensures Sound(MapItem(key, project, body, note))
  {
  }

  /** A well-formed one asks for sound ones only. */
  lemma RequestedSound(e: OnboardEdit)
    requires Wellformed(e)
    ensures Steady(Insertions(Requested(e))) && forall ins <- Insertions(Requested(e)) :: Tame(ins)
  {
    var project := ProjectOf(e);
    PathItemsAreItems(e.protectedPaths);
    BudgetIsBody(e);
    ItemSound("demand_projects", None, project, e.note);
    ItemSound("projects", Some("eligible_label"), project, e.note);
    EntrySound("protected_paths_per_repo", project, PathItems(e.protectedPaths), e.note);
    EntrySound("per_repo_overrides", project, BudgetBody(e), e.note);
    EachRequested(e, Sound);
    assert forall ins <- Insertions(Requested(e)) :: Sound(ins);
  }

  function Names(todo: seq<Request>): seq<string> {
    if todo == [] then [] else [todo[0].0] + Names(todo[1..])
  }

  lemma {:induction false} NothingChanged(todo: seq<Request>)
    ensures Labels(todo, Nothing(|todo|), true) == [] && Labels(todo, Nothing(|todo|), false) == Names(todo)
  {
    if todo != [] {
      NothingChanged(todo[1..]);
    }
  }

  /** The second application returns the identical content, changes nothing and reports every requested key as skipped. */
  predicate SecondSkips(content: string, e: OnboardEdit)
    requires Apply(content, e).Ok?
  {
    var once := Apply(content, e).value;
    Apply(once.content, e) == Ok(Edited(once.content, [], Names(Requested(e))))
  }

  /** The onboarding edit is idempotent, on every policy file. */
  lemma OnboardTwice(content: string, e: OnboardEdit)
    requires Wellformed(e) && Apply(content, e).Ok?
    ensures SecondSkips(content, e)
  {
    var todo := Insertions(Requested(e));
    RequestedSound(e);
    InsertionsAt(Requested(e));
    SplitLines(content);
    AllStayMild(Split(content), todo);
    FlattenedSkips(Split(content), todo);
    var out := ApplyAll(Split(content), todo).value.0;
    JoinFlattens(out);
    SplitLines(Join(out));
    NothingChanged(Requested(e));
  }

  /** Every project path the request handler accepts makes a well-formed edit, given a quiet note and one-line texts. */
  lemma AcceptedWellformed(path: string, e: OnboardEdit)
    requires ValidProjectPath(path) == Ok(e.project)
    requires QuietNote(e.note) && '\n' !in e.usd && '\n' !in e.runs && forall p <- e.protectedPaths :: '\n' !in TrimSpace(p)
    ensures Wellformed(e) && ProjectOf(e) == e.project
  {
    AcceptedPath(path);
    AcceptedReadable(path);
  }

  // --- What the edit leaves alone ---

  /**
   Every edit of every file only inserts: the new content consists of the lines `out`, and deleting the
   inserted ones again gives back the old content, byte for byte.
   */
  lemma OnboardOnlyInserts(content: string, e: OnboardEdit) returns (out: Lines, trace: seq<Inserted>)
    requires Apply(content, e).Ok?
    ensures Join(out) == Apply(content, e).value.content && Split(Apply(content, e).value.content) == Flatten(out)
    ensures CanUndo(out, trace) && Join(Undo(out, trace)) == content
  {
    var todo := Insertions(Requested(e));
    SplitLines(content);
    out, trace := ApplyAll(Split(content), todo).value.0, Trace(Split(content), todo);
    EditsOnlyInsert(Split(content), todo);
    StaysNonEmpty(Split(content), todo);
    JoinFlattens(out);
  }

  lemma {:induction false} StaysNonEmpty(lines: Lines, todo: seq<Insertion>)
    requires lines != [] && ApplyAll(lines, todo).Ok?
    ensures ApplyAll(lines, todo).value.0 != []
    decreases |todo|
  {
    if todo != [] {
      TraceStep(lines, todo);
      StaysNonEmpty(ApplyOne(lines, todo[0]).value.0, todo[1..]);
    }
  }

  lemma SameUpToColon(t: string, key: string, other: string)
    requires ':' !in key && ':' !in other && key + ":" <= t && other + ":" <= t
    ensures key == other
  {
    assert t[|key|] == (key + ":")[|key|] && t[|other|] == (other + ":")[|other|];
    assert forall i | 0 <= i < |key| :: t[i] == (key + ":")[i] == key[i];
    assert forall i | 0 <= i < |other| :: t[i] == (other + ":")[i] == other[i];
    assert |key| == |other|;
  }

  lemma OneKey(line: string, key: string, other: string)
    requires AnchorKey(key) && AnchorKey(other) && OpensKey(line, key) && OpensKey(line, other)
    ensures key == other
  {
    assert ':' !in key && ':' !in other;
    SameUpToColon(SkipRe(line), key, other);
  }

  /** The insertions an edit asks for have different keys. */
  lemma KeysDiffer(e: OnboardEdit, a: nat, b: nat)
    requires a < b < |Requested(e)|
    ensures Requested(e)[a].1.key != Requested(e)[b].1.key
  {
  }

  /** The blocks an edit aims at are there and flat, and no later one holds an earlier one. */
  ghost predicate Unnested(lines: Lines, e: OnboardEdit) {
    var todo := Insertions(Requested(e));
    && (forall ins <- todo :: FlatFor(lines, ins))
    && (forall a, b | 0 <= a < b < |todo| :: NotAround(lines, todo[a], todo[b]))
  }

  ghost predicate NotAround(lines: Lines, earlier: Insertion, later: Insertion) {
    var t, u := Target(lines, earlier), Target(lines, later);
    t.Some? && u.Some? && !Encloses(Outlined(lines), u.value, t.value)
  }

  lemma UnnestedUntangled(lines: Lines, e: OnboardEdit)
    requires Unnested(lines, e)
    ensures Untangled(lines, Insertions(Requested(e)))
  {
    var todo := Insertions(Requested(e));
    InsertionsAt(Requested(e));
    RequestedPlaceable(e);
    forall a, b | 0 <= a < b < |todo|
      ensures ClearPair(lines, todo[a], todo[b])
    {
      assert NotAround(lines, todo[a], todo[b]);
      TargetKey(lines, todo[a]);
      TargetKey(lines, todo[b]);
      KeysDiffer(e, a, b);
      if Target(lines, todo[a]) == Target(lines, todo[b]) {
        OneKey(lines[Target(lines, todo[a]).value], todo[a].key, todo[b].key);
      }
    }
  }

  lemma TargetKey(lines: Lines, ins: Insertion)
    requires Target(lines, ins).Some?
    ensures Target(lines, ins).value < |lines| && OpensKey(lines[Target(lines, ins).value], ins.key)
  {
    OutcomeOfOne(lines, ins);
  }

  /**
   Framing of a whole onboarding edit: if the file shows the blocks aimed at to be flat and not nested,
   then every block that is none of them and holds none of them keeps its key line and its body.
   */
  lemma OnboardKeepsOthers(content: string, e: OnboardEdit, j: nat) returns (out: Lines, j': nat)
    requires Apply(content, e).Ok? && Unnested(Split(content), e)
    requires j < |Split(content)| && !Skipped(Split(content)[j])
    requires forall ins <- Insertions(Requested(e)) :: Clear(Split(content), ins, j)
    ensures Join(out) == Apply(content, e).value.content
    ensures j' < |out| && out[j'] == Split(content)[j] && Body(out, j') == Body(Split(content), j)
  {
    var lines, todo := Split(content), Insertions(Requested(e));
    RequestedPlaceable(e);
    UnnestedUntangled(lines, e);
    BypassedFromFile(lines, todo, j);
    BypassedBlocksKeep(lines, todo, j);
    out, j' := ApplyAll(lines, todo).value.0, MovedByAll(lines, todo, j);
  }
}
