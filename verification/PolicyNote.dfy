/** Which provenance notes keep the edit idempotent: exactly those whose further lines are blank or comments. */
module PolicyNote {
  import opened Basics
  import opened PolicyText
  import opened PolicyBlocks
  import opened PolicyEdit
  import opened PolicyEditLaws
  import opened PolicyIdempotence
  import opened PolicyFile

  // --- A policy file to try a note on ---

  function KeyLine(n: nat, key: string): string {
    Spaces(n) + (key + ":")
  }

  /** Five empty blocks, the first as deep as wanted and the others at the margin. */
  function Probe(d: nat): Lines {
    [KeyLine(d, "demand_projects"), KeyLine(0, "eligible_label"), KeyLine(0, "projects"),
     KeyLine(0, "protected_paths_per_repo"), KeyLine(0, "per_repo_overrides")]
  }

  lemma KeyLineIs(n: nat, key: string)
    requires Visible(key) && key[0] != '#' && ':' !in key
    ensures var l := KeyLine(n, key); !Skipped(l) && Indent(l) == n && SkipRe(l) == key + ":" && OpensKey(l, key)
  {
    assert Visible(key + ":") && (key + ":")[0] == key[0];
    PadSkipped(n, key + ":");
    PadIndent(n, key + ":");
  }

  /** A key line opens its own key only. */
  lemma OpensOwnKey(n: nat, key: string, other: string)
    requires Visible(key) && key[0] != '#' && ':' !in key && OpensKey(KeyLine(n, key), other)
    ensures other == key
  {
    KeyLineIs(n, key);
    var t := key + ":";
    assert t[|other|] == ':';
    assert forall i | 0 <= i < |key| :: t[i] == key[i] && key[i] != ':';
    assert |other| == |key|;
    assert t[..|key|] == key && t[..|other|] == other;
  }

  lemma KeyLinePlain(n: nat, key: string, c: char)
    requires c != ' ' && c != ':' && c !in key
    ensures c !in KeyLine(n, key)
  {
  }

  lemma ProbeAt(d: nat, i: nat)
    requires i < 5
    ensures Probe(d)[i] == KeyLine(if i == 0 then d else 0, KeyAt(i))
  {
  }

  /** No line of the probe is an inline list or map, or holds a break. */
  lemma ProbePlain(d: nat, i: nat, c: char)
    requires i < 5 && c in {'[', '{', '\n'}
    ensures c !in Probe(d)[i]
  {
    ProbeAt(d, i);
    KeyLinePlain(if i == 0 then d else 0, KeyAt(i), c);
  }

  lemma ProbeLines(d: nat)
    ensures OneLiners(Probe(d))
  {
    forall l | l in Probe(d)
      ensures '\n' !in l
    {
      var i :| 0 <= i < 5 && Probe(d)[i] == l;
      ProbePlain(d, i, '\n');
    }
  }

  lemma FindAt(d: nat, key: string, from: nat, k: nat)
    requires from <= k < 5 && KeyAt(k) == key
    ensures FindKey(Probe(d), key, from) == Some(k)
  {
    forall i | from <= i < k
      ensures !OpensKey(Probe(d)[i], key)
    {
      if OpensKey(Probe(d)[i], key) {
        ProbeAt(d, i);
        OpensOwnKey(if i == 0 then d else 0, KeyAt(i), key);
      }
    }
    ProbeAt(d, k);
    KeyLineIs(if k == 0 then d else 0, key);
    FindKeyIs(Probe(d), key, from, k);
  }

  function KeyAt(i: nat): string {
    if i == 0 then "demand_projects" else if i == 1 then "eligible_label" else if i == 2 then "projects"
    else if i == 3 then "protected_paths_per_repo" else "per_repo_overrides"
  }

  /** On the probe, everything but the first request is ready behind the first line. */
  lemma ProbeReady(d: nat, ins: Insertion)
    requires Placeable(ins) && ins.key != "demand_projects" && ins.key != "eligible_label"
    requires ins.SeqItem? <==> ins.key == "projects"
    requires ins.SeqItem? ==> ins.anchor == Some("eligible_label")
    ensures Ready(Probe(d), 1, ins)
  {
    FindAt(d, "eligible_label", 0, 1);
    FindAt(d, "projects", 1, 2);
    FindAt(d, "protected_paths_per_repo", 0, 3);
    FindAt(d, "per_repo_overrides", 0, 4);
    var k := Target(Probe(d), ins).value;
    ProbePlain(d, k, '[');
    ProbePlain(d, k, '{');
  }

  // --- The first pass ---

  /** A key line followed, after comments at most, by a line no deeper opens an empty block. */
  lemma EmptyBlock(lines: Lines, e: nat)
    requires 1 <= e <= |lines| && (forall i | 0 < i < e :: Skipped(lines[i]))
    requires e < |lines| ==> !Skipped(lines[e]) && Indent(lines[e]) <= Indent(lines[0])
    ensures LastOf(lines, 0) == 0
  {
    var o := Outlined(lines);
    forall i | 0 <= i < |lines|
      ensures o[i] == ShapeOf(lines[i])
    {
      OutlinedAt(lines, i);
    }
    BlockUnique(o, 0, e, 0, End(o, 0), Last(o, 0));
  }

  function Demand(project: string, note: string): Insertion {
    DemandRequest(project, note).1
  }

  /** Into an empty block an item is inserted, whatever stands behind the block. */
  lemma InsertedIntoEmpty(lines: Lines, value: string, note: string)
    requires lines != [] && OpensKey(lines[0], "demand_projects") && '[' !in lines[0] && LastOf(lines, 0) == 0
    ensures ApplyOne(lines, Demand(value, note)) == Ok((Insert(lines, 1, SeqLines(Indent(lines[0]) + 2, value, note)), true))
  {
    FindKeyIs(lines, "demand_projects", 0, 0);
    OutcomeOfOne(lines, Demand(value, note));
    NothingInEmpty(lines, value, note);
  }

  lemma NothingInEmpty(lines: Lines, value: string, note: string)
    requires lines != [] && LastOf(lines, 0) == 0
    ensures !PresentAt(lines, 0, Demand(value, note))
    ensures NewLines(lines, 0, Demand(value, note)) == SeqLines(Indent(lines[0]) + 2, value, note)
  {
  }

  /** The file starts with a plain key line `d` deep over an empty block. */
  ghost predicate Starts(lines: Lines, d: nat) {
    && lines != [] && OpensKey(lines[0], "demand_projects") && '[' !in lines[0] && '\n' !in lines[0]
    && Indent(lines[0]) == d && LastOf(lines, 0) == 0
  }

  lemma ProbeStarts(d: nat)
    ensures Starts(Probe(d), d)
  {
    ProbeAt(d, 0);
    ProbeAt(d, 1);
    KeyLineIs(d, "demand_projects");
    KeyLineIs(0, "eligible_label");
    ProbePlain(d, 0, '[');
    ProbePlain(d, 0, '\n');
    EmptyBlock(Probe(d), 1);
  }

  /** The file starts with this key line and, under it, the note. */
  ghost predicate Noted(lines: Lines, key: string, d: nat, note: string) {
    |lines| >= 2 && lines[0] == key && lines[1] == Spaces(d + 2) + ("# " + TrimSpace(note))
  }

  lemma TwoLines(n: nat, value: string, note: string)
    requires TrimSpace(note) != ""
    ensures |SeqLines(n, value, note)| == 2 && SeqLines(n, value, note)[0] == Spaces(n) + ("# " + TrimSpace(note))
  {
  }

  lemma PlacedSecond(lines: Lines, added: Lines)
    requires lines != [] && added != []
    ensures var out := Insert(lines, 1, added); |out| >= 2 && out[0] == lines[0] && out[1] == added[0] && Placed(lines, 1, added, out)
  {
  }

  lemma FirstRequest(lines: Lines, d: nat, project: string, note: string) returns (next: Lines)
    requires Starts(lines, d) && TrimSpace(note) != ""
    ensures ApplyOne(lines, Demand(project, note)) == Ok((next, true)) && Noted(next, lines[0], d, note)
    ensures Placed(lines, 1, SeqLines(d + 2, project, note), next)
  {
    var added := SeqLines(d + 2, project, note);
    InsertedIntoEmpty(lines, project, note);
    TwoLines(d + 2, project, note);
    PlacedSecond(lines, added);
    next := Insert(lines, 1, added);
  }

  /** What comes after the first request goes into the other four blocks. */
  lemma OtherRequests(e: OnboardEdit, d: nat)
    ensures var todo := Insertions(Requested(e));
      && todo != [] && todo[0] == Demand(ProjectOf(e), e.note) && forall ins <- todo[1..] :: Ready(Probe(d), 1, ins)
  {
    var todo := Insertions(Requested(e));
    InsertionsAt(Requested(e));
    RequestedPlaceable(e);
    forall ins | ins in todo[1..]
      ensures Ready(Probe(d), 1, ins)
    {
      var i :| 0 <= i < |todo[1..]| && todo[1..][i] == ins;
      assert ins == todo[i + 1] == Requested(e)[i + 1].1;
      OtherKind(e, i + 1);
      ProbeReady(d, ins);
    }
  }

  lemma OtherKind(e: OnboardEdit, i: nat)
    requires 1 <= i < |Requested(e)|
    ensures var ins := Requested(e)[i].1;
      && ins.key in {"projects", "protected_paths_per_repo", "per_repo_overrides"}
      && (ins.SeqItem? <==> ins.key == "projects") && (ins.SeqItem? ==> ins.anchor == Some("eligible_label"))
  {
  }

  /** On the probe the whole edit succeeds, and the note stands right under the first key. */
  lemma FirstPass(d: nat, e: OnboardEdit) returns (out: Lines)
    requires TrimSpace(e.note) != ""
    ensures var r := ApplyAll(Probe(d), Insertions(Requested(e)));
      r.Ok? && r.value.0 == out && Noted(out, Probe(d)[0], d, e.note)
  {
    var todo, added := Insertions(Requested(e)), SeqLines(d + 2, ProjectOf(e), e.note);
    OtherRequests(e, d);
    ProbeStarts(d);
    var next := FirstRequest(Probe(d), d, ProjectOf(e), e.note);
    SeqLinesShape(d + 2, ProjectOf(e), e.note);
    TwoLines(d + 2, ProjectOf(e), e.note);
    forall ins | ins in todo[1..]
      ensures Ready(next, 2, ins)
    {
      ReadyBehind(Probe(d), 1, added, next, 1, 2, ins);
    }
    ReadyAll(next, 2, todo[1..]);
    out := ApplyAll(next, todo[1..]).value.0;
    NotedFront(next, out, Probe(d)[0], d, e.note);
  }

  lemma NotedFront(next: Lines, out: Lines, key: string, d: nat, note: string)
    requires Noted(next, key, d, note) && |out| >= 2 && out[..2] == next[..2]
    ensures Noted(out, key, d, note)
  {
    assert out[0] == out[..2][0] && out[1] == out[..2][1];
  }

  // --- The second pass ---

  /** The first further line of the note that is neither blank nor a comment. */
  lemma {:induction false} FirstLoud(parts: Lines, i: nat) returns (q: nat)
    requires 1 <= i < |parts| && exists m | i <= m < |parts| :: !Skipped(parts[m])
    ensures i <= q < |parts| && !Skipped(parts[q]) && forall m | i <= m < q :: Skipped(parts[m])
    decreases |parts| - i
  {
    if !Skipped(parts[i]) {
      q := i;
    } else {
      q := FirstLoud(parts, i + 1);
    }
  }

  lemma FlattenFront(out: Lines)
    requires |out| >= 2 && '\n' !in out[0]
    ensures Flatten(out) == [out[0]] + Split(out[1]) + Flatten(out[2..])
  {
    SplitLine(out[0]);
    var tail := out[1..];
    assert tail[0] == out[1] && tail[1..] == out[2..];
    assert Flatten(out) == Split(out[0]) + Flatten(tail);
    assert Flatten(tail) == Split(tail[0]) + Flatten(tail[1..]);
  }

  /** Behind the key, the lines of the note stand on their own. */
  ghost predicate Apart(back: Lines, key: string, parts: Lines) {
    && parts != [] && |back| > |parts| && back[0] == key && Skipped(back[1]) && forall i | 1 <= i < |parts| :: back[i + 1] == parts[i]
  }

  lemma ReadBack(out: Lines, key: string, d: nat, note: string)
    requires Noted(out, key, d, note) && '\n' !in key
    ensures Apart(Flatten(out), key, Split(TrimSpace(note)))
  {
    NoteParts(d + 2, note);
    FlattenFront(out);
    PartsApart(Flatten(out), key, Spaces(d + 2) + ("# " + Split(TrimSpace(note))[0]), Split(TrimSpace(note)), Flatten(out[2..]));
  }

  lemma PartsApart(back: Lines, key: string, comment: string, parts: Lines, rest: Lines)
    requires parts != [] && Skipped(comment) && back == [key] + ([comment] + parts[1..]) + rest
    ensures Apart(back, key, parts)
  {
  }

  /** A loud line of the note no deeper than the key closes the block; the item behind it is not found. */
  lemma BlockClosed(back: Lines, key: string, parts: Lines, q: nat)
    requires Apart(back, key, parts) && 1 <= q < |parts|
    requires !Skipped(parts[q]) && Indent(parts[q]) <= Indent(key) && forall m | 1 <= m < q :: Skipped(parts[m])
    ensures LastOf(back, 0) == 0
  {
    forall i | 0 < i < q + 1
      ensures Skipped(back[i])
    {
      assert i > 1 ==> back[i - 1 + 1] == parts[i - 1];
    }
    EmptyBlock(back, q + 1);
  }

  /** A pass whose first insertion changes something reports a change, or fails. */
  lemma FirstChanges(lines: Lines, e: OnboardEdit, next: Lines)
    requires ApplyOne(lines, Demand(ProjectOf(e), e.note)) == Ok((next, true))
    ensures var r := ApplyAll(lines, Insertions(Requested(e)));
      r.Ok? ==> Labels(Requested(e), r.value.1, true) != []
  {
    InsertionsAt(Requested(e));
    var r := ApplyAll(lines, Insertions(Requested(e)));
    if r.Ok? {
      assert Requested(e)[0] == DemandRequest(ProjectOf(e), e.note);
      assert r.value.1[0];
    }
  }

  lemma SecondPass(back: Lines, key: string, e: OnboardEdit, q: nat)
    requires OpensKey(key, "demand_projects") && '[' !in key && Apart(back, key, Split(TrimSpace(e.note)))
    requires var parts := Split(TrimSpace(e.note));
      && 1 <= q < |parts| && !Skipped(parts[q]) && Indent(parts[q]) <= Indent(key) && forall m | 1 <= m < q :: Skipped(parts[m])
    ensures var again := ApplyAll(back, Insertions(Requested(e))); again.Ok? ==> Labels(Requested(e), again.value.1, true) != []
  {
    BlockClosed(back, key, Split(TrimSpace(e.note)), q);
    InsertedIntoEmpty(back, ProjectOf(e), e.note);
    FirstChanges(back, e, Insert(back, 1, SeqLines(Indent(key) + 2, ProjectOf(e), e.note)));
  }

  /** On the probe, the second pass over what a loud note left fails or changes something again. */
  lemma RepeatsOnProbe(e: OnboardEdit, q: nat)
    requires var parts := Split(TrimSpace(e.note));
      1 <= q < |parts| && !Skipped(parts[q]) && forall m | 1 <= m < q :: Skipped(parts[m])
    ensures var d := Indent(Split(TrimSpace(e.note))[q]); var todo := Insertions(Requested(e));
      var r := ApplyAll(Probe(d), todo);
      r.Ok? && (var again := ApplyAll(Flatten(r.value.0), todo); again.Ok? ==> Labels(Requested(e), again.value.1, true) != [])
  {
    var parts := Split(TrimSpace(e.note));
    var d := Indent(parts[q]);
    assert TrimSpace(e.note) != "" by {
      assert |Split("")| == 1;
    }
    var out := FirstPass(d, e);
    ProbeStarts(d);
    ReadBack(out, Probe(d)[0], d, e.note);
    SecondPass(Flatten(out), Probe(d)[0], e, q);
  }

  /** Any note with a loud further line breaks the promise on some file, whatever else the edit asks for. */
  lemma LoudNoteRepeats(e: OnboardEdit) returns (content: string)
    requires ProjectOf(e) != "" && !QuietNote(e.note)
    ensures Apply(content, e).Ok? && !SecondSkips(content, e)
  {
    var parts := Split(TrimSpace(e.note));
    var q := FirstLoud(parts, 1);
    var lines := Probe(Indent(parts[q]));
    content := Join(lines);
    ProbeLines(Indent(parts[q]));
    JoinSplits(lines);
    RepeatsOnProbe(e, q);
    StaysNonEmpty(lines, Insertions(Requested(e)));
    JoinFlattens(ApplyAll(lines, Insertions(Requested(e))).value.0);
  }

  /**
   Exactly the quiet notes are safe: an edit with plain texts is idempotent on every policy file it applies
   to if and only if the further lines of its note, if there are any, are blank or comments.
   */
  lemma QuietNotesExactly(e: OnboardEdit)
    requires PlainTexts(e)
    ensures QuietNote(e.note) <==> forall content :: Apply(content, e).Ok? ==> SecondSkips(content, e)
  {
    if QuietNote(e.note) {
      forall content | Apply(content, e).Ok?
        ensures SecondSkips(content, e)
      {
        OnboardTwice(content, e);
      }
    } else {
      var content := LoudNoteRepeats(e);
    }
  }
}
