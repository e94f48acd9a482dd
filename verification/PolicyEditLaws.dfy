/** What the onboarding edit promises: it only inserts, it frames every other block, and it is idempotent. */
module PolicyEditLaws {
  import opened Basics
  import opened PolicyText
  import opened PolicyBlocks
  import opened PolicyEdit

  // --- What is inserted, and where ---

  /** `out` is `lines` with `ins` placed after the last body line of the block at `k`. */
  ghost predicate Inserts(lines: Lines, k: nat, ins: Lines, out: Lines) {
    && k < |lines| && LastOf(lines, k) < |lines|
    && Placed(lines, LastOf(lines, k) + 1, ins, out)
    && Extended(Outlined(lines), k, LastOf(lines, k) + 1, Outlined(ins), Outlined(out))
  }

  /** A line the editor may insert: padded text that starts like none of the anchor keys. */
  ghost predicate Neutral(line: string) {
    forall key | AnchorKey(key) :: !OpensKey(line, key)
  }

  predicate AnchorKey(key: string) {
    key in {"demand_projects", "eligible_label", "projects", "protected_paths_per_repo", "per_repo_overrides"}
  }

  lemma PadNeutral(n: nat, s: string)
    requires Visible(s) && s[0] in {'#', '-', '"', 'm'}
    ensures Neutral(Spaces(n) + s)
  {
    forall key | AnchorKey(key)
      ensures !OpensKey(Spaces(n) + s, key)
    {
      PadOpensNoKey(n, s, key);
    }
  }

  /** What the editor adds to an entry's body: items and caps, each a visible one-line text. */
  ghost predicate BodyText(s: string) {
    Visible(s) && s[0] in {'-', 'm'}
  }

  lemma NoteShape(n: nat, note: string)
    ensures forall l <- NoteLine(n, note) :: Skipped(l) && Neutral(l)
    ensures forall l <- NoteLine(n, note) :: !ItemValue(l).Some?
    ensures |NoteLine(n, note)| <= 1
  {
    var s := "# " + TrimSpace(note);
    PadSkipped(n, s);
    PadNeutral(n, s);
    PadIndent(n, s);
  }

  lemma ItemShape(n: nat, value: string)
    ensures var l := Spaces(n) + ("- " + Quote(value)); !Skipped(l) && Indent(l) == n && Neutral(l)
  {
    PadSkipped(n, "- " + Quote(value));
    PadNeutral(n, "- " + Quote(value));
    PadIndent(n, "- " + Quote(value));
  }

  lemma SeqLinesShape(n: nat, value: string, note: string)
    ensures var ins := SeqLines(n, value, note);
      && (forall l <- ins :: Neutral(l) && (Skipped(l) || Indent(l) == n))
      && !Skipped(ins[|ins| - 1]) && forall m | 0 <= m < |ins| - 1 :: Skipped(ins[m])
  {
    NoteShape(n, note);
    ItemShape(n, value);
  }

  lemma EntryShape(n: nat, entry: string)
    ensures var l := Spaces(n) + (Quote(entry) + ":"); !Skipped(l) && Indent(l) == n && Neutral(l)
  {
    PadSkipped(n, Quote(entry) + ":");
    PadNeutral(n, Quote(entry) + ":");
    PadIndent(n, Quote(entry) + ":");
  }

  lemma BodyShape(n: nat, s: string)
    requires BodyText(s)
    ensures var l := Spaces(n) + s; !Skipped(l) && Indent(l) == n && Neutral(l)
  {
    PadSkipped(n, s);
    PadNeutral(n, s);
    PadIndent(n, s);
  }

  lemma PaddedShape(n: nat, body: Lines)
    requires forall b <- body :: BodyText(b)
    ensures forall l <- Padded(n, body) :: !Skipped(l) && Indent(l) == n && Neutral(l)
  {
    forall l | l in Padded(n, body)
      ensures !Skipped(l) && Indent(l) == n && Neutral(l)
    {
      var m :| 0 <= m < |body| && l == Padded(n, body)[m];
      BodyShape(n, body[m]);
    }
  }

  /** The parts of a new map entry: an optional note, the entry line, and its body one level deeper. */
  lemma MapLinesShape(n: nat, entry: string, body: Lines, note: string)
    requires forall b <- body :: BodyText(b)
    ensures forall l <- MapLines(n, entry, body, note) :: Neutral(l) && (Skipped(l) || Indent(l) >= n)
    ensures var ins := MapLines(n, entry, body, note); !Skipped(ins[|ins| - 1])
  {
    NoteShape(n, note);
    EntryShape(n, entry);
    PaddedShape(n + 2, body);
    var ins, padded := MapLines(n, entry, body, note), Padded(n + 2, body);
    if body != [] {
      assert ins[|ins| - 1] == padded[|padded| - 1] && padded[|padded| - 1] in padded;
    }
  }

  lemma {:induction false} OutlineJoin(a: Lines, b: Lines)
    ensures Outlined(a + b) == Outlined(a) + Outlined(b)
  {
    if a == [] {
      assert a + b == b;
    } else {
      assert (a + b)[1..] == a[1..] + b;
      OutlineJoin(a[1..], b);
    }
  }

  lemma OutlineInsert(lines: Lines, p: nat, ins: Lines)
    requires p <= |lines|
    ensures Outlined(Insert(lines, p, ins)) == Insert(Outlined(lines), p, Outlined(ins))
  {
    OutlineJoin(lines[..p], lines[p..]);
    assert lines == lines[..p] + lines[p..];
    OutlineJoin(lines[..p] + ins, lines[p..]);
    OutlineJoin(lines[..p], ins);
    var o := Outlined(lines);
    assert o[..p] == Outlined(lines[..p]) && o[p..] == Outlined(lines[p..]);
  }

  lemma DeeperOutline(ins: Lines, indent: nat)
    requires forall l <- ins :: Skipped(l) || Indent(l) > indent
    ensures Deeper(Outlined(ins), indent)
  {
    forall l | l in Outlined(ins)
      ensures l.skipped || l.indent > indent
    {
      var m :| 0 <= m < |ins| && l == Outlined(ins)[m];
      OutlinedAt(ins, m);
      assert ins[m] in ins;
    }
  }

  lemma MakesInsert(lines: Lines, k: nat, ins: Lines)
    requires k < |lines| && !Skipped(lines[k]) && ins != [] && !Skipped(ins[|ins| - 1])
    requires forall l <- ins :: Skipped(l) || Indent(l) > Indent(lines[k])
    ensures LastOf(lines, k) < |lines| && Inserts(lines, k, ins, Insert(lines, LastOf(lines, k) + 1, ins))
  {
    LastBounds(lines, k);
    var p := LastOf(lines, k) + 1;
    InsertPlaces(lines, p, ins);
    InsertPlaces(Outlined(lines), p, Outlined(ins));
    OutlineInsert(lines, p, ins);
    DeeperOutline(ins, Indent(lines[k]));
    OutlinedAt(lines, k);
    OutlinedAt(ins, |ins| - 1);
  }

  lemma AnchorVisible(line: string, key: string)
    requires AnchorKey(key) && OpensKey(line, key)
    ensures !Skipped(line)
  {
    KeyLineVisible(line, key);
  }

  lemma ItemIndentDeeper(lines: Lines, k: nat)
    requires k < |lines|
    ensures ItemIndent(lines, k) > Indent(lines[k])
  {
    LastBounds(lines, k);
    OutlinedAt(lines, k);
    OutlinedAt(lines, LastOf(lines, k));
    assert IsBlock(Outlined(lines), k, EndOf(lines, k), LastOf(lines, k));
  }

  lemma EntryIndentDeeper(lines: Lines, k: nat)
    requires k < |lines|
    ensures EntryIndent(lines, k) > Indent(lines[k])
  {
    OutlinedAt(lines, k);
    if LastOf(lines, k) > k {
      FirstBodyInBlock(Outlined(lines), k);
    }
  }

  /** The anchors are policy keys and the body lines are items or caps, as in every onboarding edit. */
  ghost predicate Placeable(ins: Insertion) {
    && AnchorKey(ins.key)
    && match ins
       case SeqItem(_, anchor, _, _) => anchor.Some? ==> AnchorKey(anchor.value)
       case MapItem(_, _, body, _) => forall b <- body :: BodyText(b)
  }

  /** The line the block to edit opens on. */
  function Target(lines: Lines, ins: Insertion): Option<nat> {
    match ins
    case SeqItem(key, None, _, _) => FindKey(lines, key, 0)
    case SeqItem(key, Some(anchor), _, _) =>
      (match FindKey(lines, anchor, 0) case None => None case Some(a) => FindKey(lines, key, a))
    case MapItem(key, _, _, _) => FindKey(lines, key, 0)
  }

  function NewLines(lines: Lines, k: nat, ins: Insertion): Lines
    requires k < |lines|
  {
    match ins
    case SeqItem(_, _, value, note) => SeqLines(ItemIndent(lines, k), value, note)
    case MapItem(_, entry, body, note) => MapLines(EntryIndent(lines, k), entry, body, note)
  }

  ghost predicate PresentAt(lines: Lines, k: nat, ins: Insertion)
    requires k < |lines|
  {
    match ins
    case SeqItem(_, _, value, _) => SeqPresent(lines, k, value)
    case MapItem(_, entry, _, _) => MapPresent(lines, k, entry)
  }

  /** A key line the editor refuses to insert under. */
  predicate Inline(line: string, ins: Insertion) {
    match ins
    case SeqItem(_, _, _, _) => '[' in line
    case MapItem(_, _, _, _) => HasBraces(line)
  }

  /** Every insertion has one of four outcomes, decided by its key line and the block under it. */
  lemma OutcomeOfOne(lines: Lines, ins: Insertion)
    ensures var r := ApplyOne(lines, ins);
      match Target(lines, ins)
      case None => r.Err? && r.error.MissingAnchor?
      case Some(k) =>
        k < |lines| && OpensKey(lines[k], ins.key) && LastOf(lines, k) < |lines| &&
        if Inline(lines[k], ins) then r.Err? && !r.error.MissingAnchor?
        else if PresentAt(lines, k, ins) then r == Ok((lines, false))
        else r == Ok((Insert(lines, LastOf(lines, k) + 1, NewLines(lines, k, ins)), true))
  {
    var t := Target(lines, ins);
    if t.Some? {
      LastBounds(lines, t.value);
    }
  }

  /** Whatever is inserted consists of neutral, deeper lines at the end of its block. */
  lemma ChangePlaces(lines: Lines, ins: Insertion, k: nat)
    requires Placeable(ins) && Target(lines, ins) == Some(k)
    ensures k < |lines| && LastOf(lines, k) < |lines|
    ensures Inserts(lines, k, NewLines(lines, k, ins), Insert(lines, LastOf(lines, k) + 1, NewLines(lines, k, ins)))
    ensures forall l <- NewLines(lines, k, ins) :: Neutral(l)
  {
    OutcomeOfOne(lines, ins);
    AnchorVisible(lines[k], ins.key);
    ItemIndentDeeper(lines, k);
    EntryIndentDeeper(lines, k);
    match ins {
      case SeqItem(_, _, value, note) => SeqLinesShape(ItemIndent(lines, k), value, note);
      case MapItem(_, entry, body, note) => MapLinesShape(EntryIndent(lines, k), entry, body, note);
    }
    MakesInsert(lines, k, NewLines(lines, k, ins));
  }

  // --- Anchors keep their places ---

  lemma {:induction false} FindStable(lines: Lines, p: nat, ins: Lines, out: Lines, key: string, from: nat)
    requires Placed(lines, p, ins, out) && forall l <- ins :: !OpensKey(l, key)
    ensures FindKey(out, key, Shift(from, p, |ins|)) ==
            match FindKey(lines, key, from) case None => None case Some(k) => Some(Shift(k, p, |ins|))
    decreases |lines| - from
  {
    if from < |lines| && !OpensKey(lines[from], key) {
      FindStable(lines, p, ins, out, key, from + 1);
      if from + 1 == p {
        SkipInserted(lines, p, ins, out, key, 0);
      }
    }
  }

  lemma {:induction false} SkipInserted(lines: Lines, p: nat, ins: Lines, out: Lines, key: string, m: nat)
    requires Placed(lines, p, ins, out) && m <= |ins| && forall l <- ins :: !OpensKey(l, key)
    ensures FindKey(out, key, p + m) == FindKey(out, key, p + |ins|)
    decreases |ins| - m
  {
    if m < |ins| {
      assert out[p + m] == ins[m] && ins[m] in ins;
      SkipInserted(lines, p, ins, out, key, m + 1);
    }
  }

  /** The first key line of the file moves with the insertion. */
  lemma FirstStable(lines: Lines, p: nat, ins: Lines, out: Lines, key: string)
    requires Placed(lines, p, ins, out) && forall l <- ins :: !OpensKey(l, key)
    ensures FindKey(out, key, 0) == match FindKey(lines, key, 0) case None => None case Some(k) => Some(Shift(k, p, |ins|))
  {
    FindStable(lines, p, ins, out, key, 0);
    if p == 0 {
      SkipInserted(lines, p, ins, out, key, 0);
    }
  }

  lemma TargetStable(lines: Lines, p: nat, added: Lines, out: Lines, ins: Insertion)
    requires Placed(lines, p, added, out) && Placeable(ins) && forall l <- added :: Neutral(l)
    ensures Target(out, ins) == match Target(lines, ins) case None => None case Some(k) => Some(Shift(k, p, |added|))
  {
    FirstStable(lines, p, added, out, ins.key);
    if ins.SeqItem? && ins.anchor.Some? {
      FirstStable(lines, p, added, out, ins.anchor.value);
      var a := FindKey(lines, ins.anchor.value, 0);
      if a.Some? {
        FindStable(lines, p, added, out, ins.key, a.value);
      }
    }
  }

  // --- What is present stays present ---

  /** Some body line of the block has the property. */
  ghost predicate BodyHas(lines: Lines, k: nat, f: string -> bool)
    requires k < |lines|
  {
    exists i | k < i < |lines| :: i <= LastOf(lines, k) && f(lines[i])
  }

  lemma BodyHasStays(lines: Lines, k: nat, added: Lines, out: Lines, j: nat, f: string -> bool)
    requires Inserts(lines, k, added, out) && j < |lines| && !Skipped(lines[j]) && BodyHas(lines, j, f)
    requires forall l :: f(l) ==> !Skipped(l)
    ensures Shift(j, LastOf(lines, k) + 1, |added|) < |out|
    ensures BodyHas(out, Shift(j, LastOf(lines, k) + 1, |added|), f)
  {
    var p := LastOf(lines, k) + 1;
    var i :| j < i < |lines| && i <= LastOf(lines, j) && f(lines[i]);
    OutlinedAt(lines, i);
    OutlinedAt(lines, j);
    BodyLineStays(Outlined(lines), k, p, Outlined(added), Outlined(out), j, i);
    ShiftedLine(lines, p, added, out, i);
  }

  lemma SeqPresentIs(lines: Lines, k: nat, value: string)
    requires k < |lines|
    ensures SeqPresent(lines, k, value) <==> BodyHas(lines, k, l => ItemIs(l, value))
  {
    LastBounds(lines, k);
    var f := l => ItemIs(l, value);
    if SeqPresent(lines, k, value) {
      var i :| k < i <= LastOf(lines, k) && ItemIs(lines[i], value);
      assert f(lines[i]);
    }
  }

  lemma MapPresentIs(lines: Lines, k: nat, entry: string)
    requires k < |lines|
    ensures MapPresent(lines, k, entry) <==> BodyHas(lines, k, EntryTest(EntryIndent(lines, k), entry))
  {
    LastBounds(lines, k);
    var f := EntryTest(EntryIndent(lines, k), entry);
    if MapPresent(lines, k, entry) {
      var i :| k < i <= LastOf(lines, k) && IsEntry(lines[i], EntryIndent(lines, k), entry);
      assert f(lines[i]);
    }
  }

  function EntryTest(indent: nat, entry: string): string -> bool {
    l => IsEntry(l, indent, entry)
  }

  lemma EntryIndentStays(lines: Lines, k: nat, added: Lines, out: Lines, j: nat)
    requires Inserts(lines, k, added, out) && j < |lines| && !Skipped(lines[j]) && LastOf(lines, j) > j
    ensures var j' := Shift(j, LastOf(lines, k) + 1, |added|);
      j' < |out| && EntryIndent(out, j') == EntryIndent(lines, j)
  {
    var p, o, o' := LastOf(lines, k) + 1, Outlined(lines), Outlined(out);
    var j' := Shift(j, p, |added|);
    OutlinedAt(lines, j);
    FirstBodyInBlock(o, j);
    var f := FirstBody(o, j + 1);
    FirstStays(o, k, p, Outlined(added), o', j);
    BodyLineStays(o, k, p, Outlined(added), o', j, f);
    ShiftedLine(o, p, Outlined(added), o', f);
  }

  lemma PresentStays(lines: Lines, k: nat, added: Lines, out: Lines, j: nat, ins: Insertion)
    requires Inserts(lines, k, added, out) && j < |lines| && !Skipped(lines[j]) && PresentAt(lines, j, ins)
    ensures Shift(j, LastOf(lines, k) + 1, |added|) < |out|
    ensures PresentAt(out, Shift(j, LastOf(lines, k) + 1, |added|), ins)
  {
    var j' := Shift(j, LastOf(lines, k) + 1, |added|);
    match ins {
      case SeqItem(_, _, value, _) =>
        SeqPresentIs(lines, j, value);
        forall l | ItemIs(l, value)
          ensures !Skipped(l)
        {
          ItemLineVisible(l);
        }
        BodyHasStays(lines, k, added, out, j, l => ItemIs(l, value));
        SeqPresentIs(out, j', value);
      case MapItem(_, entry, _, _) =>
        MapPresentIs(lines, j, entry);
        EntryIndentStays(lines, k, added, out, j);
        BodyHasStays(lines, k, added, out, j, EntryTest(EntryIndent(lines, j), entry));
        MapPresentIs(out, j', entry);
    }
  }

  // --- Runs of steps ---

  /** A run of steps, cut in two. */
  lemma {:induction false} ChainJoin<S, X, E>(step: (S, X) -> Result<(S, bool), E>, from: S, a: seq<X>, b: seq<X>)
    requires Chain(step, from, a).Ok?
    ensures var (mid, did) := Chain(step, from, a).value;
      Chain(step, from, a + b) == match Chain(step, mid, b) case Err(e) => Err(e) case Ok((last, more)) => Ok((last, did + more))
    decreases |a|
  {
    if a == [] {
      assert a + b == b;
      assert forall more: seq<bool> :: [] + more == more;
    } else {
      assert (a + b)[1..] == a[1..] + b;
      var (next, one) := step(from, a[0]).value;
      ChainJoin(step, next, a[1..], b);
      var did := Chain(step, next, a[1..]).value.1;
      assert forall more: seq<bool> :: [one] + (did + more) == [one] + did + more;
    }
  }

  lemma {:induction false} InsertionsJoin(a: seq<Request>, b: seq<Request>)
    ensures Insertions(a + b) == Insertions(a) + Insertions(b)
  {
    if a == [] {
      assert a + b == b;
    } else {
      assert (a + b)[1..] == a[1..] + b;
      InsertionsJoin(a[1..], b);
    }
  }
}
