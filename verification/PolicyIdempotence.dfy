/** Making an insertion twice is making it once, for one and for any number of insertions. */
module PolicyIdempotence {
  import opened Basics
  import opened PolicyText
  import opened PolicyBlocks
  import opened PolicyEdit
  import opened PolicyEditLaws

  // --- One insertion ---

  /** The name reads back as itself from the line the editor writes it on. */
  predicate Readable(ins: Insertion) {
    match ins
    case SeqItem(_, _, value, _) => '"' !in value && '#' !in value
    case MapItem(_, entry, _, _) => EntryName(entry)
  }

  /** Nothing is left to insert: the key line takes lines, and its block has the item or entry. */
  ghost predicate Satisfied(lines: Lines, ins: Insertion) {
    var t := Target(lines, ins);
    t.Some? && t.value < |lines| && !Inline(lines[t.value], ins) && PresentAt(lines, t.value, ins)
  }

  lemma SatisfiedIsSkip(lines: Lines, ins: Insertion)
    ensures Satisfied(lines, ins) <==> ApplyOne(lines, ins) == Ok((lines, false))
    ensures ApplyOne(lines, ins).Ok? && !ApplyOne(lines, ins).value.1 ==> ApplyOne(lines, ins).value.0 == lines
  {
    OutcomeOfOne(lines, ins);
    var t := Target(lines, ins);
    if t.Some? && !Inline(lines[t.value], ins) && !PresentAt(lines, t.value, ins) {
      assert |Insert(lines, LastOf(lines, t.value) + 1, NewLines(lines, t.value, ins))| >= |lines|;
    }
  }

  /** What an insertion that changes the file did: where, and what. */
  lemma ChangeMade(lines: Lines, ins: Insertion) returns (k: nat, added: Lines)
    requires Placeable(ins) && ApplyOne(lines, ins).Ok? && ApplyOne(lines, ins).value.1
    ensures Target(lines, ins) == Some(k) && k < |lines| && added == NewLines(lines, k, ins)
    ensures !Inline(lines[k], ins) && !PresentAt(lines, k, ins) && !Skipped(lines[k])
    ensures Inserts(lines, k, added, ApplyOne(lines, ins).value.0)
    ensures forall l <- added :: Neutral(l)
  {
    k := ChangedBlock(lines, ins);
    AnchorVisible(lines[k], ins.key);
    added := NewLines(lines, k, ins);
    ChangePlaces(lines, ins, k);
  }

  lemma ChangedBlock(lines: Lines, ins: Insertion) returns (k: nat)
    requires ApplyOne(lines, ins).Ok? && ApplyOne(lines, ins).value.1
    ensures Target(lines, ins) == Some(k) && k < |lines| && LastOf(lines, k) < |lines|
    ensures !Inline(lines[k], ins) && !PresentAt(lines, k, ins) && OpensKey(lines[k], ins.key)
    ensures ApplyOne(lines, ins).value.0 == Insert(lines, LastOf(lines, k) + 1, NewLines(lines, k, ins))
  {
    OutcomeOfOne(lines, ins);
    k := Target(lines, ins).value;
  }

  lemma OwnItemIs(n: nat, value: string)
    ensures ItemIs(Spaces(n) + ("- " + Quote(value)), value) <==> '"' !in value && '#' !in value
  {
    assert Spaces(n) + ("- " + Quote(value)) == Spaces(n) + "- " + Quote(value);
    ItemReadsBack(n, value);
  }

  lemma OwnEntryIs(n: nat, entry: string)
    requires entry != ""
    ensures EntryIs(Spaces(n) + (Quote(entry) + ":"), entry) <==> EntryName(entry)
  {
    assert Spaces(n) + (Quote(entry) + ":") == Spaces(n) + Quote(entry) + ":";
    EntryReadsBack(n, entry);
  }

  /** Every line of the grown block is a line it had, or an inserted one. */
  lemma GrownBody(lines: Lines, k: nat, added: Lines, out: Lines)
    requires Inserts(lines, k, added, out)
    ensures k < |out| && out[k] == lines[k] && LastOf(out, k) == LastOf(lines, k) + |added| < |out|
    ensures forall i | k < i <= LastOf(lines, k) :: out[i] == lines[i]
    ensures forall i | LastOf(lines, k) < i <= LastOf(out, k) :: out[i] == added[i - LastOf(lines, k) - 1]
  {
    LastBounds(lines, k);
    TargetGrows(Outlined(lines), k, LastOf(lines, k) + 1, Outlined(added), Outlined(out));
  }

  /** A sequence item just inserted is found again exactly when its value is readable. */
  lemma SeqFoundAgain(lines: Lines, k: nat, value: string, note: string, out: Lines)
    requires k < |lines| && Inserts(lines, k, SeqLines(ItemIndent(lines, k), value, note), out) && !SeqPresent(lines, k, value)
    ensures k < |out| && (SeqPresent(out, k, value) <==> '"' !in value && '#' !in value)
  {
    var n := ItemIndent(lines, k);
    var added := SeqLines(n, value, note);
    GrownBody(lines, k, added, out);
    NoteShape(n, note);
    OwnItemIs(n, value);
    assert forall m | 0 <= m < |added| - 1 :: added[m] == NoteLine(n, note)[m] && NoteLine(n, note)[m] in NoteLine(n, note);
    assert forall m | 0 <= m < |added| - 1 :: !ItemIs(added[m], value);
    var last := LastOf(out, k);
    assert out[last] == added[|added| - 1];
    forall i | k < i < last
      ensures !ItemIs(out[i], value)
    {
      if i > LastOf(lines, k) {
        assert out[i] == added[i - LastOf(lines, k) - 1];
      }
    }
  }

  /** The block's entry indent is what it was, and what its first entry has if it had none. */
  lemma EntryIndentKept(lines: Lines, k: nat, entry: string, body: Lines, note: string, out: Lines)
    requires k < |lines| && !Skipped(lines[k])
    requires Inserts(lines, k, MapLines(EntryIndent(lines, k), entry, body, note), out)
    ensures k < |out| && EntryIndent(out, k) == EntryIndent(lines, k)
  {
    var n := EntryIndent(lines, k);
    var added := MapLines(n, entry, body, note);
    LastBounds(lines, k);
    OutlinedAt(lines, k);
    if LastOf(lines, k) > k {
      EntryIndentStays(lines, k, added, out, k);
    } else {
      GrownBody(lines, k, added, out);
      NoteShape(n, note);
      EntryShape(n, entry);
      var f := k + 1 + |NoteLine(n, note)|;
      assert added[|NoteLine(n, note)|] == Spaces(n) + (Quote(entry) + ":");
      forall m | k + 1 <= m < f
        ensures Outlined(out)[m].skipped
      {
        OutlinedAt(out, m);
        assert out[m] == NoteLine(n, note)[m - k - 1];
      }
      OutlinedAt(out, f);
      FirstBodyIs(Outlined(out), k + 1, f);
    }
  }

  lemma NoteIsNoEntry(n: nat, entry: string, note: string)
    ensures forall l <- NoteLine(n, note) :: !IsEntry(l, n, entry)
  {
    NoteShape(n, note);
  }

  lemma BodyIsNoEntry(n: nat, entry: string, body: Lines)
    requires forall b <- body :: BodyText(b)
    ensures forall l <- Padded(n + 2, body) :: !IsEntry(l, n, entry)
  {
    PaddedShape(n + 2, body);
  }

  lemma EntryIsEntry(n: nat, entry: string)
    requires entry != ""
    ensures IsEntry(Spaces(n) + (Quote(entry) + ":"), n, entry) <==> EntryName(entry)
  {
    EntryShape(n, entry);
    OwnEntryIs(n, entry);
  }

  lemma EntryLines(n: nat, entry: string, body: Lines, note: string, m: nat)
    requires entry != "" && (forall b <- body :: BodyText(b)) && m < |MapLines(n, entry, body, note)|
    ensures EntryTest(n, entry)(MapLines(n, entry, body, note)[m]) <==> m == |NoteLine(n, note)| && EntryName(entry)
  {
    NoteIsNoEntry(n, entry, note);
    BodyIsNoEntry(n, entry, body);
    EntryIsEntry(n, entry);
    PartOf(NoteLine(n, note), Spaces(n) + (Quote(entry) + ":"), Padded(n + 2, body), m);
  }

  /** A line of a new entry is its note, its entry line, or in its body. */
  lemma PartOf(notes: Lines, l: string, padded: Lines, m: nat)
    requires m < |notes + [l] + padded|
    ensures var x := (notes + [l] + padded)[m];
      if m < |notes| then x in notes else if m == |notes| then x == l else x in padded
  {
  }

  /** In a grown block, what only one inserted line is, only that line is. */
  lemma OnlyInserted(lines: Lines, k: nat, added: Lines, out: Lines, f: string -> bool, at: nat, holds: bool)
    requires Inserts(lines, k, added, out) && at < |added|
    requires forall i | k < i <= LastOf(lines, k) :: !f(lines[i])
    requires forall m | 0 <= m < |added| :: f(added[m]) <==> m == at && holds
    ensures k < |out| && LastOf(out, k) == LastOf(lines, k) + |added| < |out|
    ensures forall i | k < i <= LastOf(out, k) :: f(out[i]) <==> i == LastOf(lines, k) + 1 + at && holds
  {
    GrownBody(lines, k, added, out);
  }

  /** The inserted entry line is the only entry of that name, if the name is an entry name at all. */
  lemma EntriesInside(lines: Lines, k: nat, n: nat, entry: string, body: Lines, note: string, out: Lines)
    requires k < |lines| && entry != "" && (forall b <- body :: BodyText(b))
    requires Inserts(lines, k, MapLines(n, entry, body, note), out)
    requires n == EntryIndent(lines, k) && !MapPresent(lines, k, entry)
    ensures k < |out| && LastOf(lines, k) < LastOf(out, k) - |body| < |out| && LastOf(out, k) < |out|
    ensures forall i | k < i <= LastOf(out, k) ::
              EntryTest(n, entry)(out[i]) <==> i == LastOf(out, k) - |body| && EntryName(entry)
  {
    var added, f := MapLines(n, entry, body, note), EntryTest(n, entry);
    LastBounds(lines, k);
    MapPresentIs(lines, k, entry);
    assert forall i | k < i <= LastOf(lines, k) :: !f(lines[i]);
    forall m | 0 <= m < |added|
      ensures f(added[m]) <==> m == |NoteLine(n, note)| && EntryName(entry)
    {
      EntryLines(n, entry, body, note, m);
    }
    OnlyInserted(lines, k, added, out, f, |NoteLine(n, note)|, EntryName(entry));
  }

  /** A map entry just inserted is found again exactly when its name is an entry name. */
  lemma MapFoundAgain(lines: Lines, k: nat, entry: string, body: Lines, note: string, out: Lines)
    requires k < |lines| && !Skipped(lines[k]) && entry != "" && forall b <- body :: BodyText(b)
    requires Inserts(lines, k, MapLines(EntryIndent(lines, k), entry, body, note), out) && !MapPresent(lines, k, entry)
    ensures k < |out| && (MapPresent(out, k, entry) <==> EntryName(entry))
  {
    var n := EntryIndent(lines, k);
    EntryIndentKept(lines, k, entry, body, note, out);
    EntriesInside(lines, k, n, entry, body, note, out);
    MapPresentIs(out, k, entry);
    if EntryName(entry) {
      assert EntryTest(n, entry)(out[LastOf(out, k) - |body|]);
    }
  }

  lemma FoundAgain(lines: Lines, k: nat, ins: Insertion, out: Lines)
    requires Placeable(ins) && (ins.MapItem? ==> ins.entry != "") && k < |lines| && !Skipped(lines[k])
    requires Inserts(lines, k, NewLines(lines, k, ins), out) && !PresentAt(lines, k, ins)
    ensures k < |out| && (PresentAt(out, k, ins) <==> Readable(ins))
  {
    match ins {
      case SeqItem(_, _, value, note) => SeqFoundAgain(lines, k, value, note, out);
      case MapItem(_, entry, body, note) => MapFoundAgain(lines, k, entry, body, note, out);
    }
  }

  lemma SatisfiedAfter(lines: Lines, k: nat, ins: Insertion, added: Lines, out: Lines)
    requires Placeable(ins) && (ins.MapItem? ==> ins.entry != "") && Target(lines, ins) == Some(k) && k < |lines|
    requires !Skipped(lines[k]) && !Inline(lines[k], ins) && !PresentAt(lines, k, ins)
    requires added == NewLines(lines, k, ins) && Inserts(lines, k, added, out) && forall l <- added :: Neutral(l)
    ensures Satisfied(out, ins) <==> Readable(ins)
  {
    LastBounds(lines, k);
    TargetStable(lines, LastOf(lines, k) + 1, added, out, ins);
    GrownBody(lines, k, added, out);
    FoundAgain(lines, k, ins, out);
    SatisfiedAt(out, k, ins);
  }

  lemma SatisfiedAt(lines: Lines, k: nat, ins: Insertion)
    requires Target(lines, ins) == Some(k) && k < |lines| && !Inline(lines[k], ins)
    ensures Satisfied(lines, ins) <==> PresentAt(lines, k, ins)
  {
  }

  /**
   One insertion, exactly: after it has been made, the same insertion is skipped if and only if it was
   skipped the first time or its name is readable. Any other name is inserted again on every pass.
   */
  lemma SecondPassSkips(lines: Lines, ins: Insertion)
    requires Placeable(ins) && ApplyOne(lines, ins).Ok? && (ins.MapItem? ==> ins.entry != "")
    ensures var (next, did) := ApplyOne(lines, ins).value;
      ApplyOne(next, ins) == Ok((next, false)) <==> !did || Readable(ins)
  {
    var (out, did) := ApplyOne(lines, ins).value;
    SatisfiedIsSkip(lines, ins);
    SatisfiedIsSkip(out, ins);
    if did {
      var k, added := ChangeMade(lines, ins);
      SatisfiedAfter(lines, k, ins, added, out);
    }
  }

  // --- Several insertions do not disturb each other ---

  /** What one insertion has settled, no other insertion unsettles. */
  lemma StaysSatisfied(lines: Lines, other: Insertion, ins: Insertion)
    requires Placeable(other) && Placeable(ins) && Satisfied(lines, ins) && ApplyOne(lines, other).Ok?
    ensures Satisfied(ApplyOne(lines, other).value.0, ins)
  {
    var (out, did) := ApplyOne(lines, other).value;
    if did {
      var k, added := ChangeMade(lines, other);
      var j := Target(lines, ins).value;
      OutcomeOfOne(lines, ins);
      AnchorVisible(lines[j], ins.key);
      TargetStable(lines, LastOf(lines, k) + 1, added, out, ins);
      PresentStays(lines, k, added, out, j, ins);
      ShiftedLine(lines, LastOf(lines, k) + 1, added, out, j);
    } else {
      SatisfiedIsSkip(lines, other);
    }
  }

  ghost predicate Steady(todo: seq<Insertion>) {
    forall ins <- todo :: Placeable(ins) && Readable(ins) && (ins.MapItem? ==> ins.entry != "")
  }

  lemma {:induction false} StaysThroughout(lines: Lines, todo: seq<Insertion>, ins: Insertion)
    requires Steady(todo) && Placeable(ins) && Satisfied(lines, ins) && ApplyAll(lines, todo).Ok?
    ensures Satisfied(ApplyAll(lines, todo).value.0, ins)
    decreases |todo|
  {
    if todo != [] {
      StaysSatisfied(lines, todo[0], ins);
      StaysThroughout(ApplyOne(lines, todo[0]).value.0, todo[1..], ins);
    }
  }

  lemma {:induction false} AllSatisfied(lines: Lines, todo: seq<Insertion>)
    requires Steady(todo) && ApplyAll(lines, todo).Ok?
    ensures forall ins <- todo :: Satisfied(ApplyAll(lines, todo).value.0, ins)
    decreases |todo|
  {
    if todo != [] {
      var next := ApplyOne(lines, todo[0]).value.0;
      SecondPassSkips(lines, todo[0]);
      SatisfiedIsSkip(next, todo[0]);
      StaysThroughout(next, todo[1..], todo[0]);
      AllSatisfied(next, todo[1..]);
    }
  }

  function Nothing(n: nat): seq<bool> {
    if n == 0 then [] else [false] + Nothing(n - 1)
  }

  /** Steps that change nothing, one after the other, change nothing. */
  lemma {:induction false} IdleChain<S, X, E>(step: (S, X) -> Result<(S, bool), E>, from: S, todo: seq<X>)
    requires forall x <- todo :: step(from, x) == Ok((from, false))
    ensures Chain(step, from, todo) == Ok((from, Nothing(|todo|)))
  {
    if todo != [] {
      IdleChain(step, from, todo[1..]);
    }
  }

  lemma SkipsAll(lines: Lines, todo: seq<Insertion>)
    requires forall ins <- todo :: Satisfied(lines, ins)
    ensures ApplyAll(lines, todo) == Ok((lines, Nothing(|todo|)))
  {
    forall ins | ins in todo
      ensures ApplyOne(lines, ins) == Ok((lines, false))
    {
      SatisfiedIsSkip(lines, ins);
    }
    IdleChain(ApplyOne, lines, todo);
  }

  /** Any number of insertions: a second pass over all of them changes no line and reports each as skipped. */
  lemma PassTwice(lines: Lines, todo: seq<Insertion>)
    requires Steady(todo) && ApplyAll(lines, todo).Ok?
    ensures var next := ApplyAll(lines, todo).value.0; ApplyAll(next, todo) == Ok((next, Nothing(|todo|)))
  {
    AllSatisfied(lines, todo);
    SkipsAll(ApplyAll(lines, todo).value.0, todo);
  }

  // --- Insertions that must succeed ---

  /** The insertion finds its block at or behind line `n`, on a line it may insert under. */
  ghost predicate Ready(lines: Lines, n: nat, ins: Insertion) {
    var t := Target(lines, ins);
    Placeable(ins) && t.Some? && n <= t.value < |lines| && !Inline(lines[t.value], ins)
  }

  lemma ReadyApplies(lines: Lines, n: nat, ins: Insertion)
    requires Ready(lines, n, ins)
    ensures ApplyOne(lines, ins).Ok? && n <= |lines| && |ApplyOne(lines, ins).value.0| >= n
    ensures ApplyOne(lines, ins).value.0[..n] == lines[..n]
  {
    OutcomeOfOne(lines, ins);
    var k := Target(lines, ins).value;
    LastBounds(lines, k);
  }

  lemma ReadyBehind(lines: Lines, p: nat, added: Lines, out: Lines, n: nat, m: nat, ins: Insertion)
    requires Ready(lines, n, ins) && Placed(lines, p, added, out) && forall l <- added :: Neutral(l)
    requires m <= Shift(n, p, |added|)
    ensures Ready(out, m, ins)
  {
    TargetStable(lines, p, added, out, ins);
    ShiftedLine(lines, p, added, out, Target(lines, ins).value);
  }

  lemma ReadyAfterChange(lines: Lines, n: nat, k: nat, added: Lines, out: Lines, ins: Insertion)
    requires Inserts(lines, k, added, out) && n <= k && Ready(lines, n, ins) && forall l <- added :: Neutral(l)
    ensures Ready(out, n, ins)
  {
    LastBounds(lines, k);
    ReadyBehind(lines, LastOf(lines, k) + 1, added, out, n, n, ins);
  }

  lemma ReadyStays(lines: Lines, n: nat, other: Insertion, ins: Insertion)
    requires Ready(lines, n, other) && Ready(lines, n, ins) && ApplyOne(lines, other).Ok?
    ensures Ready(ApplyOne(lines, other).value.0, n, ins)
  {
    if ApplyOne(lines, other).value.1 {
      var k, added := ChangeMade(lines, other);
      ReadyAfterChange(lines, n, k, added, ApplyOne(lines, other).value.0, ins);
    } else {
      SatisfiedIsSkip(lines, other);
    }
  }

  /** They all succeed, and the lines in front stay. */
  lemma {:induction false} ReadyAll(lines: Lines, n: nat, todo: seq<Insertion>)
    requires n <= |lines| && forall ins <- todo :: Ready(lines, n, ins)
    ensures ApplyAll(lines, todo).Ok? && |ApplyAll(lines, todo).value.0| >= n
    ensures ApplyAll(lines, todo).value.0[..n] == lines[..n]
    decreases |todo|
  {
    if todo != [] {
      ReadyApplies(lines, n, todo[0]);
      var next := ApplyOne(lines, todo[0]).value.0;
      forall ins | ins in todo[1..]
        ensures Ready(next, n, ins)
      {
        ReadyStays(lines, n, todo[0], ins);
      }
      ReadyAll(next, n, todo[1..]);
    }
  }

  lemma ReadyBefore(lines: Lines, p: nat, added: Lines, out: Lines, ins: Insertion)
    requires Placeable(ins) && Ready(out, 0, ins) && Placed(lines, p, added, out) && forall l <- added :: Neutral(l)
    ensures Ready(lines, 0, ins)
  {
    TargetStable(lines, p, added, out, ins);
    OutcomeOfOne(lines, ins);
    ShiftedLine(lines, p, added, out, Target(lines, ins).value);
  }

  /** An insertion that succeeds was ready. */
  lemma AppliedWasReady(lines: Lines, ins: Insertion)
    requires Placeable(ins) && ApplyOne(lines, ins).Ok?
    ensures Ready(lines, 0, ins)
  {
    OutcomeOfOne(lines, ins);
  }

  lemma ReadyAlready(lines: Lines, other: Insertion, ins: Insertion)
    requires Placeable(other) && Placeable(ins) && ApplyOne(lines, other).Ok? && Ready(ApplyOne(lines, other).value.0, 0, ins)
    ensures Ready(lines, 0, ins)
  {
    if ApplyOne(lines, other).value.1 {
      var k, added := ChangeMade(lines, other);
      ReadyBefore(lines, LastOf(lines, k) + 1, added, ApplyOne(lines, other).value.0, ins);
    } else {
      SatisfiedIsSkip(lines, other);
    }
  }

  /** A run of insertions succeeds if and only if each of them is ready in the file at hand. */
  lemma {:induction false} AllReadyExactly(lines: Lines, todo: seq<Insertion>)
    requires forall ins <- todo :: Placeable(ins)
    ensures ApplyAll(lines, todo).Ok? <==> forall ins <- todo :: Ready(lines, 0, ins)
    decreases |todo|
  {
    if todo != [] {
      if forall ins <- todo :: Ready(lines, 0, ins) {
        ReadyAll(lines, 0, todo);
      }
      if ApplyAll(lines, todo).Ok? {
        AppliedWasReady(lines, todo[0]);
        AllReadyExactly(ApplyOne(lines, todo[0]).value.0, todo[1..]);
        forall ins | ins in todo[1..]
          ensures Ready(lines, 0, ins)
        {
          ReadyAlready(lines, todo[0], ins);
        }
      }
    }
  }
}
