/** The onboarding edit only inserts: what it adds to the target blocks, and how one insertion leaves the others alone. */
module PolicyFraming {
  import opened Basics
  import opened PolicyText
  import opened PolicyBlocks
  import opened PolicyEdit
  import opened PolicyEditLaws
  import opened PolicyIdempotence
  import opened PolicyComments

  // --- Deleting what was inserted ---

  /** Where one insertion put how many lines. */
  datatype Inserted = Inserted(at: nat, count: nat)

  /** The insertions a run of edits makes, in order; skipped ones leave no trace. */
  ghost function Trace(lines: Lines, todo: seq<Insertion>): seq<Inserted>
    requires ApplyAll(lines, todo).Ok?
    decreases |todo|
  {
    if todo == [] then [] else
      var (next, did) := ApplyOne(lines, todo[0]).value;
      (if did then [Inserted(Place(lines, todo[0]), if |next| >= |lines| then |next| - |lines| else 0)] else []) + Trace(next, todo[1..])
  }

  /** Just after the last body line of the block the insertion edits. */
  ghost function Place(lines: Lines, ins: Insertion): nat
    requires ApplyOne(lines, ins).Ok?
  {
    OutcomeOfOne(lines, ins);
    LastOf(lines, Target(lines, ins).value) + 1
  }

  ghost predicate CanUndo(lines: Lines, trace: seq<Inserted>)
    decreases |trace|
  {
    trace == [] ||
    var t := trace[|trace| - 1];
    t.at + t.count <= |lines| && CanUndo(Remove(lines, t.at, t.count), trace[..|trace| - 1])
  }

  /** Deletes the inserted lines, latest insertion first. */
  ghost function Undo(lines: Lines, trace: seq<Inserted>): Lines
    requires CanUndo(lines, trace)
    decreases |trace|
  {
    if trace == [] then lines else
      var t := trace[|trace| - 1];
      Undo(Remove(lines, t.at, t.count), trace[..|trace| - 1])
  }

  lemma {:induction false} UndoFirst(lines: Lines, t: Inserted, rest: seq<Inserted>)
    requires CanUndo(lines, rest) && t.at + t.count <= |Undo(lines, rest)|
    ensures CanUndo(lines, [t] + rest) && Undo(lines, [t] + rest) == Remove(Undo(lines, rest), t.at, t.count)
    decreases |rest|
  {
    var all := [t] + rest;
    if rest == [] {
      assert all[..0] == [];
    } else {
      var last := rest[|rest| - 1];
      assert all[|all| - 1] == last && all[..|all| - 1] == [t] + rest[..|rest| - 1];
      UndoFirst(Remove(lines, last.at, last.count), t, rest[..|rest| - 1]);
    }
  }

  lemma InsertUndone(lines: Lines, p: nat, added: Lines, next: Lines)
    requires p <= |lines| && next == Insert(lines, p, added)
    ensures |lines| <= |next| && p + (|next| - |lines|) <= |next| && Remove(next, p, |next| - |lines|) == lines
  {
    RemoveInserted(lines, p, added);
  }

  lemma PlaceIs(lines: Lines, ins: Insertion, k: nat)
    requires ApplyOne(lines, ins).Ok? && Target(lines, ins) == Some(k) && k < |lines|
    ensures Place(lines, ins) == LastOf(lines, k) + 1 <= |lines|
  {
    LastBounds(lines, k);
  }

  lemma OneUndone(lines: Lines, ins: Insertion)
    requires ApplyOne(lines, ins).Ok? && ApplyOne(lines, ins).value.1
    ensures var next := ApplyOne(lines, ins).value.0; var p := Place(lines, ins);
      p <= |lines| <= |next| && p + (|next| - |lines|) <= |next| && Remove(next, p, |next| - |lines|) == lines
  {
    var k := ChangedBlock(lines, ins);
    PlaceIs(lines, ins, k);
    InsertUndone(lines, Place(lines, ins), NewLines(lines, k, ins), ApplyOne(lines, ins).value.0);
  }

  lemma UndoStep(lines: Lines, next: Lines, out: Lines, t: Inserted, rest: seq<Inserted>)
    requires t.at + t.count <= |next| && Remove(next, t.at, t.count) == lines
    requires CanUndo(out, rest) && Undo(out, rest) == next
    ensures CanUndo(out, [t] + rest) && Undo(out, [t] + rest) == lines
  {
    UndoFirst(out, t, rest);
  }

  lemma TraceStep(lines: Lines, todo: seq<Insertion>)
    requires ApplyAll(lines, todo).Ok? && todo != []
    ensures ApplyOne(lines, todo[0]).Ok? && ApplyAll(ApplyOne(lines, todo[0]).value.0, todo[1..]).Ok?
    ensures var (next, did) := ApplyOne(lines, todo[0]).value;
      && ApplyAll(lines, todo).value.0 == ApplyAll(next, todo[1..]).value.0
      && (did ==> |next| >= |lines|)
      && (did ==> Trace(lines, todo) == [Inserted(Place(lines, todo[0]), |next| - |lines|)] + Trace(next, todo[1..]))
      && (!did ==> next == lines && Trace(lines, todo) == Trace(next, todo[1..]))
  {
    var (next, did) := ApplyOne(lines, todo[0]).value;
    if did {
      OneUndone(lines, todo[0]);
    } else {
      SatisfiedIsSkip(lines, todo[0]);
      assert [] + Trace(next, todo[1..]) == Trace(next, todo[1..]);
    }
  }

  /** Undoing the trace leads from `out` back to `lines`. */
  ghost predicate Undoes(out: Lines, trace: seq<Inserted>, lines: Lines) {
    CanUndo(out, trace) && Undo(out, trace) == lines
  }

  /** The first step of a run went from `lines` to `next`, and its trace says how. */
  ghost predicate Leads(lines: Lines, next: Lines, at: nat, whole: seq<Inserted>, rest: seq<Inserted>) {
    || (next == lines && whole == rest)
    || (|next| >= |lines| && at + (|next| - |lines|) <= |next| && Remove(next, at, |next| - |lines|) == lines
        && whole == [Inserted(at, |next| - |lines|)] + rest)
  }

  lemma UndoRun(lines: Lines, next: Lines, out: Lines, at: nat, whole: seq<Inserted>, rest: seq<Inserted>)
    requires Undoes(out, rest, next) && Leads(lines, next, at, whole, rest)
    ensures Undoes(out, whole, lines)
  {
    if whole != rest || next != lines {
      UndoStep(lines, next, out, Inserted(at, |next| - |lines|), rest);
    }
  }

  ghost function PlaceOr(lines: Lines, ins: Insertion): nat
    requires ApplyOne(lines, ins).Ok?
  {
    if ApplyOne(lines, ins).value.1 then Place(lines, ins) else 0
  }

  lemma StepLeads(lines: Lines, todo: seq<Insertion>)
    requires ApplyAll(lines, todo).Ok? && todo != []
    ensures ApplyOne(lines, todo[0]).Ok? && ApplyAll(ApplyOne(lines, todo[0]).value.0, todo[1..]).Ok?
    ensures var next := ApplyOne(lines, todo[0]).value.0;
      && ApplyAll(lines, todo).value.0 == ApplyAll(next, todo[1..]).value.0
      && Leads(lines, next, PlaceOr(lines, todo[0]), Trace(lines, todo), Trace(next, todo[1..]))
  {
    TraceStep(lines, todo);
    if ApplyOne(lines, todo[0]).value.1 {
      OneUndone(lines, todo[0]);
    }
  }

  /** Only insertions: deleting the inserted lines gives back the original, line for line. */
  lemma {:induction false} EditsOnlyInsert(lines: Lines, todo: seq<Insertion>)
    requires ApplyAll(lines, todo).Ok?
    ensures Undoes(ApplyAll(lines, todo).value.0, Trace(lines, todo), lines)
    decreases |todo|
  {
    if todo != [] {
      StepLeads(lines, todo);
      var next := ApplyOne(lines, todo[0]).value.0;
      EditsOnlyInsert(next, todo[1..]);
      UndoRun(lines, next, ApplyAll(lines, todo).value.0, PlaceOr(lines, todo[0]), Trace(lines, todo), Trace(next, todo[1..]));
    }
  }

  // --- What the target block gains ---

  lemma HarvestJoin3(a: Lines, b: Lines, c: Lines, f: string -> seq<string>)
    ensures Harvest(a + b + c, f) == Harvest(a, f) + Harvest(b, f) + Harvest(c, f)
  {
    HarvestJoin(a + b, c, f);
    HarvestJoin(a, b, f);
  }

  lemma SliceOfPlaced(lines: Lines, p: nat, added: Lines, out: Lines, i: nat, end: nat)
    requires Placed(lines, p, added, out) && end <= |lines| && i <= end
    ensures
      && (i <= p <= end ==> out[i..end + |added|] == lines[i..p] + added + lines[p..end])
      && (end <= p ==> out[i..end] == lines[i..end])
      && (p <= i ==> out[i + |added|..end + |added|] == lines[i..end])
  {
  }

  /** The lines of the block at `k`, up to the last one that counts. */
  function Inside(lines: Lines, k: nat): Lines
    requires k < |lines|
  {
    LastBounds(lines, k);
    lines[k + 1..LastOf(lines, k) + 1]
  }

  lemma InsideAt(lines: Lines, j: nat, i: nat)
    requires j < |lines| && j < i <= LastOf(lines, j)
    ensures i < |lines| && i - j - 1 < |Inside(lines, j)| && Inside(lines, j)[i - j - 1] == lines[i]
  {
    LastBounds(lines, j);
  }

  /** The value a line contributes to the sequence it stands in. */
  function ItemOf(line: string): seq<string> {
    if ItemValue(line).Some? then [Unquote(ItemValue(line).value)] else []
  }

  /** The items of the sequence block at `k`. */
  function BlockItems(lines: Lines, k: nat): seq<string>
    requires k < |lines|
  {
    Harvest(Inside(lines, k), ItemOf)
  }

  lemma OneItem(n: nat, value: string, note: string)
    requires '"' !in value && '#' !in value
    ensures Harvest(SeqLines(n, value, note), ItemOf) == [value]
  {
    NoteShape(n, note);
    OwnItemIs(n, value);
    var notes, l := NoteLine(n, note), Spaces(n) + ("- " + Quote(value));
    HarvestJoin(notes, [l], ItemOf);
    assert ItemOf(l) == [value];
    assert Harvest([l], ItemOf) == ItemOf(l) + Harvest([], ItemOf);
    if notes != [] {
      assert notes[0] in notes && notes == [notes[0]];
      assert Harvest(notes, ItemOf) == ItemOf(notes[0]) + Harvest([], ItemOf);
    }
  }

  lemma InsideGrows(lines: Lines, k: nat, added: Lines, out: Lines)
    requires Inserts(lines, k, added, out)
    ensures k < |out| && Inside(out, k) == Inside(lines, k) + added
  {
    LastBounds(lines, k);
    GrownBody(lines, k, added, out);
    SliceOfPlaced(lines, LastOf(lines, k) + 1, added, out, k + 1, LastOf(lines, k) + 1);
  }

  lemma AbsentItem(lines: Lines, k: nat, value: string)
    requires k < |lines| && !SeqPresent(lines, k, value)
    ensures value !in BlockItems(lines, k)
  {
    LastBounds(lines, k);
    if value in BlockItems(lines, k) {
      var i := ItemAt(Inside(lines, k), value);
      assert false;
    }
  }

  lemma {:induction false} ItemAt(lines: Lines, value: string) returns (i: nat)
    requires value in Harvest(lines, ItemOf)
    ensures i < |lines| && ItemIs(lines[i], value)
  {
    if ItemIs(lines[0], value) {
      i := 0;
    } else {
      var m := ItemAt(lines[1..], value);
      i := m + 1;
    }
  }

  lemma TargetSame(lines: Lines, k: nat, added: Lines, out: Lines, ins: Insertion)
    requires Inserts(lines, k, added, out) && Placeable(ins) && Target(lines, ins) == Some(k)
    requires forall l <- added :: Neutral(l)
    ensures Target(out, ins) == Some(k)
  {
    LastBounds(lines, k);
    TargetStable(lines, LastOf(lines, k) + 1, added, out, ins);
  }

  /** The target of an insertion that was made is still its target. */
  lemma TargetKept(lines: Lines, ins: Insertion) returns (k: nat, added: Lines)
    requires Placeable(ins) && ApplyOne(lines, ins).Ok? && ApplyOne(lines, ins).value.1
    ensures var out := ApplyOne(lines, ins).value.0;
      && Target(lines, ins) == Some(k) && Target(out, ins) == Some(k) && k < |lines| && !Skipped(lines[k])
      && added == NewLines(lines, k, ins) && Inserts(lines, k, added, out) && !PresentAt(lines, k, ins)
  {
    k, added := ChangeMade(lines, ins);
    TargetSame(lines, k, added, ApplyOne(lines, ins).value.0, ins);
  }

  /** A sequence insertion that changes the file makes the block's items the old ones followed by the new one. */
  lemma ItemsGain(lines: Lines, ins: Insertion) returns (k: nat)
    requires Placeable(ins) && ins.SeqItem? && Readable(ins)
    requires ApplyOne(lines, ins).Ok? && ApplyOne(lines, ins).value.1
    ensures var out := ApplyOne(lines, ins).value.0;
      && Target(lines, ins) == Some(k) && Target(out, ins) == Some(k) && k < |lines| && k < |out|
      && ins.value !in BlockItems(lines, k) && BlockItems(out, k) == BlockItems(lines, k) + [ins.value]
  {
    var added;
    k, added := TargetKept(lines, ins);
    InsideGrows(lines, k, added, ApplyOne(lines, ins).value.0);
    HarvestJoin(Inside(lines, k), added, ItemOf);
    OneItem(ItemIndent(lines, k), ins.value, ins.note);
    AbsentItem(lines, k, ins.value);
  }

  ghost predicate EndsWith(lines: Lines, tail: Lines) {
    |tail| <= |lines| && lines[|lines| - |tail|..] == tail
  }

  /** The block at `k` of `out` has one entry of that name, last and with that body; line `before` comes before it. */
  ghost predicate NewEntry(out: Lines, k: nat, n: nat, before: nat, entry: string, body: Lines)
    requires k < |out|
  {
    LastBounds(out, k);
    var last := LastOf(out, k);
    && EntryIndent(out, k) == n && before < last - |body|
    && (forall i | k < i <= last :: EntryTest(n, entry)(out[i]) <==> i == last - |body|)
    && EndsWith(Inside(out, k), Padded(n + 2, body))
  }

  lemma SuffixOfSum(a: Lines, b: Lines, c: Lines)
    ensures |c| <= |a + (b + c)| && (a + (b + c))[|a + (b + c)| - |c|..] == c
  {
  }

  lemma BodyInside(lines: Lines, k: nat, n: nat, entry: string, body: Lines, note: string, out: Lines)
    requires k < |lines| && Inserts(lines, k, MapLines(n, entry, body, note), out)
    ensures k < |out| && EndsWith(Inside(out, k), Padded(n + 2, body))
  {
    InsideGrows(lines, k, MapLines(n, entry, body, note), out);
    SuffixOfSum(Inside(lines, k), NoteLine(n, note) + [Spaces(n) + (Quote(entry) + ":")], Padded(n + 2, body));
  }

  lemma NewEntryAt(lines: Lines, k: nat, entry: string, body: Lines, note: string, out: Lines)
    requires k < |lines| && !Skipped(lines[k]) && EntryName(entry) && (forall b <- body :: BodyText(b))
    requires Inserts(lines, k, MapLines(EntryIndent(lines, k), entry, body, note), out) && !MapPresent(lines, k, entry)
    ensures k < |out| && NewEntry(out, k, EntryIndent(lines, k), LastOf(lines, k), entry, body)
  {
    var n := EntryIndent(lines, k);
    EntryIndentKept(lines, k, entry, body, note, out);
    EntriesInside(lines, k, n, entry, body, note, out);
    BodyInside(lines, k, n, entry, body, note, out);
  }

  /** A map insertion that changes the file gives the block one new entry, last, with exactly the requested body. */
  lemma EntryGained(lines: Lines, ins: Insertion) returns (k: nat)
    requires Placeable(ins) && ins.MapItem? && EntryName(ins.entry)
    requires ApplyOne(lines, ins).Ok? && ApplyOne(lines, ins).value.1
    ensures var out := ApplyOne(lines, ins).value.0;
      && Target(lines, ins) == Some(k) && Target(out, ins) == Some(k) && k < |lines| && k < |out|
      && NewEntry(out, k, EntryIndent(lines, k), LastOf(lines, k), ins.entry, ins.body)
  {
    var added;
    k, added := TargetKept(lines, ins);
    NewEntryAt(lines, k, ins.entry, ins.body, ins.note, ApplyOne(lines, ins).value.0);
  }

  // --- What every other block keeps ---

  /** The body of the block opened at `j`. */
  function Body(lines: Lines, j: nat): Lines
    requires j < |lines|
  {
    Visibles(Inside(lines, j))
  }

  lemma EnclosingEnds(lines: Outline, k: nat, added: Outline, out: Outline, j: nat)
    requires k < |lines| && Extended(lines, k, Last(lines, k) + 1, added, out)
    requires j < |lines| && !lines[j].skipped && (j == k || Encloses(lines, j, k))
    ensures j < |out| && Last(lines, k) <= Last(lines, j) && Last(out, j) == Last(lines, j) + |added|
  {
    EnclosingBlocksGrow(lines, k, Last(lines, k) + 1, added, out, j);
  }

  lemma GrownInside(lines: Lines, p: nat, added: Lines, out: Lines, j: nat) returns (upTo: Lines, after: Lines)
    requires Placed(lines, p, added, out) && j < |lines| && j < |out|
    requires j < p <= LastOf(lines, j) + 1 && LastOf(out, j) == LastOf(lines, j) + |added| < |out|
    ensures upTo == lines[j + 1..p] && Inside(out, j) == upTo + added + after && Inside(lines, j) == upTo + after
  {
    LastBounds(lines, j);
    var end := LastOf(lines, j) + 1;
    SliceOfPlaced(lines, p, added, out, j + 1, end);
    upTo, after := lines[j + 1..p], lines[p..end];
  }

  lemma VisiblesJoin(a: Lines, b: Lines, c: Lines)
    ensures Visibles(a + b + c) == Visibles(a) + Visibles(b) + Visibles(c) && Visibles(a + c) == Visibles(a) + Visibles(c)
  {
    HarvestJoin3(a, b, c, VisibleOf);
    HarvestJoin(a, c, VisibleOf);
  }

  /** `added` stands in the block at `j`, right after the lines `upTo` of its body. */
  ghost predicate BodyGains(lines: Lines, out: Lines, j: nat, upTo: Lines, added: Lines, after: Lines)
    requires j < |lines| && j < |out|
  {
    && out[j] == lines[j] && Inside(lines, j) == upTo + after && Inside(out, j) == upTo + added + after
    && Body(lines, j) == Visibles(upTo) + Visibles(after)
    && Body(out, j) == Visibles(upTo) + Visibles(added) + Visibles(after)
  }

  /**
   A block that holds the insertion point grows by the inserted lines, at one place: between what it had
   up to the last body line of the edited block and what it had after it.
   */
  lemma EnclosingBody(lines: Lines, k: nat, added: Lines, out: Lines, j: nat) returns (upTo: Lines, after: Lines)
    requires Inserts(lines, k, added, out) && j < |lines| && !Skipped(lines[j])
    requires j == k || Encloses(Outlined(lines), j, k)
    ensures j < |out| && j <= LastOf(lines, k) < |lines| && upTo == lines[j + 1..LastOf(lines, k) + 1]
    ensures BodyGains(lines, out, j, upTo, added, after)
  {
    LastBounds(lines, k);
    OutlinedAt(lines, j);
    EnclosingEnds(Outlined(lines), k, Outlined(added), Outlined(out), j);
    LastBounds(out, j);
    upTo, after := GrownInside(lines, LastOf(lines, k) + 1, added, out, j);
    VisiblesJoin(upTo, added, after);
  }

  /** Framing, if the edited block is flat: any other block is moved as a whole, with the same lines in it. */
  lemma OtherBody(lines: Lines, k: nat, added: Lines, out: Lines, j: nat)
    requires Inserts(lines, k, added, out) && Flat(Outlined(lines), k, Outlined(added))
    requires j < |lines| && !Skipped(lines[j]) && j != k && !Encloses(Outlined(lines), j, k)
    ensures var p := LastOf(lines, k) + 1; var j' := Shift(j, p, |added|);
      && j' < |out| && out[j'] == lines[j] && Inside(out, j') == Inside(lines, j)
      && LastOf(out, j') == Shift(LastOf(lines, j), p, |added|)
  {
    var p := LastOf(lines, k) + 1;
    ShiftedLine(lines, p, added, out, j);
    OutlinedAt(lines, j);
    OtherBlocksKeep(Outlined(lines), k, p, Outlined(added), Outlined(out), j);
    LastBounds(lines, j);
    if j < p <= LastOf(lines, j) {
      StraddlesOnlyIfHolds(Outlined(lines), k, j);
    }
    MovedBody(lines, p, added, out, j);
  }

  lemma MovedBody(lines: Lines, p: nat, added: Lines, out: Lines, j: nat)
    requires Placed(lines, p, added, out) && j < |lines| && !(j < p <= LastOf(lines, j))
    requires Shift(j, p, |added|) < |out| && LastOf(out, Shift(j, p, |added|)) == Shift(LastOf(lines, j), p, |added|)
    ensures Inside(out, Shift(j, p, |added|)) == Inside(lines, j)
  {
    LastBounds(lines, j);
    SliceOfPlaced(lines, p, added, out, j + 1, LastOf(lines, j) + 1);
  }

  /** A block with body on both sides of the insertion point is the edited one or encloses it. */
  lemma StraddlesOnlyIfHolds(lines: Outline, k: nat, j: nat)
    requires k < |lines| && j < |lines| && !lines[k].skipped && !lines[j].skipped
    requires j <= Last(lines, k) < Last(lines, j)
    ensures j == k || Encloses(lines, j, k)
  {
    NotAfterKey(lines, k, j);
  }
}
