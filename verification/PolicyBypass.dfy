/** Which blocks of a policy file a run of insertions leaves alone, as the file itself shows beforehand. */
module PolicyBypass {
  import opened Basics
  import opened PolicyText
  import opened PolicyBlocks
  import opened PolicyEdit
  import opened PolicyEditLaws
  import opened PolicyIdempotence
  import opened PolicyFraming

  /** Block `j` is flatly bypassed by every insertion of the run. */
  ghost predicate Bypassed(lines: Lines, todo: seq<Insertion>, j: nat)
    requires ApplyAll(lines, todo).Ok?
    decreases |todo|
  {
    todo == [] ||
    var (next, did) := ApplyOne(lines, todo[0]).value;
    && (did ==> BypassedOnce(lines, todo[0], j))
    && Bypassed(next, todo[1..], Moved(lines, todo[0], j))
  }

  ghost predicate BypassedOnce(lines: Lines, ins: Insertion, j: nat) {
    var t := Target(lines, ins);
    && t.Some? && t.value < |lines| && t.value != j && !Encloses(Outlined(lines), j, t.value)
    && Flat(Outlined(lines), t.value, Outlined(NewLines(lines, t.value, ins)))
  }

  /** Where line `j` is after one insertion. */
  ghost function Moved(lines: Lines, ins: Insertion, j: nat): nat
    requires ApplyOne(lines, ins).Ok?
  {
    var (next, did) := ApplyOne(lines, ins).value;
    if did && j >= Place(lines, ins) then j + (if |next| >= |lines| then |next| - |lines| else 0) else j
  }

  ghost function MovedByAll(lines: Lines, todo: seq<Insertion>, j: nat): nat
    requires ApplyAll(lines, todo).Ok?
    decreases |todo|
  {
    if todo == [] then j else MovedByAll(ApplyOne(lines, todo[0]).value.0, todo[1..], Moved(lines, todo[0], j))
  }

  lemma MovedIsShift(lines: Lines, ins: Insertion, k: nat, added: Lines, j: nat)
    requires ApplyOne(lines, ins).Ok? && ApplyOne(lines, ins).value.1 && Target(lines, ins) == Some(k)
    requires Inserts(lines, k, added, ApplyOne(lines, ins).value.0)
    ensures Moved(lines, ins, j) == Shift(j, LastOf(lines, k) + 1, |added|)
  {
  }

  lemma OtherBodyOnce(lines: Lines, ins: Insertion, j: nat)
    requires Placeable(ins) && ApplyOne(lines, ins).Ok? && j < |lines| && !Skipped(lines[j])
    requires ApplyOne(lines, ins).value.1 ==> BypassedOnce(lines, ins, j)
    ensures var next := ApplyOne(lines, ins).value.0; var j' := Moved(lines, ins, j);
      j' < |next| && next[j'] == lines[j] && Body(next, j') == Body(lines, j)
  {
    var (next, did) := ApplyOne(lines, ins).value;
    if did {
      var k, added := ChangeMade(lines, ins);
      MovedIsShift(lines, ins, k, added, j);
      OtherBody(lines, k, added, next, j);
    } else {
      SatisfiedIsSkip(lines, ins);
    }
  }

  /** Over a whole edit, every block that no insertion aims at or goes inside of keeps its key line and its body. */
  lemma {:induction false} BypassedBlocksKeep(lines: Lines, todo: seq<Insertion>, j: nat)
    requires ApplyAll(lines, todo).Ok? && (forall ins <- todo :: Placeable(ins))
    requires j < |lines| && !Skipped(lines[j]) && Bypassed(lines, todo, j)
    ensures var out := ApplyAll(lines, todo).value.0; var j' := MovedByAll(lines, todo, j);
      j' < |out| && out[j'] == lines[j] && Body(out, j') == Body(lines, j)
    decreases |todo|
  {
    if todo != [] {
      OtherBodyOnce(lines, todo[0], j);
      BypassedBlocksKeep(ApplyOne(lines, todo[0]).value.0, todo[1..], Moved(lines, todo[0], j));
    }
  }

  // --- Bypassed, as the original file shows it ---

  /** Block `j` is not the one the insertion edits, and does not hold it. */
  ghost predicate Clear(lines: Lines, ins: Insertion, j: nat) {
    var t := Target(lines, ins);
    t.Some? && t.value != j && !Encloses(Outlined(lines), j, t.value)
  }

  /** What would be inserted is no deeper than what the block has. */
  ghost predicate FlatFor(lines: Lines, ins: Insertion) {
    var t := Target(lines, ins);
    t.Some? && t.value < |lines| && Flat(Outlined(lines), t.value, Outlined(NewLines(lines, t.value, ins)))
  }

  /** The later block is neither the earlier one nor around it. */
  ghost predicate ClearPair(lines: Lines, earlier: Insertion, later: Insertion) {
    Target(lines, later).Some? && Clear(lines, earlier, Target(lines, later).value)
  }

  /** The blocks to edit are flat, and no later one is or holds an earlier one. */
  ghost predicate Untangled(lines: Lines, todo: seq<Insertion>) {
    && (forall ins <- todo :: FlatFor(lines, ins))
    && (forall a, b | 0 <= a < b < |todo| :: ClearPair(lines, todo[a], todo[b]))
  }

  /** One flat insertion has been made. */
  ghost predicate FlatlyInserted(lines: Lines, k: nat, added: Lines, out: Lines) {
    && Inserts(lines, k, added, out) && Flat(Outlined(lines), k, Outlined(added)) && (forall l <- added :: Neutral(l))
  }

  lemma HeldIsInBody(lines: Outline, j: nat, t: nat)
    requires j < |lines| && t < |lines| && !lines[t].skipped
    ensures Encloses(lines, j, t) <==> j < t <= Last(lines, j)
  {
    assert IsBlock(lines, j, End(lines, j), Last(lines, j));
  }

  /** Blocks apart from each other and from the edited one stay apart. */
  lemma ApartAfter(lines: Lines, k: nat, added: Lines, out: Lines, j: nat, t: nat)
    requires FlatlyInserted(lines, k, added, out) && j < |lines| && t < |lines| && !Skipped(lines[j]) && !Skipped(lines[t])
    requires j != k && !Encloses(Outlined(lines), j, k) && !Encloses(Outlined(lines), j, t)
    ensures !Encloses(Outlined(out), Shift(j, LastOf(lines, k) + 1, |added|), Shift(t, LastOf(lines, k) + 1, |added|))
  {
    var p := LastOf(lines, k) + 1;
    var j', t' := Shift(j, p, |added|), Shift(t, p, |added|);
    OtherBody(lines, k, added, out, j);
    OutlinedAt(lines, t);
    ShiftedLine(lines, p, added, out, t);
    OutlinedAt(out, t');
    HeldIsInBody(Outlined(lines), j, t);
    HeldIsInBody(Outlined(out), j', t');
  }

  lemma TargetVisible(lines: Lines, ins: Insertion)
    requires Placeable(ins) && Target(lines, ins).Some?
    ensures Target(lines, ins).value < |lines| && !Skipped(lines[Target(lines, ins).value])
  {
    OutcomeOfOne(lines, ins);
    AnchorVisible(lines[Target(lines, ins).value], ins.key);
  }

  lemma TargetMoves(lines: Lines, k: nat, added: Lines, out: Lines, ins: Insertion) returns (t: nat)
    requires FlatlyInserted(lines, k, added, out) && Placeable(ins) && Target(lines, ins).Some?
    ensures Target(lines, ins) == Some(t) && t < |lines| && !Skipped(lines[t])
    ensures Target(out, ins) == Some(Shift(t, LastOf(lines, k) + 1, |added|))
  {
    TargetVisible(lines, ins);
    TargetStable(lines, LastOf(lines, k) + 1, added, out, ins);
    t := Target(lines, ins).value;
  }

  lemma ClearAfter(lines: Lines, k: nat, added: Lines, out: Lines, j: nat, other: Insertion)
    requires FlatlyInserted(lines, k, added, out) && j < |lines| && !Skipped(lines[j])
    requires j != k && !Encloses(Outlined(lines), j, k)
    requires Placeable(other) && Clear(lines, other, j)
    ensures Clear(out, other, Shift(j, LastOf(lines, k) + 1, |added|))
  {
    var t := TargetMoves(lines, k, added, out, other);
    ApartAfter(lines, k, added, out, j, t);
  }

  lemma SameItemIndent(lines: Lines, t: nat, out: Lines, t': nat)
    requires t < |lines| && t' < |out| && out[t'] == lines[t] && LastOf(lines, t) < |lines| && LastOf(out, t') < |out|
    requires out[LastOf(out, t')] == lines[LastOf(lines, t)] && (LastOf(out, t') > t' <==> LastOf(lines, t) > t)
    ensures ItemIndent(out, t') == ItemIndent(lines, t)
  {
  }

  lemma SameEntryIndent(lines: Lines, k: nat, added: Lines, out: Lines, t: nat)
    requires Inserts(lines, k, added, out) && t < |lines| && !Skipped(lines[t])
    requires var t' := Shift(t, LastOf(lines, k) + 1, |added|);
      t' < |out| && out[t'] == lines[t] && (LastOf(lines, t) > t || LastOf(out, t') == t')
    ensures EntryIndent(out, Shift(t, LastOf(lines, k) + 1, |added|)) == EntryIndent(lines, t)
  {
    if LastOf(lines, t) > t {
      EntryIndentStays(lines, k, added, out, t);
    }
  }

  /** A block moved as a whole would get the same lines as before. */
  lemma SameNewLines(lines: Lines, k: nat, added: Lines, out: Lines, t: nat, ins: Insertion)
    requires FlatlyInserted(lines, k, added, out) && t < |lines| && !Skipped(lines[t])
    requires t != k && !Encloses(Outlined(lines), t, k)
    ensures var t' := Shift(t, LastOf(lines, k) + 1, |added|);
      t' < |out| && NewLines(out, t', ins) == NewLines(lines, t, ins)
  {
    var p := LastOf(lines, k) + 1;
    var t' := Shift(t, p, |added|);
    OtherBody(lines, k, added, out, t);
    LastBounds(lines, t);
    LastBounds(out, t');
    ShiftedLine(lines, p, added, out, LastOf(lines, t));
    SameItemIndent(lines, t, out, t');
    SameEntryIndent(lines, k, added, out, t);
  }

  lemma SameFlat(lines: Lines, t: nat, out: Lines, t': nat, ins: Outline)
    requires t < |lines| && t' < |out| && Inside(out, t') == Inside(lines, t) && Flat(Outlined(lines), t, ins)
    ensures Flat(Outlined(out), t', ins)
  {
    forall i, f | t' < i <= LastOf(out, t') && 0 <= f < |ins| && !Outlined(out)[i].skipped && FirstVisible(ins, f)
      ensures ins[f].indent <= Outlined(out)[i].indent
    {
      var m := i - t' + t;
      InsideAt(out, t', i);
      LastBounds(lines, t);
      InsideAt(lines, t, m);
      OutlinedAt(out, i);
      OutlinedAt(lines, m);
      assert ins[f].indent <= Outlined(lines)[m].indent;
    }
  }

  lemma FlatAfter(lines: Lines, k: nat, added: Lines, out: Lines, other: Insertion)
    requires FlatlyInserted(lines, k, added, out) && Placeable(other) && FlatFor(lines, other)
    requires Target(lines, other).value != k && !Encloses(Outlined(lines), Target(lines, other).value, k)
    ensures FlatFor(out, other)
  {
    var t := TargetMoves(lines, k, added, out, other);
    OtherBody(lines, k, added, out, t);
    SameNewLines(lines, k, added, out, t, other);
    SameFlat(lines, t, out, Shift(t, LastOf(lines, k) + 1, |added|), Outlined(NewLines(lines, t, other)));
  }

  /** After the first insertion the remaining ones are as untangled as they were. */
  lemma UntangledAfter(lines: Lines, todo: seq<Insertion>, k: nat, added: Lines, out: Lines)
    requires todo != [] && (forall ins <- todo :: Placeable(ins)) && Untangled(lines, todo)
    requires Target(lines, todo[0]) == Some(k) && FlatlyInserted(lines, k, added, out)
    ensures Untangled(out, todo[1..])
  {
    var rest := todo[1..];
    forall ins | ins in rest
      ensures FlatFor(out, ins)
    {
      var b :| 0 <= b < |rest| && rest[b] == ins;
      assert ClearPair(lines, todo[0], todo[b + 1]);
      FlatAfter(lines, k, added, out, ins);
    }
    forall a, b | 0 <= a < b < |rest|
      ensures ClearPair(out, rest[a], rest[b])
    {
      assert ClearPair(lines, todo[0], todo[b + 1]) && ClearPair(lines, todo[a + 1], todo[b + 1]);
      var t := TargetMoves(lines, k, added, out, rest[b]);
      ClearAfter(lines, k, added, out, t, rest[a]);
    }
  }

  lemma FirstFlatlyInserted(lines: Lines, ins: Insertion) returns (k: nat, added: Lines)
    requires Placeable(ins) && FlatFor(lines, ins) && ApplyOne(lines, ins).Ok? && ApplyOne(lines, ins).value.1
    ensures Target(lines, ins) == Some(k) && FlatlyInserted(lines, k, added, ApplyOne(lines, ins).value.0)
  {
    k, added := ChangeMade(lines, ins);
  }

  /** Out of the way of every insertion, and the insertions out of each other's. */
  ghost predicate OutOfTheWay(lines: Lines, todo: seq<Insertion>, j: nat) {
    && (forall ins <- todo :: Placeable(ins)) && Untangled(lines, todo)
    && j < |lines| && !Skipped(lines[j]) && forall ins <- todo :: Clear(lines, ins, j)
  }

  lemma OutAfter(lines: Lines, todo: seq<Insertion>, k: nat, added: Lines, out: Lines, j: nat)
    requires todo != [] && OutOfTheWay(lines, todo, j) && Target(lines, todo[0]) == Some(k)
    requires FlatlyInserted(lines, k, added, out)
    ensures OutOfTheWay(out, todo[1..], Shift(j, LastOf(lines, k) + 1, |added|))
  {
    assert Clear(lines, todo[0], j);
    OtherBody(lines, k, added, out, j);
    UntangledAfter(lines, todo, k, added, out);
    forall ins | ins in todo[1..]
      ensures Clear(out, ins, Shift(j, LastOf(lines, k) + 1, |added|))
    {
      assert Clear(lines, ins, j);
      ClearAfter(lines, k, added, out, j, ins);
    }
  }

  /** One insertion of a run keeps the others, and the block, out of the way. */
  lemma OutStep(lines: Lines, todo: seq<Insertion>, j: nat)
    requires todo != [] && OutOfTheWay(lines, todo, j) && ApplyOne(lines, todo[0]).Ok?
    ensures ApplyOne(lines, todo[0]).value.1 ==> BypassedOnce(lines, todo[0], j)
    ensures OutOfTheWay(ApplyOne(lines, todo[0]).value.0, todo[1..], Moved(lines, todo[0], j))
  {
    assert Clear(lines, todo[0], j) && FlatFor(lines, todo[0]) && Placeable(todo[0]);
    if ApplyOne(lines, todo[0]).value.1 {
      var k, added := FirstFlatlyInserted(lines, todo[0]);
      MovedIsShift(lines, todo[0], k, added, j);
      OutAfter(lines, todo, k, added, ApplyOne(lines, todo[0]).value.0, j);
    } else {
      SatisfiedIsSkip(lines, todo[0]);
      UntangledRest(lines, todo);
    }
  }

  /** A block the original file shows to be out of the way of every insertion is bypassed by the whole run. */
  lemma {:induction false} BypassedFromFile(lines: Lines, todo: seq<Insertion>, j: nat)
    requires ApplyAll(lines, todo).Ok? && OutOfTheWay(lines, todo, j)
    ensures Bypassed(lines, todo, j)
    decreases |todo|
  {
    if todo != [] {
      OutStep(lines, todo, j);
      BypassedFromFile(ApplyOne(lines, todo[0]).value.0, todo[1..], Moved(lines, todo[0], j));
    }
  }

  lemma UntangledRest(lines: Lines, todo: seq<Insertion>)
    requires todo != [] && Untangled(lines, todo)
    ensures Untangled(lines, todo[1..])
  {
    forall a, b | 0 <= a < b < |todo[1..]|
      ensures ClearPair(lines, todo[1..][a], todo[1..][b])
    {
      assert ClearPair(lines, todo[a + 1], todo[b + 1]);
    }
  }
}
