/** Blank and comment lines do not matter: what an insertion finds in a file is decided by the visible lines. */
module PolicyComments {
  import opened Basics
  import opened PolicyText
  import opened PolicyBlocks
  import opened PolicyEdit
  import opened PolicyEditLaws
  import opened PolicyIdempotence

  // --- One skipped line more ---

  /** `out` is `lines` with the blank or comment line `s` in front of line `p`. */
  ghost predicate Commented(lines: Lines, p: nat, s: string, out: Lines) {
    && Placed(lines, p, [s], out) && Skipped(s)
    && Placed(Outlined(lines), p, [ShapeOf(s)], Outlined(out))
  }

  lemma CommentedInsert(lines: Lines, p: nat, s: string)
    requires p <= |lines| && Skipped(s)
    ensures Commented(lines, p, s, Insert(lines, p, [s]))
  {
    OutlineInsert(lines, p, [s]);
    assert Outlined([s]) == [ShapeOf(s)];
    InsertPlaces(lines, p, [s]);
    InsertPlaces(Outlined(lines), p, [ShapeOf(s)]);
  }

  lemma SkippedNeutral(s: string)
    requires Skipped(s)
    ensures Neutral(s)
  {
    forall key | AnchorKey(key)
      ensures !OpensKey(s, key)
    {
      if OpensKey(s, key) {
        AnchorVisible(s, key);
      }
    }
  }

  /** Blocks move along. */
  lemma LastMoves(lines: Lines, p: nat, s: string, out: Lines, k: nat)
    requires Commented(lines, p, s, out) && k < |lines| && !Skipped(lines[k])
    ensures Shift(k, p, 1) < |out| && out[Shift(k, p, 1)] == lines[k]
    ensures LastOf(out, Shift(k, p, 1)) == Shift(LastOf(lines, k), p, 1) && LastOf(lines, k) < |lines|
  {
    OutlinedAt(lines, k);
    LastBounds(lines, k);
    SkippedMoves(Outlined(lines), p, ShapeOf(s), Outlined(out), k);
    ShiftedLine(lines, p, [s], out, k);
  }

  lemma BodyHasSame(lines: Lines, p: nat, s: string, out: Lines, k: nat, f: string -> bool)
    requires Commented(lines, p, s, out) && k < |lines| && !Skipped(lines[k]) && !f(s)
    ensures Shift(k, p, 1) < |out| && (BodyHas(out, Shift(k, p, 1), f) <==> BodyHas(lines, k, f))
  {
    LastMoves(lines, p, s, out, k);
    var k' := Shift(k, p, 1);
    if BodyHas(lines, k, f) {
      var i :| k < i < |lines| && i <= LastOf(lines, k) && f(lines[i]);
      ShiftedLine(lines, p, [s], out, i);
      assert f(out[Shift(i, p, 1)]);
    }
    if BodyHas(out, k', f) {
      var i :| k' < i < |out| && i <= LastOf(out, k') && f(out[i]);
      assert i != p;
      var m := if i < p then i else i - 1;
      assert f(lines[m]);
    }
  }

  lemma EntryIndentSame(lines: Lines, p: nat, s: string, out: Lines, k: nat)
    requires Commented(lines, p, s, out) && k < |lines| && !Skipped(lines[k])
    ensures Shift(k, p, 1) < |out| && EntryIndent(out, Shift(k, p, 1)) == EntryIndent(lines, k)
  {
    LastMoves(lines, p, s, out, k);
    OutlinedAt(lines, k);
    var o, o' := Outlined(lines), Outlined(out);
    if Last(o, k) > k {
      FirstBodyInBlock(o, k);
      SkippedFirst(o, p, ShapeOf(s), o', k);
      ShiftedLine(o, p, [ShapeOf(s)], o', FirstBody(o, k + 1));
    }
  }

  lemma PresentSame(lines: Lines, p: nat, s: string, out: Lines, k: nat, ins: Insertion)
    requires Commented(lines, p, s, out) && k < |lines| && !Skipped(lines[k])
    ensures Shift(k, p, 1) < |out| && (PresentAt(out, Shift(k, p, 1), ins) <==> PresentAt(lines, k, ins))
  {
    LastMoves(lines, p, s, out, k);
    var k' := Shift(k, p, 1);
    match ins {
      case SeqItem(_, _, value, _) =>
        SeqPresentIs(lines, k, value);
        SeqPresentIs(out, k', value);
        if ItemIs(s, value) {
          ItemLineVisible(s);
        }
        BodyHasSame(lines, p, s, out, k, l => ItemIs(l, value));
      case MapItem(_, entry, _, _) =>
        MapPresentIs(lines, k, entry);
        MapPresentIs(out, k', entry);
        EntryIndentSame(lines, p, s, out, k);
        BodyHasSame(lines, p, s, out, k, EntryTest(EntryIndent(lines, k), entry));
    }
  }

  /** A blank or comment line anywhere settles and unsettles nothing. */
  lemma SatisfiedSame(lines: Lines, p: nat, s: string, ins: Insertion)
    requires p <= |lines| && Skipped(s) && Placeable(ins)
    ensures Satisfied(Insert(lines, p, [s]), ins) <==> Satisfied(lines, ins)
  {
    var out := Insert(lines, p, [s]);
    CommentedInsert(lines, p, s);
    SkippedNeutral(s);
    TargetStable(lines, p, [s], out, ins);
    OutcomeOfOne(lines, ins);
    var t := Target(lines, ins);
    if t.Some? {
      AnchorVisible(lines[t.value], ins.key);
      PresentSame(lines, p, s, out, t.value, ins);
      LastMoves(lines, p, s, out, t.value);
    }
  }

  // --- All of them ---

  /** What `f` reads off the lines, in order. */
  function Harvest(lines: Lines, f: string -> seq<string>): seq<string> {
    if lines == [] then [] else f(lines[0]) + Harvest(lines[1..], f)
  }

  lemma {:induction false} HarvestJoin(a: Lines, b: Lines, f: string -> seq<string>)
    ensures Harvest(a + b, f) == Harvest(a, f) + Harvest(b, f)
  {
    if a == [] {
      assert a + b == b;
    } else {
      assert (a + b)[1..] == a[1..] + b;
      HarvestJoin(a[1..], b, f);
    }
  }

  function VisibleOf(line: string): Lines {
    if Skipped(line) then [] else [line]
  }

  /** The visible lines: neither blank nor comment. */
  function Visibles(lines: Lines): Lines {
    Harvest(lines, VisibleOf)
  }

  lemma {:induction false} SatisfiedBehind(before: Lines, lines: Lines, ins: Insertion)
    requires Placeable(ins)
    ensures Satisfied(before + lines, ins) <==> Satisfied(before + Visibles(lines), ins)
    decreases |lines|
  {
    if lines != [] {
      var l, rest := lines[0], lines[1..];
      assert lines == [l] + rest;
      if Skipped(l) {
        SatisfiedSame(before + rest, |before|, l, ins);
        assert Insert(before + rest, |before|, [l]) == before + lines;
        assert Visibles(lines) == Visibles(rest);
        SatisfiedBehind(before, rest, ins);
      } else {
        assert before + lines == before + [l] + rest;
        assert before + Visibles(lines) == before + [l] + Visibles(rest);
        SatisfiedBehind(before + [l], rest, ins);
      }
    }
  }

  /** Whether an insertion is settled depends on the visible lines alone. */
  lemma SatisfiedByVisibles(lines: Lines, others: Lines, ins: Insertion)
    requires Placeable(ins) && Visibles(others) == Visibles(lines)
    ensures Satisfied(others, ins) <==> Satisfied(lines, ins)
  {
    SatisfiedBehind([], lines, ins);
    SatisfiedBehind([], others, ins);
    assert [] + lines == lines && [] + others == others && [] + Visibles(lines) == Visibles(lines);
  }
}
