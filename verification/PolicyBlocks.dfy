/**
 Indentation blocks, and how they behave when lines are inserted at the end of one. The theory needs
 two things of a line only: whether it is blank or a comment, and how far it is indented.
 */
module PolicyBlocks {

  datatype Shape = Shape(skipped: bool, indent: nat)

  type Outline = seq<Shape>

  // --- Blocks ---

  /** `end` terminates the block opened at `k`, and `last` is the last body line in it (`k` if there is none). */
  ghost predicate IsBlock(lines: Outline, k: nat, end: nat, last: nat) {
    && k <= last < end <= |lines|
    && (forall i | k < i < end :: lines[i].skipped || lines[i].indent > lines[k].indent)
    && (end < |lines| ==> !lines[end].skipped && lines[end].indent <= lines[k].indent)
    && (last > k ==> !lines[last].skipped)
    && (forall i | last < i < end :: lines[i].skipped)
  }

  /** A block is determined by its key line. */
  lemma BlockUnique(lines: Outline, k: nat, e1: nat, b1: nat, e2: nat, b2: nat)
    requires IsBlock(lines, k, e1, b1) && IsBlock(lines, k, e2, b2)
    ensures e1 == e2 && b1 == b2
  {
  }

  /** A visible line reached from the key over deeper lines only is in the block. */
  lemma InBlock(lines: Outline, k: nat, i: nat)
    requires k < i < |lines| && !lines[i].skipped
    requires forall m | k < m <= i :: lines[m].skipped || lines[m].indent > lines[k].indent
    ensures i <= Last(lines, k)
  {
  }

  function Scan(lines: Outline, indent: nat, i: nat, last: nat): (r: (nat, nat))
    requires last < i <= |lines|
    decreases |lines| - i
  {
    if i == |lines| then (i, last)
    else if lines[i].skipped then Scan(lines, indent, i + 1, last)
    else if lines[i].indent <= indent then (i, last)
    else Scan(lines, indent, i + 1, i)
  }

  lemma {:induction false} ScanIsBlock(lines: Outline, k: nat, i: nat, last: nat)
    requires k <= last < i <= |lines|
    requires forall m | k < m < i :: lines[m].skipped || lines[m].indent > lines[k].indent
    requires last > k ==> !lines[last].skipped
    requires forall m | last < m < i :: lines[m].skipped
    ensures var r := Scan(lines, lines[k].indent, i, last); IsBlock(lines, k, r.0, r.1)
    decreases |lines| - i
  {
    if i < |lines| && (lines[i].skipped || lines[i].indent > lines[k].indent) {
      ScanIsBlock(lines, k, i + 1, if lines[i].skipped then last else i);
    }
  }

  function Block(lines: Outline, k: nat): (r: (nat, nat))
    requires k < |lines|
    ensures IsBlock(lines, k, r.0, r.1)
  {
    ScanIsBlock(lines, k, k + 1, k);
    Scan(lines, lines[k].indent, k + 1, k)
  }

  function End(lines: Outline, k: nat): nat
    requires k < |lines|
  {
    Block(lines, k).0
  }

  function Last(lines: Outline, k: nat): nat
    requires k < |lines|
  {
    Block(lines, k).1
  }

  // --- Insertion ---

  function Insert<T>(lines: seq<T>, p: nat, ins: seq<T>): seq<T>
    requires p <= |lines|
  {
    lines[..p] + ins + lines[p..]
  }

  /** Deleting the inserted lines again. */
  function Remove<T>(lines: seq<T>, p: nat, n: nat): seq<T>
    requires p + n <= |lines|
  {
    lines[..p] + lines[p + n..]
  }

  lemma RemoveInserted<T>(lines: seq<T>, p: nat, ins: seq<T>)
    requires p <= |lines|
    ensures Remove(Insert(lines, p, ins), p, |ins|) == lines
  {
    var out := Insert(lines, p, ins);
    assert out[..p] == lines[..p];
    assert out[p + |ins|..] == lines[p..];
  }

  function Shift(i: nat, p: nat, n: nat): nat {
    if i < p then i else i + n
  }

  /** `out` is `lines` with `ins` in front of line `p`, line by line. */
  ghost predicate Placed<T>(lines: seq<T>, p: nat, ins: seq<T>, out: seq<T>) {
    && p <= |lines| && |out| == |lines| + |ins|
    && (forall i | 0 <= i < p :: out[i] == lines[i])
    && (forall i | p <= i < p + |ins| :: out[i] == ins[i - p])
    && (forall i | p + |ins| <= i < |out| :: out[i] == lines[i - |ins|])
  }

  lemma InsertPlaces<T>(lines: seq<T>, p: nat, ins: seq<T>)
    requires p <= |lines|
    ensures Placed(lines, p, ins, Insert(lines, p, ins))
  {
  }

  lemma ShiftedLine<T>(lines: seq<T>, p: nat, ins: seq<T>, out: seq<T>, i: nat)
    requires Placed(lines, p, ins, out) && i < |lines|
    ensures Shift(i, p, |ins|) < |out| && out[Shift(i, p, |ins|)] == lines[i]
  {
  }

  ghost predicate Deeper(ins: Outline, indent: nat) {
    forall l <- ins :: l.skipped || l.indent > indent
  }

  /** The edits insert deeper lines, ending in a visible one, right after the last body line of a block. */
  ghost predicate AtBlockEnd(lines: Outline, k: nat, p: nat, ins: Outline) {
    && k < |lines| && p == Last(lines, k) + 1 && ins != [] && Deeper(ins, lines[k].indent)
    && !ins[|ins| - 1].skipped && !lines[k].skipped
  }

  /** `out` is `lines` with `ins` at the end of the block at `k`. */
  ghost predicate Extended(lines: Outline, k: nat, p: nat, ins: Outline, out: Outline) {
    AtBlockEnd(lines, k, p, ins) && Placed(lines, p, ins, out)
  }

  lemma GrownLine(lines: Outline, k: nat, p: nat, ins: Outline, out: Outline, i: nat)
    requires Extended(lines, k, p, ins, out) && k < i < End(lines, k) + |ins|
    ensures (out[i].skipped || out[i].indent > lines[k].indent) && (i >= p + |ins| ==> out[i].skipped)
  {
    if p <= i < p + |ins| {
      assert ins[i - p] in ins;
    }
  }

  /** The block edited grows by exactly the inserted lines, which become its last body lines. */
  lemma TargetGrows(lines: Outline, k: nat, p: nat, ins: Outline, out: Outline)
    requires Extended(lines, k, p, ins, out)
    ensures Block(out, k) == (End(lines, k) + |ins|, p + |ins| - 1)
  {
    var n, e := |ins|, End(lines, k);
    forall i | k < i < e + n
      ensures (out[i].skipped || out[i].indent > out[k].indent) && (i >= p + n ==> out[i].skipped)
    {
      GrownLine(lines, k, p, ins, out, i);
    }
    assert out[p + n - 1] == ins[n - 1];
    assert IsBlock(out, k, e + n, p + n - 1);
    BlockUnique(out, k, e + n, p + n - 1, End(out, k), Last(out, k));
  }

  /**
   Inside a block whose body goes on past the insertion point, the inserted lines are deeper than the
   block's own key: the insertion point lies at the end of a nested block.
   */
  lemma InsideIsDeeper(lines: Outline, k: nat, p: nat, ins: Outline, j: nat)
    requires AtBlockEnd(lines, k, p, ins) && j < p <= Last(lines, j) && j < |lines| && !lines[j].skipped
    ensures Deeper(ins, lines[j].indent)
  {
    assert j <= k by {
      NotAfterKey(lines, k, j);
    }
    assert j < k ==> lines[k].skipped || lines[k].indent > lines[j].indent;
  }

  /** A block opened inside another ends no later than it. */
  lemma NotAfterKey(lines: Outline, k: nat, j: nat)
    requires k < |lines| && j < |lines| && j <= Last(lines, k) < Last(lines, j)
    requires !lines[j].skipped
    ensures j <= k
  {
    var (ek, bk) := Block(lines, k);
    var (ej, bj) := Block(lines, j);
    assert bj >= ek;
    assert lines[ek].skipped || ek >= ej || ek <= j || lines[ek].indent > lines[j].indent;
  }

  lemma BetweenStays(lines: Outline, k: nat, p: nat, ins: Outline, out: Outline, j: nat, i: nat, m: nat)
    requires Extended(lines, k, p, ins, out)
    requires j < |lines| && !lines[j].skipped && j < i <= Last(lines, j)
    requires Shift(j, p, |ins|) < m <= Shift(i, p, |ins|)
    ensures m < |out| && (out[m].skipped || out[m].indent > lines[j].indent)
  {
    if p <= m < p + |ins| {
      InsideIsDeeper(lines, k, p, ins, j);
      assert ins[m - p] in ins;
    }
  }

  /** Every body line of every block is still a body line of that block after the insertion. */
  lemma BodyLineStays(lines: Outline, k: nat, p: nat, ins: Outline, out: Outline, j: nat, i: nat)
    requires Extended(lines, k, p, ins, out)
    requires j < |lines| && !lines[j].skipped && j < i <= Last(lines, j) && !lines[i].skipped
    ensures Shift(j, p, |ins|) < Shift(i, p, |ins|) <= Last(out, Shift(j, p, |ins|))
  {
    var j', i' := Shift(j, p, |ins|), Shift(i, p, |ins|);
    forall m | j' < m <= i'
      ensures out[m].skipped || out[m].indent > out[j'].indent
    {
      BetweenStays(lines, k, p, ins, out, j, i, m);
    }
    InBlock(out, j', i');
  }

  // --- All the other blocks ---

  /** `j` opens a block that holds the edited one. */
  ghost predicate Encloses(lines: Outline, j: nat, k: nat) {
    j < |lines| && j < k < End(lines, j)
  }

  /** Every body line of the edited block is indented at least as far as the first inserted visible line. */
  ghost predicate Flat(lines: Outline, k: nat, ins: Outline)
    requires k < |lines|
  {
    forall i, f | k < i <= Last(lines, k) && 0 <= f < |ins| && !lines[i].skipped && FirstVisible(ins, f) ::
      ins[f].indent <= lines[i].indent
  }

  ghost predicate FirstVisible(ins: Outline, f: nat) {
    f < |ins| && !ins[f].skipped && forall m | 0 <= m < f :: ins[m].skipped
  }

  lemma {:induction false} HasFirstVisible(ins: Outline, m: nat) returns (f: nat)
    requires m < |ins| && !ins[m].skipped
    ensures FirstVisible(ins, f)
    decreases m
  {
    if i :| 0 <= i < m && !ins[i].skipped {
      f := HasFirstVisible(ins, i);
    } else {
      f := m;
    }
  }

  /** A block behind the insertion only moves. */
  lemma LaterBlock(lines: Outline, p: nat, ins: Outline, out: Outline, j: nat)
    requires Placed(lines, p, ins, out) && p <= j < |lines|
    ensures Last(out, j + |ins|) == Last(lines, j) + |ins|
  {
    var (e, b) := Block(lines, j);
    assert IsBlock(out, j + |ins|, e + |ins|, b + |ins|);
    BlockUnique(out, j + |ins|, e + |ins|, b + |ins|, End(out, j + |ins|), Last(out, j + |ins|));
  }

  /** A block that ends before the insertion stays. */
  lemma EarlierBlock(lines: Outline, p: nat, ins: Outline, out: Outline, j: nat)
    requires Placed(lines, p, ins, out) && j < |lines| && End(lines, j) < p
    ensures Last(out, j) == Last(lines, j)
  {
    var (e, b) := Block(lines, j);
    assert IsBlock(out, j, e, b);
    BlockUnique(out, j, e, b, End(out, j), Last(out, j));
  }

  /** A block nested in a flat edited block is closed by the first inserted visible line. */
  lemma NestedBlock(lines: Outline, k: nat, p: nat, ins: Outline, out: Outline, j: nat)
    requires Extended(lines, k, p, ins, out) && Flat(lines, k, ins)
    requires k < j < p && !lines[j].skipped
    ensures Last(out, j) == Last(lines, j)
  {
    NestedEnds(lines, k, p, j);
    var (e, b) := Block(lines, j);
    if e < p {
      EarlierBlock(lines, p, ins, out, j);
    } else {
      var f := HasFirstVisible(ins, |ins| - 1);
      assert ins[f].indent <= lines[j].indent;
      ClosedByInserted(lines, p, ins, out, j, e, b, f);
    }
  }

  lemma ClosedByInserted(lines: Outline, p: nat, ins: Outline, out: Outline, j: nat, e: nat, b: nat, f: nat)
    requires Placed(lines, p, ins, out) && IsBlock(lines, j, e, b) && b < p <= e
    requires FirstVisible(ins, f) && ins[f].indent <= lines[j].indent
    ensures j < |out| && Last(out, j) == b
  {
    forall i | j < i < p + f
      ensures (out[i].skipped || out[i].indent > out[j].indent) && (i > b ==> out[i].skipped)
    {
      if i >= p {
        assert out[i] == ins[i - p];
      } else {
        assert out[i] == lines[i];
      }
    }
    assert out[p + f] == ins[f];
    BlockUnique(out, j, p + f, b, End(out, j), Last(out, j));
  }

  lemma NestedEnds(lines: Outline, k: nat, p: nat, j: nat)
    requires k < |lines| && p == Last(lines, k) + 1 && k < j < p && !lines[j].skipped
    ensures Last(lines, j) < p && lines[j].indent > lines[k].indent
    ensures End(lines, j) < |lines| ==> End(lines, j) <= End(lines, k)
  {
    var (ek, bk) := Block(lines, k);
    var (ej, bj) := Block(lines, j);
    assert lines[j].skipped || lines[j].indent > lines[k].indent;
  }

  /** Framing: the body of every block other than the edited one and those enclosing it is unchanged. */
  lemma OtherBlocksKeep(lines: Outline, k: nat, p: nat, ins: Outline, out: Outline, j: nat)
    requires Extended(lines, k, p, ins, out) && Flat(lines, k, ins)
    requires j < |lines| && !lines[j].skipped && j != k && !Encloses(lines, j, k)
    ensures Last(out, Shift(j, p, |ins|)) == Shift(Last(lines, j), p, |ins|)
  {
    if j >= p {
      LaterBlock(lines, p, ins, out, j);
    } else if j < k {
      EarlierBlock(lines, p, ins, out, j);
    } else {
      NestedBlock(lines, k, p, ins, out, j);
      NestedEnds(lines, k, p, j);
    }
  }

  /** The edited block and those enclosing it grow by the inserted lines. */
  lemma EnclosingBlocksGrow(lines: Outline, k: nat, p: nat, ins: Outline, out: Outline, j: nat)
    requires Extended(lines, k, p, ins, out)
    requires j < |lines| && !lines[j].skipped && (j == k || Encloses(lines, j, k))
    ensures p - 1 <= Last(lines, j)
    ensures Last(out, j) == Last(lines, j) + |ins|
  {
    if j == k {
      TargetGrows(lines, k, p, ins, out);
    } else {
      EnclosesEnd(lines, k, j);
      EnclosingDeeper(lines, k, ins, j);
      var (e, b) := Block(lines, j);
      var n := |ins|;
      assert forall i | p <= i < p + n :: out[i] == ins[i - p] && ins[i - p] in ins;
      assert out[p + n - 1] == ins[n - 1];
      assert IsBlock(out, j, e + n, b + n);
      BlockUnique(out, j, e + n, b + n, End(out, j), Last(out, j));
    }
  }

  lemma EnclosesEnd(lines: Outline, k: nat, j: nat)
    requires k < |lines| && !lines[k].skipped && Encloses(lines, j, k) && !lines[j].skipped
    ensures Last(lines, k) <= Last(lines, j) && End(lines, k) <= End(lines, j)
    ensures lines[k].indent > lines[j].indent
  {
    var (ek, bk) := Block(lines, k);
    var (ej, bj) := Block(lines, j);
    assert lines[k].skipped || lines[k].indent > lines[j].indent;
  }

  lemma EnclosingDeeper(lines: Outline, k: nat, ins: Outline, j: nat)
    requires k < |lines| && j < |lines| && Deeper(ins, lines[k].indent) && lines[k].indent > lines[j].indent
    ensures Deeper(ins, lines[j].indent)
  {
  }

  // --- The first body line of a block ---

  function FirstBody(lines: Outline, i: nat): (r: nat)
    requires i <= |lines|
    ensures i <= r <= |lines| && (forall m | i <= m < r :: lines[m].skipped) && (r < |lines| ==> !lines[r].skipped)
    decreases |lines| - i
  {
    if i == |lines| || !lines[i].skipped then i else FirstBody(lines, i + 1)
  }

  lemma FirstBodyIs(lines: Outline, i: nat, r: nat)
    requires i <= r < |lines| && !lines[r].skipped && forall m | i <= m < r :: lines[m].skipped
    ensures FirstBody(lines, i) == r
  {
  }

  lemma FirstBodyInBlock(lines: Outline, k: nat)
    requires k < |lines| && Last(lines, k) > k
    ensures k < FirstBody(lines, k + 1) <= Last(lines, k)
    ensures lines[FirstBody(lines, k + 1)].indent > lines[k].indent
  {
    var (e, b) := Block(lines, k);
    var f := FirstBody(lines, k + 1);
    assert f <= b;
  }

  /** The insertion point never falls between a key and the first line of its non-empty block. */
  lemma NoGap(lines: Outline, k: nat, j: nat)
    requires k < |lines| && j < |lines| && !lines[k].skipped && !lines[j].skipped && Last(lines, j) > j
    ensures var p := Last(lines, k) + 1; !(j < p <= FirstBody(lines, j + 1))
  {
    var p := Last(lines, k) + 1;
    FirstBodyInBlock(lines, j);
    if k < j < p {
      NestedEnds(lines, k, p, j);
    }
  }

  /** A non-empty block keeps its first body line. */
  lemma FirstStays(lines: Outline, k: nat, p: nat, ins: Outline, out: Outline, j: nat)
    requires Extended(lines, k, p, ins, out)
    requires j < |lines| && !lines[j].skipped && Last(lines, j) > j
    ensures Shift(j, p, |ins|) < |out|
    ensures FirstBody(out, Shift(j, p, |ins|) + 1) == Shift(FirstBody(lines, j + 1), p, |ins|)
  {
    FirstBodyInBlock(lines, j);
    NoGap(lines, k, j);
    FirstBodyIs(out, Shift(j, p, |ins|) + 1, Shift(FirstBody(lines, j + 1), p, |ins|));
  }

  // --- Blank and comment lines ---

  /** A skipped line put anywhere moves every block along and changes none. */
  lemma SkippedMoves(lines: Outline, p: nat, s: Shape, out: Outline, j: nat)
    requires Placed(lines, p, [s], out) && s.skipped && j < |lines| && !lines[j].skipped
    ensures Shift(j, p, 1) < |out| && Last(out, Shift(j, p, 1)) == Shift(Last(lines, j), p, 1)
  {
    var (e, b) := Block(lines, j);
    var j', e', b' := Shift(j, p, 1), Shift(e, p, 1), Shift(b, p, 1);
    assert IsBlock(out, j', e', b');
    BlockUnique(out, j', e', b', End(out, j'), Last(out, j'));
  }

  lemma SkippedFirst(lines: Outline, p: nat, s: Shape, out: Outline, j: nat)
    requires Placed(lines, p, [s], out) && s.skipped && j < |lines| && !lines[j].skipped && Last(lines, j) > j
    ensures Shift(j, p, 1) < |out| && FirstBody(out, Shift(j, p, 1) + 1) == Shift(FirstBody(lines, j + 1), p, 1)
  {
    FirstBodyInBlock(lines, j);
    FirstBodyIs(out, Shift(j, p, 1) + 1, Shift(FirstBody(lines, j + 1), p, 1));
  }
}
