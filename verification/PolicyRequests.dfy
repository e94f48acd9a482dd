/** What an onboarding edit writes: which blocks it goes to, in which order, and what the file has afterwards. */
module PolicyRequests {
  import opened Basics
  import opened PolicyText
  import opened PolicyBlocks
  import opened PolicyEdit
  import opened PolicyEditLaws
  import opened PolicyIdempotence
  import opened PolicyComments
  import opened PolicyFraming
  import opened PolicyFile

  // --- Where a request goes ---

  /** The first line from `from` on that opens the key. */
  ghost predicate Opens(lines: Lines, from: nat, key: string, k: nat) {
    from <= k < |lines| && OpensKey(lines[k], key) && forall i | from <= i < k :: !OpensKey(lines[i], key)
  }

  /** The first key line of the file, or the first one from the first anchor line on. */
  ghost predicate Aims(lines: Lines, anchor: Option<string>, key: string, k: nat) {
    match anchor
    case None => Opens(lines, 0, key, k)
    case Some(a) => exists from: nat :: Opens(lines, 0, a, from) && Opens(lines, from, key, k)
  }

  function AnchorOf(ins: Insertion): Option<string> {
    if ins.SeqItem? then ins.anchor else None
  }

  lemma FoundOpens(lines: Lines, from: nat, key: string)
    requires FindKey(lines, key, from).Some?
    ensures Opens(lines, from, key, FindKey(lines, key, from).value)
  {
    FindKeyFirst(lines, key, from);
  }

  lemma TargetAims(lines: Lines, ins: Insertion)
    requires Target(lines, ins).Some?
    ensures Aims(lines, AnchorOf(ins), ins.key, Target(lines, ins).value)
  {
    match AnchorOf(ins) {
      case None => FoundOpens(lines, 0, ins.key);
      case Some(a) =>
        FoundOpens(lines, 0, a);
        FoundOpens(lines, FindKey(lines, a, 0).value, ins.key);
    }
  }

  // --- What a request writes ---

  /** The note above what is written, as a comment, if there is a note. */
  function NoteAbove(n: nat, note: string): Lines {
    if TrimSpace(note) == "" then [] else [Spaces(n) + ("# " + TrimSpace(note))]
  }

  /** `after` is `before` with the lines put behind the last body line of the block at `k`. */
  ghost predicate Put(before: Lines, k: nat, added: Lines, after: Lines) {
    k < |before| && LastOf(before, k) < |before|
    && after == before[..LastOf(before, k) + 1] + added + before[LastOf(before, k) + 1..]
  }

  /** As deep as the last line of the block, or one level in when the block is empty. */
  ghost predicate ItemDepth(lines: Lines, k: nat, n: nat) {
    k < |lines| && LastOf(lines, k) < |lines|
    && n == if LastOf(lines, k) > k then Indent(lines[LastOf(lines, k)]) else Indent(lines[k]) + 2
  }

  /** As deep as the first visible line of the block, or one level in when the block is empty. */
  ghost predicate EntryDepth(lines: Lines, k: nat, n: nat) {
    k < |lines| && LastOf(lines, k) < |lines|
    && if LastOf(lines, k) > k
       then exists f :: k < f <= LastOf(lines, k) && !Skipped(lines[f]) && n == Indent(lines[f]) && forall i | k < i < f :: Skipped(lines[i])
       else n == Indent(lines[k]) + 2
  }

  /** A note and an item. */
  ghost predicate ItemPut(before: Lines, k: nat, value: string, note: string, n: nat, after: Lines) {
    ItemDepth(before, k, n) && Put(before, k, NoteAbove(n, note) + [Spaces(n) + ("- \"" + value + "\"")], after)
  }

  /** A note, the line that opens the entry, and its body one level deeper. */
  ghost predicate EntryPut(before: Lines, k: nat, entry: string, body: Lines, note: string, n: nat, after: Lines) {
    EntryDepth(before, k, n) && Put(before, k, NoteAbove(n, note) + [Spaces(n) + ("\"" + entry + "\":")] + Padded(n + 2, body), after)
  }

  /** A project goes into a sequence: as its new last item under the note, or not at all because it is there. */
  ghost predicate ItemStage(before: Lines, after: Lines, anchor: Option<string>, key: string, value: string, note: string,
                            did: bool, k: nat) {
    && Aims(before, anchor, key, k) && k < |before| && k < |after| && Aims(after, anchor, key, k)
    && (did <==> value !in BlockItems(before, k))
    && BlockItems(after, k) == BlockItems(before, k) + (if did then [value] else [])
    && (!did ==> after == before)
    && (did ==> exists n: nat :: ItemPut(before, k, value, note, n, after))
  }

  /** Some line of the block is the entry of this name. */
  ghost predicate HasEntry(lines: Lines, k: nat, entry: string)
    requires k < |lines|
  {
    BodyHas(lines, k, EntryTest(EntryIndent(lines, k), entry))
  }

  /** An entry goes into a map: as its new last entry with this body, or not at all because one is there. */
  ghost predicate EntryStage(before: Lines, after: Lines, key: string, entry: string, body: Lines, note: string, did: bool, k: nat) {
    && Aims(before, None, key, k) && k < |before| && k < |after| && Aims(after, None, key, k)
    && (did <==> !HasEntry(before, k, entry))
    && (!did ==> after == before)
    && (did ==>
          && NewEntry(after, k, EntryIndent(before, k), LastOf(before, k), entry, body)
          && exists n: nat :: EntryPut(before, k, entry, body, note, n, after))
  }

  /** The caps asked for, each under its own name, the money first. */
  ghost predicate CapLines(body: Lines, usd: string, runs: string) {
    && (usd != "" && runs != "" ==> body == ["max_usd_per_run: " + usd, "max_runs_per_day: " + runs])
    && (usd != "" && runs == "" ==> body == ["max_usd_per_run: " + usd])
    && (usd == "" && runs != "" ==> body == ["max_runs_per_day: " + runs])
  }

  /** `at` lists the positions of the elements to keep, in order. */
  ghost predicate Picks<T>(xs: seq<T>, keep: T -> bool, at: seq<nat>) {
    KeptAt(xs, keep, at) && Increasing(at) && Covers(xs, keep, at)
  }

  ghost predicate KeptAt<T>(xs: seq<T>, keep: T -> bool, at: seq<nat>) {
    forall m | 0 <= m < |at| :: at[m] < |xs| && keep(xs[at[m]])
  }

  ghost predicate Increasing(at: seq<nat>) {
    forall m, n | 0 <= m < n < |at| :: at[m] < at[n]
  }

  ghost predicate Covers<T>(xs: seq<T>, keep: T -> bool, at: seq<nat>) {
    forall i | 0 <= i < |xs| && keep(xs[i]) :: i in at
  }

  /** The m-th line is made from the m-th element picked. */
  ghost predicate Writes<T>(body: Lines, xs: seq<T>, write: T -> string, at: seq<nat>) {
    |body| == |at| && forall m | 0 <= m < |at| :: at[m] < |xs| && body[m] == write(xs[at[m]])
  }

  /** One line for each element to keep, in order. */
  ghost predicate LinesOf<T>(body: Lines, xs: seq<T>, keep: T -> bool, write: T -> string) {
    exists at: seq<nat> :: Picks(xs, keep, at) && Writes(body, xs, write, at)
  }

  predicate NotBlank(p: string) {
    TrimSpace(p) != ""
  }

  function AsItem(p: string): string {
    "- " + Quote(TrimSpace(p))
  }

  /** One item for each path that is not blank, trimmed and quoted, in order. */
  ghost predicate PathLines(body: Lines, paths: seq<string>) {
    LinesOf(body, paths, NotBlank, AsItem)
  }

  // --- One request ---

  lemma QuotePlain(s: string)
    requires '"' !in s
    ensures Quote(s) == "\"" + s + "\""
  {
    EscapePlain(s);
  }

  lemma ItemText(n: nat, value: string)
    requires '"' !in value
    ensures Spaces(n) + ("- " + Quote(value)) == Spaces(n) + ("- \"" + value + "\"")
  {
    QuotePlain(value);
    assert "- " + ("\"" + value + "\"") == "- \"" + value + "\"";
  }

  lemma EntryText(n: nat, entry: string)
    requires '"' !in entry
    ensures Spaces(n) + (Quote(entry) + ":") == Spaces(n) + ("\"" + entry + "\":")
  {
    QuotePlain(entry);
    assert ("\"" + entry + "\"") + ":" == "\"" + entry + "\":";
  }

  lemma LineIsItem(lines: Lines, k: nat, i: nat, value: string)
    requires k < |lines| && k < i <= LastOf(lines, k) < |lines| && value in ItemOf(lines[i])
    ensures value in BlockItems(lines, k)
  {
    InsideAt(lines, k, i);
    HarvestHas(Inside(lines, k), i - k - 1, value);
  }

  lemma PresentItem(lines: Lines, k: nat, value: string)
    requires k < |lines| && SeqPresent(lines, k, value)
    ensures value in BlockItems(lines, k)
  {
    LastBounds(lines, k);
    var i :| k < i <= LastOf(lines, k) && ItemIs(lines[i], value);
    LineIsItem(lines, k, i, value);
  }

  lemma {:induction false} HarvestHas(lines: Lines, i: nat, value: string)
    requires i < |lines| && value in ItemOf(lines[i])
    ensures value in Harvest(lines, ItemOf)
  {
    if i > 0 {
      HarvestHas(lines[1..], i - 1, value);
    }
  }

  lemma PutInserted(before: Lines, k: nat, added: Lines, after: Lines)
    requires k < |before| && LastOf(before, k) < |before| && after == Insert(before, LastOf(before, k) + 1, added)
    ensures Put(before, k, added, after)
  {
  }

  lemma NoteIs(n: nat, note: string)
    ensures NoteLine(n, note) == NoteAbove(n, note)
  {
  }

  lemma ItemIsPut(before: Lines, ins: Insertion, after: Lines, k: nat)
    requires ins.SeqItem? && '"' !in ins.value && ApplyOne(before, ins) == Ok((after, true)) && Target(before, ins) == Some(k)
    ensures k < |before| && ItemPut(before, k, ins.value, ins.note, ItemIndent(before, k), after)
  {
    var k' := ChangedBlock(before, ins);
    var n := ItemIndent(before, k);
    ItemText(n, ins.value);
    NoteIs(n, ins.note);
    PutInserted(before, k, NewLines(before, k, ins), after);
  }

  /** A request for a sequence item does what its stage says. */
  lemma ItemWritten(before: Lines, ins: Insertion, after: Lines, did: bool) returns (k: nat)
    requires Placeable(ins) && ins.SeqItem? && Readable(ins) && ApplyOne(before, ins) == Ok((after, did))
    ensures Target(before, ins) == Some(k) && ItemStage(before, after, ins.anchor, ins.key, ins.value, ins.note, did, k)
  {
    OutcomeOfOne(before, ins);
    k := Target(before, ins).value;
    TargetAims(before, ins);
    if did {
      var k' := ItemsGain(before, ins);
      TargetAims(after, ins);
      ItemIsPut(before, ins, after, k);
    } else {
      SatisfiedIsSkip(before, ins);
      PresentItem(before, k, ins.value);
      assert BlockItems(before, k) + [] == BlockItems(before, k);
    }
  }

  lemma EntryLinesAre(n: nat, entry: string, body: Lines, note: string)
    requires '"' !in entry
    ensures MapLines(n, entry, body, note) == NoteAbove(n, note) + [Spaces(n) + ("\"" + entry + "\":")] + Padded(n + 2, body)
  {
    EntryText(n, entry);
    NoteIs(n, note);
  }

  lemma EntryDepthIs(lines: Lines, k: nat)
    requires k < |lines| && LastOf(lines, k) < |lines|
    ensures EntryDepth(lines, k, EntryIndent(lines, k))
  {
    var o := Outlined(lines);
    if LastOf(lines, k) > k {
      FirstBodyInBlock(o, k);
      var f := FirstBody(o, k + 1);
      OutlinedAt(lines, f);
      forall i | k < i < f
        ensures Skipped(lines[i])
      {
        OutlinedAt(lines, i);
      }
    }
  }

  lemma EntryPutFrom(before: Lines, k: nat, ins: Insertion, after: Lines)
    requires ins.MapItem? && '"' !in ins.entry && k < |before| && LastOf(before, k) < |before|
    requires after == Insert(before, LastOf(before, k) + 1, NewLines(before, k, ins))
    ensures EntryPut(before, k, ins.entry, ins.body, ins.note, EntryIndent(before, k), after)
  {
    EntryLinesAre(EntryIndent(before, k), ins.entry, ins.body, ins.note);
    EntryDepthIs(before, k);
    PutInserted(before, k, NewLines(before, k, ins), after);
  }

  lemma EntryMade(before: Lines, k: nat, ins: Insertion, after: Lines)
    requires ins.MapItem? && EntryName(ins.entry) && Target(before, ins) == Some(k) && Target(after, ins) == Some(k)
    requires k < |before| && k < |after| && LastOf(before, k) < |before| && !MapPresent(before, k, ins.entry)
    requires after == Insert(before, LastOf(before, k) + 1, NewLines(before, k, ins))
    requires NewEntry(after, k, EntryIndent(before, k), LastOf(before, k), ins.entry, ins.body)
    ensures EntryStage(before, after, ins.key, ins.entry, ins.body, ins.note, true, k)
  {
    TargetAims(before, ins);
    TargetAims(after, ins);
    MapPresentIs(before, k, ins.entry);
    EntryPutFrom(before, k, ins, after);
  }

  lemma EntryKept(before: Lines, k: nat, ins: Insertion)
    requires ins.MapItem? && Target(before, ins) == Some(k) && k < |before| && MapPresent(before, k, ins.entry)
    ensures EntryStage(before, before, ins.key, ins.entry, ins.body, ins.note, false, k)
  {
    TargetAims(before, ins);
    MapPresentIs(before, k, ins.entry);
  }

  /** So does a request for a map entry. */
  lemma EntryWritten(before: Lines, ins: Insertion, after: Lines, did: bool) returns (k: nat)
    requires Placeable(ins) && ins.MapItem? && EntryName(ins.entry) && ApplyOne(before, ins) == Ok((after, did))
    ensures EntryStage(before, after, ins.key, ins.entry, ins.body, ins.note, did, k)
  {
    if did {
      k := ChangedBlock(before, ins);
      var k' := EntryGained(before, ins);
      EntryMade(before, k, ins, after);
    } else {
      SatisfiedIsSkip(before, ins);
      k := Target(before, ins).value;
      EntryKept(before, k, ins);
    }
  }

  // --- The bodies ---

  lemma CapsAre(e: OnboardEdit)
    ensures CapLines(BudgetBody(e), e.usd, e.runs) && (BudgetBody(e) == [] <==> e.usd == "" && e.runs == "")
  {
  }

  function Later(at: seq<nat>): (r: seq<nat>)
    ensures |r| == |at| && forall m | 0 <= m < |at| :: r[m] == at[m] + 1
  {
    if at == [] then [] else [at[0] + 1] + Later(at[1..])
  }

  lemma LaterHas(at: seq<nat>, i: nat)
    requires i in at
    ensures i + 1 in Later(at)
  {
    var m :| 0 <= m < |at| && at[m] == i;
    assert Later(at)[m] == i + 1;
  }

  lemma KeptLater<T>(xs: seq<T>, keep: T -> bool, rest: seq<nat>)
    requires xs != [] && KeptAt(xs[1..], keep, rest)
    ensures KeptAt(xs, keep, Later(rest))
  {
  }

  lemma IncreasingLater(rest: seq<nat>)
    requires Increasing(rest)
    ensures Increasing(Later(rest)) && Increasing([0] + Later(rest))
  {
  }

  lemma CoversLater<T>(xs: seq<T>, keep: T -> bool, rest: seq<nat>)
    requires xs != [] && Covers(xs[1..], keep, rest)
    ensures Covers(xs, keep, [0] + Later(rest)) && (!keep(xs[0]) ==> Covers(xs, keep, Later(rest)))
  {
    forall i | 1 <= i < |xs| && keep(xs[i])
      ensures i in Later(rest)
    {
      assert xs[1..][i - 1] == xs[i];
      LaterHas(rest, i - 1);
    }
  }

  lemma WritesLater<T>(body: Lines, xs: seq<T>, write: T -> string, rest: seq<nat>)
    requires xs != [] && Writes(body, xs[1..], write, rest)
    ensures Writes(body, xs, write, Later(rest)) && Writes([write(xs[0])] + body, xs, write, [0] + Later(rest))
  {
  }

  lemma LinesBy<T>(body: Lines, xs: seq<T>, keep: T -> bool, write: T -> string, at: seq<nat>)
    requires Picks(xs, keep, at) && Writes(body, xs, write, at)
    ensures LinesOf(body, xs, keep, write)
  {
  }

  lemma KeptFirst<T>(xs: seq<T>, keep: T -> bool, at: seq<nat>)
    requires xs != [] && keep(xs[0]) && KeptAt(xs, keep, at)
    ensures KeptAt(xs, keep, [0] + at)
  {
  }

  /** One element more in front: its line comes first, if it is kept. */
  lemma LinesMore<T>(body: Lines, xs: seq<T>, keep: T -> bool, write: T -> string)
    requires xs != [] && LinesOf(body, xs[1..], keep, write)
    ensures keep(xs[0]) ==> LinesOf([write(xs[0])] + body, xs, keep, write)
    ensures !keep(xs[0]) ==> LinesOf(body, xs, keep, write)
  {
    var rest :| Picks(xs[1..], keep, rest) && Writes(body, xs[1..], write, rest);
    KeptLater(xs, keep, rest);
    IncreasingLater(rest);
    CoversLater(xs, keep, rest);
    WritesLater(body, xs, write, rest);
    if keep(xs[0]) {
      KeptFirst(xs, keep, Later(rest));
      LinesBy([write(xs[0])] + body, xs, keep, write, [0] + Later(rest));
    } else {
      LinesBy(body, xs, keep, write, Later(rest));
    }
  }

  lemma NoLines<T>(keep: T -> bool, write: T -> string)
    ensures LinesOf([], [], keep, write)
  {
    var none: seq<nat> := [];
    assert Picks([], keep, none) && Writes([], [], write, none);
  }

  function Selected<T>(xs: seq<T>, keep: T -> bool, write: T -> string): Lines {
    if xs == [] then [] else (if keep(xs[0]) then [write(xs[0])] else []) + Selected(xs[1..], keep, write)
  }

  lemma {:induction false} SelectedLines<T>(xs: seq<T>, keep: T -> bool, write: T -> string)
    ensures LinesOf(Selected(xs, keep, write), xs, keep, write)
  {
    if xs == [] {
      NoLines(keep, write);
    } else {
      SelectedLines(xs[1..], keep, write);
      LinesMore(Selected(xs[1..], keep, write), xs, keep, write);
      assert [] + Selected(xs[1..], keep, write) == Selected(xs[1..], keep, write);
    }
  }

  lemma {:induction false} PathsSelected(paths: seq<string>)
    ensures PathItems(paths) == Selected(paths, PathAsked, PathItem)
  {
    if paths != [] {
      PathsSelected(paths[1..]);
    }
  }

  lemma PathsAre(paths: seq<string>)
    ensures PathLines(PathItems(paths), paths)
  {
    PathsSelected(paths);
    SelectedLines(paths, PathAsked, PathItem);
    forall p
      ensures PathAsked(p) == NotBlank(p) && PathItem(p) == AsItem(p)
    {
      SameItem(p);
    }
    SameLines(PathItems(paths), paths, PathAsked, PathItem, NotBlank, AsItem);
  }

  lemma SameItem(p: string)
    ensures PathAsked(p) == NotBlank(p) && PathItem(p) == AsItem(p)
  {
  }

  lemma SameLines<T(!new)>(body: Lines, xs: seq<T>, keep: T -> bool, write: T -> string, keep': T -> bool, write': T -> string)
    requires LinesOf(body, xs, keep, write) && forall x :: keep(x) == keep'(x) && write(x) == write'(x)
    ensures LinesOf(body, xs, keep', write')
  {
    var at :| Picks(xs, keep, at) && Writes(body, xs, write, at);
    LinesBy(body, xs, keep', write', at);
  }

  // --- The whole edit ---

  /** A run of steps that succeeds as a whole succeeds up to any point. */
  lemma {:induction false} ChainPrefix<S, X, E>(step: (S, X) -> Result<(S, bool), E>, from: S, a: seq<X>, b: seq<X>)
    requires Chain(step, from, a + b).Ok?
    ensures Chain(step, from, a).Ok?
    decreases |a|
  {
    if a != [] {
      assert (a + b)[0] == a[0] && (a + b)[1..] == a[1..] + b;
      ChainPrefix(step, step(from, a[0]).value.0, a[1..], b);
    }
  }

  lemma {:induction false} LabelsJoin(a: seq<Request>, da: seq<bool>, b: seq<Request>, db: seq<bool>, wanted: bool)
    requires |a| == |da|
    ensures Labels(a + b, da + db, wanted) == Labels(a, da, wanted) + Labels(b, db, wanted)
  {
    if a == [] {
      assert a + b == b && da + db == db;
    } else {
      assert (a + b)[1..] == a[1..] + b && (da + db)[1..] == da[1..] + db;
      LabelsJoin(a[1..], da[1..], b, db, wanted);
    }
  }

  /** Carrying out one list of requests after another. */
  lemma ApplyBoth(lines: Lines, a: seq<Request>, b: seq<Request>) returns (mid: Lines, da: seq<bool>, db: seq<bool>)
    requires ApplyAll(lines, Insertions(a + b)).Ok?
    ensures ApplyAll(lines, Insertions(a)) == Ok((mid, da))
    ensures ApplyAll(mid, Insertions(b)) == Ok((ApplyAll(lines, Insertions(a + b)).value.0, db))
    ensures ApplyAll(lines, Insertions(a + b)).value.1 == da + db
  {
    InsertionsJoin(a, b);
    ChainPrefix(ApplyOne, lines, Insertions(a), Insertions(b));
    ChainJoin(ApplyOne, lines, Insertions(a), Insertions(b));
    mid, da := ApplyAll(lines, Insertions(a)).value.0, ApplyAll(lines, Insertions(a)).value.1;
    db := ApplyAll(mid, Insertions(b)).value.1;
  }

  lemma OneRequest(lines: Lines, asked: bool, x: Request) returns (next: Lines, did: bool)
    requires ApplyAll(lines, Insertions(if asked then [x] else [])).Ok?
    ensures ApplyAll(lines, Insertions(if asked then [x] else [])) == Ok((next, if asked then [did] else []))
    ensures if asked then ApplyOne(lines, x.1) == Ok((next, did)) else next == lines && !did
  {
    if asked {
      assert Insertions([x]) == [x.1];
      OneStep(ApplyOne, lines, x.1);
      next, did := ApplyOne(lines, x.1).value.0, ApplyOne(lines, x.1).value.1;
    } else {
      next, did := lines, false;
    }
  }

  lemma OneStep<S, X, E>(step: (S, X) -> Result<(S, bool), E>, from: S, x: X)
    requires Chain(step, from, [x]).Ok?
    ensures step(from, x).Ok? && Chain(step, from, [x]) == Ok((step(from, x).value.0, [step(from, x).value.1]))
  {
    assert [x][1..] == [] && [step(from, x).value.1] + [] == [step(from, x).value.1];
  }

  /** The four requests of an edit, as separate lists. */
  lemma FourRequests(e: OnboardEdit)
    ensures var p := ProjectOf(e);
      Requested(e) ==
      [DemandRequest(p, e.note)]
      + ((if e.intakeIssues then [IntakeRequest(p, e.note)] else [])
         + ((if e.protectedPaths != [] then [PathsRequest(p, PathItems(e.protectedPaths), e.note)] else [])
            + (if BudgetBody(e) != [] then [BudgetRequest(p, BudgetBody(e), e.note)] else [])))
  {
  }

  /** The names reported: of the parts asked for, those that changed the file, or those that did not. */
  function Report(name: string, asked: bool, did: bool, wanted: bool): seq<string> {
    if asked && did == wanted then [name] else []
  }

  lemma OneReport(asked: bool, x: Request, did: bool, wanted: bool)
    ensures Labels(if asked then [x] else [], if asked then [did] else [], wanted) == Report(x.0, asked, did, wanted)
  {
    assert asked ==> [x][1..] == [] && [did][1..] == [];
  }

  /** The states of the file between the parts of an edit, and which parts changed it. */
  datatype Stages = Stages(first: Lines, second: Lines, third: Lines, last: Lines, d1: bool, d2: bool, d3: bool, d4: bool)

  lemma RunStages(lines: Lines, e: OnboardEdit) returns (g: Stages)
    requires ApplyAll(lines, Insertions(Requested(e))).Ok?
    ensures ApplyAll(lines, Insertions(Requested(e))).value.0 == g.last
    ensures ApplyOne(lines, DemandRequest(ProjectOf(e), e.note).1) == Ok((g.first, g.d1))
    ensures if e.intakeIssues then ApplyOne(g.first, IntakeRequest(ProjectOf(e), e.note).1) == Ok((g.second, g.d2))
            else g.second == g.first && !g.d2
    ensures if e.protectedPaths != []
            then ApplyOne(g.second, PathsRequest(ProjectOf(e), PathItems(e.protectedPaths), e.note).1) == Ok((g.third, g.d3))
            else g.third == g.second && !g.d3
    ensures if BudgetBody(e) != []
            then ApplyOne(g.third, BudgetRequest(ProjectOf(e), BudgetBody(e), e.note).1) == Ok((g.last, g.d4))
            else g.last == g.third && !g.d4
    ensures forall wanted ::
              Labels(Requested(e), ApplyAll(lines, Insertions(Requested(e))).value.1, wanted) == Reported(e, g, wanted)
  {
    var x1, x2 := DemandRequest(ProjectOf(e), e.note), IntakeRequest(ProjectOf(e), e.note);
    var x3, x4 := PathsRequest(ProjectOf(e), PathItems(e.protectedPaths), e.note), BudgetRequest(ProjectOf(e), BudgetBody(e), e.note);
    FourRequests(e);
    CapsAre(e);
    g := RunFour(lines, x1, e.intakeIssues, x2, e.protectedPaths != [], x3, BudgetBody(e) != [], x4);
  }

  /** The report of a whole edit, part by part. */
  function Reported(e: OnboardEdit, g: Stages, wanted: bool): seq<string> {
    Report("cross_repo.demand_projects", true, g.d1, wanted)
    + (Report("intake.gitlab.projects", e.intakeIssues, g.d2, wanted)
       + (Report("pipeline.protected_paths_per_repo", e.protectedPaths != [], g.d3, wanted)
          + Report("pipeline.per_repo_overrides", e.usd != "" || e.runs != "", g.d4, wanted)))
  }

  function If(asked: bool, x: Request): seq<Request> {
    if asked then [x] else []
  }

  lemma RunFour(lines: Lines, x1: Request, a2: bool, x2: Request, a3: bool, x3: Request, a4: bool, x4: Request) returns (g: Stages)
    requires ApplyAll(lines, Insertions([x1] + (If(a2, x2) + (If(a3, x3) + If(a4, x4))))).Ok?
    ensures var r := ApplyAll(lines, Insertions([x1] + (If(a2, x2) + (If(a3, x3) + If(a4, x4))))).value;
      && r.0 == g.last
      && forall wanted :: Labels([x1] + (If(a2, x2) + (If(a3, x3) + If(a4, x4))), r.1, wanted) ==
           Report(x1.0, true, g.d1, wanted)
           + (Report(x2.0, a2, g.d2, wanted) + (Report(x3.0, a3, g.d3, wanted) + Report(x4.0, a4, g.d4, wanted)))
    ensures ApplyOne(lines, x1.1) == Ok((g.first, g.d1))
    ensures if a2 then ApplyOne(g.first, x2.1) == Ok((g.second, g.d2)) else g.second == g.first && !g.d2
    ensures if a3 then ApplyOne(g.second, x3.1) == Ok((g.third, g.d3)) else g.third == g.second && !g.d3
    ensures if a4 then ApplyOne(g.third, x4.1) == Ok((g.last, g.d4)) else g.last == g.third && !g.d4
  {
    var l1, d1, l2, d2, l3, d3, l4, d4;
    var m1, b1, r1 := ApplyBoth(lines, [x1], If(a2, x2) + (If(a3, x3) + If(a4, x4)));
    l1, d1 := OneRequest(lines, true, x1);
    var m2, b2, r2 := ApplyBoth(l1, If(a2, x2), If(a3, x3) + If(a4, x4));
    l2, d2 := OneRequest(l1, a2, x2);
    var m3, b3, r3 := ApplyBoth(l2, If(a3, x3), If(a4, x4));
    l3, d3 := OneRequest(l2, a3, x3);
    l4, d4 := OneRequest(l3, a4, x4);
    g := Stages(l1, l2, l3, l4, d1, d2, d3, d4);
    forall wanted
      ensures Labels([x1] + (If(a2, x2) + (If(a3, x3) + If(a4, x4))), b1 + (b2 + (b3 + r3)), wanted) ==
        Report(x1.0, true, d1, wanted)
        + (Report(x2.0, a2, d2, wanted) + (Report(x3.0, a3, d3, wanted) + Report(x4.0, a4, d4, wanted)))
    {
      OneReport(true, x1, d1, wanted);
      OneReport(a2, x2, d2, wanted);
      OneReport(a3, x3, d3, wanted);
      OneReport(a4, x4, d4, wanted);
      LabelsJoin([x1], b1, If(a2, x2) + (If(a3, x3) + If(a4, x4)), b2 + (b3 + r3), wanted);
      LabelsJoin(If(a2, x2), b2, If(a3, x3) + If(a4, x4), b3 + r3, wanted);
      LabelsJoin(If(a3, x3), b3, If(a4, x4), r3, wanted);
    }
  }

  // --- What the file has afterwards ---

  /** The project is an item of the sequence the key opens. */
  ghost predicate ItemThere(lines: Lines, anchor: Option<string>, key: string, value: string) {
    exists k: nat :: k < |lines| && Aims(lines, anchor, key, k) && value in BlockItems(lines, k)
  }

  /** The project has an entry in the map the key opens. */
  ghost predicate EntryThere(lines: Lines, key: string, entry: string) {
    exists k: nat :: k < |lines| && Aims(lines, None, key, k) && HasEntry(lines, k, entry)
  }

  lemma SatisfiedThere(lines: Lines, ins: Insertion)
    requires Satisfied(lines, ins)
    ensures match ins
      case SeqItem(key, anchor, value, _) => ItemThere(lines, anchor, key, value)
      case MapItem(key, entry, _, _) => EntryThere(lines, key, entry)
  {
    var k := Target(lines, ins).value;
    TargetAims(lines, ins);
    match ins {
      case SeqItem(_, _, value, _) => PresentItem(lines, k, value);
      case MapItem(_, entry, _, _) => MapPresentIs(lines, k, entry);
    }
  }

  /** The project's name can be read back. */
  predicate ReadableProject(e: OnboardEdit) {
    EntryName(ProjectOf(e)) && '#' !in ProjectOf(e)
  }

  ghost predicate Findable(ins: Insertion) {
    Placeable(ins) && Readable(ins) && (ins.MapItem? ==> ins.entry != "")
  }

  lemma ItemFindable(key: string, anchor: Option<string>, project: string, note: string)
    requires AnchorKey(key) && (anchor.Some? ==> AnchorKey(anchor.value)) && '"' !in project && '#' !in project
    ensures Findable(SeqItem(key, anchor, project, note))
  {
  }

  lemma EntryFindable(key: string, project: string, body: Lines, note: string)
    requires AnchorKey(key) && EntryName(project) && forall b <- body :: BodyText(b)
    ensures Findable(MapItem(key, project, body, note))
  {
  }

  lemma RequestedSteady(e: OnboardEdit)
    requires ReadableProject(e)
    ensures Steady(Insertions(Requested(e)))
  {
    var p := ProjectOf(e);
    PathItemsAreItems(e.protectedPaths);
    BudgetIsBody(e);
    ItemFindable("demand_projects", None, p, e.note);
    ItemFindable("projects", Some("eligible_label"), p, e.note);
    EntryFindable("protected_paths_per_repo", p, PathItems(e.protectedPaths), e.note);
    EntryFindable("per_repo_overrides", p, BudgetBody(e), e.note);
    EachRequested(e, Findable);
  }

  /** What the four parts of an edit write, one after the other. */
  ghost predicate Written(lines: Lines, e: OnboardEdit, g: Stages) {
    var p := ProjectOf(e);
    && (exists k: nat :: ItemStage(lines, g.first, None, "demand_projects", p, e.note, g.d1, k))
    && (if e.intakeIssues
        then exists k: nat :: ItemStage(g.first, g.second, Some("eligible_label"), "projects", p, e.note, g.d2, k)
        else g.second == g.first && !g.d2)
    && (if e.protectedPaths != []
        then exists k: nat, body: Lines ::
               PathLines(body, e.protectedPaths) && EntryStage(g.second, g.third, "protected_paths_per_repo", p, body, e.note, g.d3, k)
        else g.third == g.second && !g.d3)
    && (if e.usd != "" || e.runs != ""
        then exists k: nat, body: Lines ::
               CapLines(body, e.usd, e.runs) && EntryStage(g.third, g.last, "per_repo_overrides", p, body, e.note, g.d4, k)
        else g.last == g.third && !g.d4)
  }

  lemma PathsWritten(before: Lines, e: OnboardEdit, after: Lines, did: bool) returns (k: nat)
    requires ReadableProject(e)
    requires ApplyOne(before, PathsRequest(ProjectOf(e), PathItems(e.protectedPaths), e.note).1) == Ok((after, did))
    ensures PathLines(PathItems(e.protectedPaths), e.protectedPaths)
    ensures EntryStage(before, after, "protected_paths_per_repo", ProjectOf(e), PathItems(e.protectedPaths), e.note, did, k)
  {
    PathsAre(e.protectedPaths);
    PathItemsAreItems(e.protectedPaths);
    k := EntryWritten(before, PathsRequest(ProjectOf(e), PathItems(e.protectedPaths), e.note).1, after, did);
  }

  lemma CapsWritten(before: Lines, e: OnboardEdit, after: Lines, did: bool) returns (k: nat)
    requires ReadableProject(e) && ApplyOne(before, BudgetRequest(ProjectOf(e), BudgetBody(e), e.note).1) == Ok((after, did))
    ensures CapLines(BudgetBody(e), e.usd, e.runs)
    ensures EntryStage(before, after, "per_repo_overrides", ProjectOf(e), BudgetBody(e), e.note, did, k)
  {
    CapsAre(e);
    BudgetIsBody(e);
    k := EntryWritten(before, BudgetRequest(ProjectOf(e), BudgetBody(e), e.note).1, after, did);
  }

  lemma StagesWritten(lines: Lines, e: OnboardEdit) returns (g: Stages)
    requires ReadableProject(e) && ApplyAll(lines, Insertions(Requested(e))).Ok?
    ensures Written(lines, e, g) && ApplyAll(lines, Insertions(Requested(e))).value.0 == g.last
    ensures forall wanted ::
              Labels(Requested(e), ApplyAll(lines, Insertions(Requested(e))).value.1, wanted) == Reported(e, g, wanted)
  {
    g := RunStages(lines, e);
    CapsAre(e);
    var k1 := ItemWritten(lines, DemandRequest(ProjectOf(e), e.note).1, g.first, g.d1);
    if e.intakeIssues {
      var k2 := ItemWritten(g.first, IntakeRequest(ProjectOf(e), e.note).1, g.second, g.d2);
    }
    if e.protectedPaths != [] {
      var k3 := PathsWritten(g.second, e, g.third, g.d3);
    }
    if BudgetBody(e) != [] {
      var k4 := CapsWritten(g.third, e, g.last, g.d4);
    }
  }

  /**
   What an onboarding edit writes, for every policy file it applies to. In this order: the project becomes
   the last item of `demand_projects`; if asked, of the first `projects` behind the first `eligible_label`;
   if paths are given, it gets an entry under `protected_paths_per_repo` with one item for each path; if
   caps are given, one under `per_repo_overrides` with each cap under its own name. A part is left out
   exactly when the project is there already, and the report says so. Afterwards the file has them all.
   */
  lemma OnboardWrites(content: string, e: OnboardEdit) returns (g: Stages)
    requires ReadableProject(e) && Apply(content, e).Ok?
    ensures Written(Split(content), e, g) && Apply(content, e).value == Edited(Join(g.last), Reported(e, g, true), Reported(e, g, false))
    ensures ItemThere(g.last, None, "demand_projects", ProjectOf(e))
    ensures e.intakeIssues ==> ItemThere(g.last, Some("eligible_label"), "projects", ProjectOf(e))
    ensures e.protectedPaths != [] ==> EntryThere(g.last, "protected_paths_per_repo", ProjectOf(e))
    ensures e.usd != "" || e.runs != "" ==> EntryThere(g.last, "per_repo_overrides", ProjectOf(e))
  {
    g := StagesWritten(Split(content), e);
    RequestedSteady(e);
    AllThere(Split(content), e);
  }

  lemma AllThere(lines: Lines, e: OnboardEdit)
    requires ApplyAll(lines, Insertions(Requested(e))).Ok? && Steady(Insertions(Requested(e)))
    ensures var last := ApplyAll(lines, Insertions(Requested(e))).value.0;
      && ItemThere(last, None, "demand_projects", ProjectOf(e))
      && (e.intakeIssues ==> ItemThere(last, Some("eligible_label"), "projects", ProjectOf(e)))
      && (e.protectedPaths != [] ==> EntryThere(last, "protected_paths_per_repo", ProjectOf(e)))
      && (e.usd != "" || e.runs != "" ==> EntryThere(last, "per_repo_overrides", ProjectOf(e)))
  {
    var todo, last, p := Insertions(Requested(e)), ApplyAll(lines, Insertions(Requested(e))).value.0, ProjectOf(e);
    AllSatisfied(lines, todo);
    Asked(e);
    SatisfiedThere(last, DemandRequest(p, e.note).1);
    if e.intakeIssues {
      SatisfiedThere(last, IntakeRequest(p, e.note).1);
    }
    if e.protectedPaths != [] {
      SatisfiedThere(last, PathsRequest(p, PathItems(e.protectedPaths), e.note).1);
    }
    if e.usd != "" || e.runs != "" {
      SatisfiedThere(last, BudgetRequest(p, BudgetBody(e), e.note).1);
    }
  }

  lemma Asked(e: OnboardEdit)
    ensures var todo, p := Insertions(Requested(e)), ProjectOf(e);
      && DemandRequest(p, e.note).1 in todo
      && (e.intakeIssues ==> IntakeRequest(p, e.note).1 in todo)
      && (e.protectedPaths != [] ==> PathsRequest(p, PathItems(e.protectedPaths), e.note).1 in todo)
      && (e.usd != "" || e.runs != "" ==> BudgetRequest(p, BudgetBody(e), e.note).1 in todo)
  {
    InsertionsAt(Requested(e));
    CapsAre(e);
    var all, i := Requested(e), if e.intakeIssues then 1 else 0;
    var q := if e.protectedPaths != [] then 1 else 0;
    assert all[0] == DemandRequest(ProjectOf(e), e.note);
    assert e.intakeIssues ==> all[1] == IntakeRequest(ProjectOf(e), e.note);
    assert e.protectedPaths != [] ==> all[1 + i] == PathsRequest(ProjectOf(e), PathItems(e.protectedPaths), e.note);
    assert BudgetBody(e) != [] ==> all[1 + i + q] == BudgetRequest(ProjectOf(e), BudgetBody(e), e.note);
  }

  // --- When an edit applies ---

  /** The file has the block, and its key line is not an inline list or map. */
  ghost predicate CanTake(lines: Lines, anchor: Option<string>, key: string, inMap: bool) {
    exists k: nat :: k < |lines| && Aims(lines, anchor, key, k) && if inMap then !HasBraces(lines[k]) else '[' !in lines[k]
  }

  lemma AimsAtTarget(lines: Lines, ins: Insertion, k: nat)
    requires Aims(lines, AnchorOf(ins), ins.key, k)
    ensures Target(lines, ins) == Some(k)
  {
    match AnchorOf(ins) {
      case None => FindKeyIs(lines, ins.key, 0, k);
      case Some(a) =>
        var from: nat :| Opens(lines, 0, a, from) && Opens(lines, from, ins.key, k);
        FindKeyIs(lines, a, 0, from);
        FindKeyIs(lines, ins.key, from, k);
    }
  }

  lemma ReadyIsCanTake(lines: Lines, ins: Insertion)
    requires Placeable(ins)
    ensures Ready(lines, 0, ins) <==> CanTake(lines, AnchorOf(ins), ins.key, ins.MapItem?)
  {
    if Ready(lines, 0, ins) {
      TargetAims(lines, ins);
    }
    if CanTake(lines, AnchorOf(ins), ins.key, ins.MapItem?) {
      var k: nat :| k < |lines| && Aims(lines, AnchorOf(ins), ins.key, k)
                    && if ins.MapItem? then !HasBraces(lines[k]) else '[' !in lines[k];
      AimsAtTarget(lines, ins, k);
    }
  }

  lemma OneOfAsked(e: OnboardEdit, ins: Insertion)
    requires ins in Insertions(Requested(e))
    ensures var p := ProjectOf(e);
      || ins == DemandRequest(p, e.note).1
      || (e.intakeIssues && ins == IntakeRequest(p, e.note).1)
      || (e.protectedPaths != [] && ins == PathsRequest(p, PathItems(e.protectedPaths), e.note).1)
      || ((e.usd != "" || e.runs != "") && ins == BudgetRequest(p, BudgetBody(e), e.note).1)
  {
    InsertionsAt(Requested(e));
    CapsAre(e);
  }

  /** The file can take each part the edit asks for. */
  ghost predicate TakesAll(lines: Lines, e: OnboardEdit) {
    && CanTake(lines, None, "demand_projects", false)
    && (e.intakeIssues ==> CanTake(lines, Some("eligible_label"), "projects", false))
    && (e.protectedPaths != [] ==> CanTake(lines, None, "protected_paths_per_repo", true))
    && (e.usd != "" || e.runs != "" ==> CanTake(lines, None, "per_repo_overrides", true))
  }

  lemma AskedReady(lines: Lines, e: OnboardEdit)
    ensures (forall ins <- Insertions(Requested(e)) :: Ready(lines, 0, ins)) <==> TakesAll(lines, e)
  {
    var p := ProjectOf(e);
    Asked(e);
    RequestedPlaceable(e);
    forall ins | ins in Insertions(Requested(e))
      ensures Ready(lines, 0, ins) <==> CanTake(lines, AnchorOf(ins), ins.key, ins.MapItem?)
    {
      ReadyIsCanTake(lines, ins);
    }
    if TakesAll(lines, e) {
      forall ins | ins in Insertions(Requested(e))
        ensures Ready(lines, 0, ins)
      {
        OneOfAsked(e, ins);
      }
    }
  }

  /**
   An onboarding edit applies if and only if the trimmed project is not empty and the file at hand has each
   block it asks for, as a block: the insertions never get into each other's way.
   */
  lemma OnboardAppliesExactly(content: string, e: OnboardEdit)
    ensures Apply(content, e).Ok? <==> ProjectOf(e) != "" && TakesAll(Split(content), e)
  {
    RequestedPlaceable(e);
    AllReadyExactly(Split(content), Insertions(Requested(e)));
    AskedReady(Split(content), e);
  }
}
