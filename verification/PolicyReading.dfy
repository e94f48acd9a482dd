/** What the line readers of the policy editor accept, told by how a line splits. */
module PolicyReading {
  import opened Basics
  import opened PolicyText

  ghost predicate White(s: string) {
    forall c <- s :: IsSpace(c)
  }

  // --- White space and comments ---

  lemma {:induction false} TrimLeftSplits(s: string)
    ensures |TrimLeft(s)| <= |s| && s[|s| - |TrimLeft(s)|..] == TrimLeft(s) && White(s[..|s| - |TrimLeft(s)|])
    ensures TrimLeft(s) != "" ==> !IsSpace(TrimLeft(s)[0])
  {
    if s != "" && IsSpace(s[0]) {
      TrimLeftSplits(s[1..]);
      assert s[..|s| - |TrimLeft(s)|] == [s[0]] + s[1..][..|s| - 1 - |TrimLeft(s)|];
    }
  }

  lemma {:induction false} TrimRightSplits(s: string)
    ensures White(s[|TrimRight(s)|..])
  {
    if s != "" && IsSpace(s[|s| - 1]) {
      TrimRightSplits(s[..|s| - 1]);
      assert s[|TrimRight(s)|..] == s[..|s| - 1][|TrimRight(s)|..] + [s[|s| - 1]];
    }
  }

  lemma Cut(s: string, t: string, r: string)
    requires |t| <= |s| && s[|s| - |t|..] == t && r <= t
    ensures s == s[..|s| - |t|] + r + t[|r|..]
  {
    assert t == r + t[|r|..];
  }

  /** Trimming takes away white space, all of it and nothing else, at both ends. */
  lemma TrimSpaceMeaning(s: string) returns (a: string, b: string)
    ensures s == a + TrimSpace(s) + b && White(a) && White(b)
    ensures TrimSpace(s) != "" ==> !IsSpace(TrimSpace(s)[0]) && !IsSpace(TrimSpace(s)[|TrimSpace(s)| - 1])
  {
    var t := TrimLeft(s);
    TrimLeftSplits(s);
    TrimRightSplits(t);
    Cut(s, t, TrimRight(t));
    a, b := s[..|s| - |t|], t[|TrimRight(t)|..];
  }

  /** A line is passed over exactly when it is white throughout or its first visible character is a comment mark. */
  lemma SkippedMeaning(s: string)
    ensures Skipped(s) <==> White(s) || exists k :: 0 <= k < |s| && White(s[..k]) && s[k] == '#'
  {
    TrimLeftSplits(s);
    var t := TrimLeft(s);
    var n := |s| - |t|;
    if t == "" {
      assert s[..n] == s;
      assert TrimSpace(s) == "";
    } else {
      TrimRightKeeps(t);
      assert s[n] == t[0];
      if k :| 0 <= k < |s| && White(s[..k]) && s[k] == '#' {
        FirstVisible(s, n, k);
      }
      assert !White(s);
    }
  }

  lemma FirstVisible(s: string, n: nat, k: nat)
    requires n < |s| && k < |s| && White(s[..n]) && White(s[..k]) && !IsSpace(s[n]) && !IsSpace(s[k])
    ensures n == k
  {
    assert forall i | 0 <= i < n :: s[..n][i] == s[i];
    assert forall i | 0 <= i < k :: s[..k][i] == s[i];
  }

  lemma {:induction false} IndentMeaning(s: string)
    ensures Indent(s) <= |s| && (forall i | 0 <= i < Indent(s) :: s[i] == ' ') && (Indent(s) < |s| ==> s[Indent(s)] != ' ')
  {
    if s != "" && s[0] == ' ' {
      IndentMeaning(s[1..]);
    }
  }

  // --- Sequence items ---

  /** `k` blanks, a dash, blanks up to `m` and at least one, and then something that is not blank, or nothing. */
  ghost predicate DashAt(line: string, k: int, m: int) {
    && 0 <= k && k + 1 < m <= |line| && Blank(line[..k]) && line[k] == '-' && Blank(line[k + 1..m])
    && (m == |line| || !ReSpace(line[m]))
  }

  /** A line is an item exactly when it splits like that; its value is the item text of what is left. */
  lemma ItemValueMeaning(line: string, v: string)
    ensures ItemValue(line) == Some(v) <==> exists k, m :: DashAt(line, k, m) && v == ItemText(line[m..])
  {
    if ItemValue(line) == Some(v) {
      var k, m := DashFound(line);
    }
    if k, m :| DashAt(line, k, m) && v == ItemText(line[m..]) {
      DashRead(line, k, m);
    }
  }

  lemma DashFound(line: string) returns (k: int, m: int)
    requires ItemValue(line).Some?
    ensures DashAt(line, k, m) && ItemValue(line) == Some(ItemText(line[m..]))
  {
    SkipReSplits(line);
    var t := SkipRe(line);
    SkipReSplits(t[1..]);
    var u := SkipRe(t[1..]);
    k, m := |line| - |t|, |line| - |u|;
    assert line[k..] == t && line[k + 1..] == t[1..];
    assert line[k + 1..m] == t[1..][..|t| - 1 - |u|];
    assert line[m..] == t[1..][|t| - 1 - |u|..];
    assert |u| < |t| - 1;
  }

  lemma DashRead(line: string, k: int, m: int)
    requires DashAt(line, k, m)
    ensures ItemValue(line) == Some(ItemText(line[m..]))
  {
    SkipReIs(line, k);
    var t := line[k..];
    assert t[1] == line[k + 1..m][0];
    assert t[1..][..m - k - 1] == line[k + 1..m] && t[1..][m - k - 1..] == line[m..];
    SkipReIs(t[1..], m - k - 1);
  }

  /** A value between two like quotes loses them; any other is only trimmed. */
  lemma UnquoteMeaning(v: string)
    ensures Unquote("\"" + v + "\"") == v && Unquote("'" + v + "'") == v
    ensures var t := TrimSpace(v);
      |t| < 2 || t[0] != t[|t| - 1] || t[0] !in {'"', '\''} ==> Unquote(v) == t
  {
    QuotedTrims('"', v);
    QuotedTrims('\'', v);
  }

  lemma QuotedTrims(q: char, v: string)
    requires q == '"' || q == '\''
    ensures TrimSpace([q] + v + [q]) == [q] + v + [q] && ([q] + v + [q])[1..|v| + 1] == v
  {
  }

  // --- Map entries ---

  ghost predicate MaybeQuote(s: string) {
    s == "" || s == "\""
  }

  /** Blanks, perhaps a quote, the name, perhaps a quote, a colon, and then a trailer. */
  ghost predicate KeyAt(line: string, k: int, a: string, g: string, b: string) {
    && 0 <= k <= |line| && Blank(line[..k]) && MaybeQuote(a) && MaybeQuote(b)
    && g != "" && g[0] != '#' && !ReSpace((a + g)[0]) && ':' !in g && '"' !in g
    && a + g + b + ":" <= line[k..] && Trailer(line[k..][|a + g + b + ":"|..])
  }

  /** A line opens an entry exactly when it splits like that; its name is the part between the quotes. */
  lemma MapKeyMeaning(line: string, g: string)
    ensures MapKey(line) == Some(g) <==> exists k, a, b :: KeyAt(line, k, a, g, b)
  {
    if MapKey(line) == Some(g) {
      var k, a, b := KeyFound(line);
    }
    if k, a, b :| KeyAt(line, k, a, g, b) {
      KeyRead(line, k, a, g, b);
    }
  }

  function QuoteOf(s: string): string {
    if s != "" && s[0] == '"' then "\"" else ""
  }

  lemma DropQuoteSplits(s: string)
    ensures s == QuoteOf(s) + DropQuote(s)
  {
  }

  lemma Assembles(t: string, a: string, u: string, g: string, w: string, b: string, rest: string)
    requires t == a + u && u == g + w && w == b + (":" + rest)
    ensures a + g + b + ":" <= t && t[|a + g + b + ":"|..] == rest && (g != "" ==> t[0] == (a + g)[0])
  {
    assert t == (a + g + b + ":") + rest;
  }

  lemma ColonFirst(w: string)
    requires w != "" && w[0] == ':'
    ensures w == ":" + w[1..]
  {
  }

  /** The text behind the blanks, taken apart. */
  lemma NameFound(t: string, g: string) returns (a: string, b: string)
    requires g == KeyRun(DropQuote(t)) && g != ""
    requires DropQuote(DropQuote(t)[|g|..]) != "" && DropQuote(DropQuote(t)[|g|..])[0] == ':'
    ensures MaybeQuote(a) && MaybeQuote(b) && ':' !in g && '"' !in g
    ensures a + g + b + ":" <= t && t[|a + g + b + ":"|..] == DropQuote(DropQuote(t)[|g|..])[1..] && t[0] == (a + g)[0]
  {
    var u := DropQuote(t);
    var w := u[|g|..];
    a, b := QuoteOf(t), QuoteOf(w);
    DropQuoteSplits(t);
    DropQuoteSplits(w);
    KeyRunClean(u);
    ColonFirst(DropQuote(w));
    Assembles(t, a, u, g, w, b, DropQuote(w)[1..]);
  }

  lemma KeyFound(line: string) returns (k: int, a: string, b: string)
    requires MapKey(line).Some?
    ensures KeyAt(line, k, a, MapKey(line).value, b)
  {
    SkipReSplits(line);
    k := |line| - |SkipRe(line)|;
    a, b := NameFound(SkipRe(line), MapKey(line).value);
  }

  lemma KeyRead(line: string, k: int, a: string, g: string, b: string)
    requires KeyAt(line, k, a, g, b)
    ensures MapKey(line) == Some(g)
  {
    var t := line[k..];
    var rest := t[|a + g + b + ":"|..];
    assert t == a + (g + (b + (":" + rest)));
    assert t[0] == (a + g)[0] == line[k];
    SkipReIs(line, k);
    assert DropQuote(t) == g + (b + (":" + rest)) by {
      assert a == "" ==> t[0] == g[0];
    }
    var w := b + (":" + rest);
    assert w[0] == ':' || w[0] == '"';
    KeyRunWhole(g, w);
    assert (g + w)[|g|..] == w;
    assert DropQuote(w) == ":" + rest && (":" + rest)[1..] == rest;
  }
}
