/**
 The string level of the policy editor: white space, quoting, and how one line of the policy file is
 read as a key, a sequence item or a map entry. The four line readers state the editor's regular
 expressions as functions; a line never contains a newline.
 */
module PolicyText {
  import opened Basics

  /** unicode.IsSpace, what strings.TrimSpace removes. */
  predicate IsSpace(c: char) {
    || c == ' ' || '\t' <= c <= '\r' || c == '\U{0085}' || c == '\U{00a0}' || c == '\U{1680}'
    || '\U{2000}' <= c <= '\U{200a}' || c == '\U{2028}' || c == '\U{2029}' || c == '\U{202f}' || c == '\U{205f}' || c == '\U{3000}'
  }

  /** The regular expression class \s. */
  predicate ReSpace(c: char) {
    c == ' ' || c == '\t' || c == '\n' || c == '\U{000c}' || c == '\r'
  }

  function TrimLeft(s: string): string {
    if s != "" && IsSpace(s[0]) then TrimLeft(s[1..]) else s
  }

  function TrimRight(s: string): (r: string)
    ensures r <= s && (r != "" ==> !IsSpace(r[|r| - 1]))
  {
    if s != "" && IsSpace(s[|s| - 1]) then TrimRight(s[..|s| - 1]) else s
  }

  function TrimSpace(s: string): string {
    TrimRight(TrimLeft(s))
  }

  function SkipRe(s: string): string {
    if s != "" && ReSpace(s[0]) then SkipRe(s[1..]) else s
  }

  function Spaces(n: nat): (r: string)
    ensures |r| == n && forall c <- r :: c == ' '
  {
    if n == 0 then "" else " " + Spaces(n - 1)
  }

  /** indentOf: the number of leading blanks. */
  function Indent(s: string): nat {
    if s != "" && s[0] == ' ' then 1 + Indent(s[1..]) else 0
  }

  /** isBlankOrComment. */
  predicate Skipped(s: string) {
    TrimSpace(s) == "" || TrimSpace(s)[0] == '#'
  }

  // --- The line readers ---

  /** `^\s*key:(\s.*)?$` */
  predicate OpensKey(line: string, key: string) {
    var t := SkipRe(line);
    key + ":" <= t && (|t| == |key| + 1 || ReSpace(t[|key| + 1]))
  }

  /** Nothing but white space and perhaps a comment: `\s*(#.*)?$`. */
  predicate Trailer(s: string) {
    SkipRe(s) == "" || SkipRe(s)[0] == '#'
  }

  /** The shortest prefix after which only a trailer is left. */
  function ItemText(s: string): string {
    if Trailer(s) then "" else [s[0]] + ItemText(s[1..])
  }

  /** `^\s*-\s+(.*?)\s*(#.*)?$`, the captured value. */
  function ItemValue(line: string): Option<string> {
    var t := SkipRe(line);
    if |t| >= 2 && t[0] == '-' && ReSpace(t[1]) then Some(ItemText(SkipRe(t[1..]))) else None
  }

  /** The longest prefix without a colon or a quote. */
  function KeyRun(s: string): (r: string)
    ensures r <= s
  {
    if s == "" || s[0] == ':' || s[0] == '"' then "" else [s[0]] + KeyRun(s[1..])
  }

  function DropQuote(s: string): string {
    if s != "" && s[0] == '"' then s[1..] else s
  }

  /** `^\s*("?)([^"#:][^:"]*)("?):\s*(#.*)?$`, the captured name, on a line that is neither blank nor a comment. */
  function MapKey(line: string): Option<string> {
    var u := DropQuote(SkipRe(line));
    var g := KeyRun(u);
    var w := DropQuote(u[|g|..]);
    if g != "" && g[0] != '#' && w != "" && w[0] == ':' && Trailer(w[1..]) then Some(g) else None
  }

  // --- The readers against the expressions they stand for ---

  ghost predicate Blank(s: string) {
    forall c <- s :: ReSpace(c)
  }

  lemma {:induction false} SkipReSplits(s: string)
    ensures |SkipRe(s)| <= |s| && s[|s| - |SkipRe(s)|..] == SkipRe(s) && Blank(s[..|s| - |SkipRe(s)|])
    ensures SkipRe(s) != "" ==> !ReSpace(SkipRe(s)[0])
  {
    if s != "" && ReSpace(s[0]) {
      SkipReSplits(s[1..]);
      assert s[..|s| - |SkipRe(s)|] == [s[0]] + s[1..][..|s| - 1 - |SkipRe(s)|];
    }
  }

  lemma {:induction false} SkipReIs(s: string, k: nat)
    requires k <= |s| && Blank(s[..k]) && (k == |s| || !ReSpace(s[k]))
    ensures SkipRe(s) == s[k..]
  {
    if k > 0 {
      assert ReSpace(s[..k][0]) && s[1..][..k - 1] == s[..k][1..];
      SkipReIs(s[1..], k - 1);
    }
  }

  /** The key reader accepts a line exactly when the line splits as blanks, key, colon, and then nothing or a blank. */
  lemma OpensKeyMeaning(line: string, key: string)
    requires key != "" && !ReSpace(key[0])
    ensures OpensKey(line, key) <==>
      exists k :: 0 <= k <= |line| && Blank(line[..k]) && key + ":" <= line[k..]
                  && (|line[k..]| == |key| + 1 || ReSpace(line[k..][|key| + 1]))
  {
    SkipReSplits(line);
    if k :| 0 <= k <= |line| && Blank(line[..k]) && key + ":" <= line[k..]
            && (|line[k..]| == |key| + 1 || ReSpace(line[k..][|key| + 1])) {
      assert line[k] == (key + ":")[0] == key[0];
      SkipReIs(line, k);
    }
    if OpensKey(line, key) {
      var k := |line| - |SkipRe(line)|;
      assert line[k..] == SkipRe(line);
    }
  }

  lemma TrailerMeaning(s: string)
    ensures Trailer(s) <==> exists k :: 0 <= k <= |s| && Blank(s[..k]) && (k == |s| || s[k] == '#')
  {
    SkipReSplits(s);
    if k :| 0 <= k <= |s| && Blank(s[..k]) && (k == |s| || s[k] == '#') {
      SkipReIs(s, k);
    }
    if Trailer(s) {
      var k := |s| - |SkipRe(s)|;
      assert s[k..] == SkipRe(s);
    }
  }

  /** The item reader captures the shortest prefix after which only a trailer is left. */
  lemma {:induction false} ItemTextShortest(s: string)
    ensures ItemText(s) <= s && Trailer(s[|ItemText(s)|..])
    ensures forall k | 0 <= k < |ItemText(s)| :: !Trailer(s[k..])
  {
    if !Trailer(s) {
      ItemTextShortest(s[1..]);
      forall k | 0 <= k < |ItemText(s)|
        ensures !Trailer(s[k..])
      {
        assert k > 0 ==> s[k..] == s[1..][k - 1..];
      }
    }
  }

  // --- Quoting ---

  function Escape(s: string): string {
    if s == "" then "" else (if s[0] == '"' then "\\\"" else [s[0]]) + Escape(s[1..])
  }

  function Quote(s: string): string {
    "\"" + Escape(s) + "\""
  }

  function Unquote(s: string): string {
    var t := TrimSpace(s);
    if |t| >= 2 && ((t[0] == '"' && t[|t| - 1] == '"') || (t[0] == '\'' && t[|t| - 1] == '\''))
    then t[1..|t| - 1] else t
  }

  /** The line is a sequence item whose value is `value`. */
  predicate ItemIs(line: string, value: string) {
    ItemValue(line).Some? && Unquote(ItemValue(line).value) == value
  }

  /** The line opens the map entry `entry`. */
  predicate EntryIs(line: string, entry: string) {
    MapKey(line).Some? && TrimSpace(MapKey(line).value) == entry
  }

  // --- Padding ---

  /** A text that starts with a visible character. */
  ghost predicate Visible(s: string) {
    s != "" && !IsSpace(s[0])
  }

  lemma {:induction false} PadIndent(n: nat, s: string)
    requires Visible(s)
    ensures Indent(Spaces(n) + s) == n && SkipRe(Spaces(n) + s) == s && TrimLeft(Spaces(n) + s) == s
  {
    if n == 0 {
      assert Spaces(0) + s == s;
    } else {
      PadIndent(n - 1, s);
      assert (Spaces(n) + s)[1..] == Spaces(n - 1) + s;
    }
  }

  lemma {:induction false} TrimRightKeeps(s: string)
    requires Visible(s)
    ensures TrimRight(s) != "" && TrimRight(s)[0] == s[0]
  {
    if |s| > 1 && IsSpace(s[|s| - 1]) {
      TrimRightKeeps(s[..|s| - 1]);
    }
  }

  lemma PadSkipped(n: nat, s: string)
    requires Visible(s)
    ensures Skipped(Spaces(n) + s) <==> s[0] == '#'
  {
    PadIndent(n, s);
    TrimRightKeeps(s);
  }

  /** A padded line opens no key that starts with another character. */
  lemma PadOpensNoKey(n: nat, s: string, key: string)
    requires Visible(s) && key != "" && key[0] != s[0]
    ensures !OpensKey(Spaces(n) + s, key)
  {
    PadIndent(n, s);
  }

  /** Key lines are visible: they are never skipped as blank or comment. */
  lemma KeyLineVisible(line: string, key: string)
    requires OpensKey(line, key) && key != "" && !IsSpace(key[0]) && key[0] != '#'
    ensures !Skipped(line)
  {
    SkipReTrims(line);
    assert (key + ":")[0] == key[0];
    TrimRightKeeps(SkipRe(line));
  }

  lemma {:induction false} SkipReTrims(s: string)
    ensures SkipRe(s) != "" && !IsSpace(SkipRe(s)[0]) ==> TrimLeft(s) == SkipRe(s)
  {
    if s != "" && ReSpace(s[0]) {
      SkipReTrims(s[1..]);
    }
  }

  lemma ItemLineVisible(line: string)
    requires ItemValue(line).Some?
    ensures !Skipped(line)
  {
    SkipReTrims(line);
    TrimRightKeeps(SkipRe(line));
  }

  // --- Reading back what was written ---

  lemma {:induction false} EscapePlain(s: string)
    ensures |Escape(s)| >= |s|
    ensures '"' !in s ==> Escape(s) == s
    ensures '"' in s ==> |Escape(s)| > |s|
    ensures '#' in s <==> '#' in Escape(s)
  {
    if s != "" {
      EscapePlain(s[1..]);
      assert s == [s[0]] + s[1..];
    }
  }

  /** A text ending in a quote with no comment mark in it is read whole. */
  lemma {:induction false} ItemTextWhole(s: string)
    requires s != "" && s[|s| - 1] == '"' && '#' !in s
    ensures ItemText(s) == s
  {
    NoTrailer(s);
    if |s| > 1 {
      ItemTextWhole(s[1..]);
    } else {
      assert ItemText(s[1..]) == "";
    }
  }

  lemma {:induction false} NoTrailer(s: string)
    requires s != "" && s[|s| - 1] == '"' && '#' !in s
    ensures !Trailer(s)
  {
    if ReSpace(s[0]) {
      NoTrailer(s[1..]);
    }
  }

  /** The reader never sees past a comment mark. */
  lemma {:induction false} ItemTextNoMark(s: string)
    ensures '#' !in ItemText(s)
  {
    if !Trailer(s) {
      ItemTextNoMark(s[1..]);
    }
  }

  lemma {:induction false} TrimSubset(s: string, c: char)
    requires c !in s
    ensures c !in TrimSpace(s)
  {
    TrimLeftSubset(s, c);
  }

  lemma {:induction false} TrimLeftSubset(s: string, c: char)
    requires c !in s
    ensures c !in TrimLeft(s)
  {
    if s != "" && IsSpace(s[0]) {
      TrimLeftSubset(s[1..], c);
    }
  }

  /**
   An item written by the editor reads back as its own value exactly when the value holds neither a
   double quote nor a comment mark.
   */
  lemma ItemReadsBack(n: nat, value: string)
    ensures ItemIs(Spaces(n) + "- " + Quote(value), value) <==> '"' !in value && '#' !in value
  {
    WrittenItem(n, value);
    EscapePlain(value);
    if '#' in value {
      ItemTextNoMark(Quote(value));
      TrimSubset(ItemText(Quote(value)), '#');
      UnquoteSubset(ItemText(Quote(value)), '#');
    } else {
      ItemTextWhole(Quote(value));
      UnquoteQuote(value);
    }
  }

  lemma WrittenItem(n: nat, value: string)
    ensures ItemValue(Spaces(n) + "- " + Quote(value)) == Some(ItemText(Quote(value)))
  {
    var q := Quote(value);
    assert Spaces(n) + "- " + q == Spaces(n) + ("- " + q);
    PadIndent(n, "- " + q);
    DashItem(q);
  }

  lemma DashItem(q: string)
    requires Visible(q)
    ensures ("- " + q)[1] == ' ' && SkipRe(("- " + q)[1..]) == q
  {
    assert ("- " + q)[1..] == " " + q && (" " + q)[1..] == q;
  }

  lemma UnquoteQuote(value: string)
    ensures Unquote(Quote(value)) == Escape(value)
  {
    var q := Quote(value);
    assert TrimSpace(q) == q;
    assert q[1..|q| - 1] == Escape(value);
  }

  lemma UnquoteSubset(s: string, c: char)
    requires c !in TrimSpace(s)
    ensures c !in Unquote(s)
  {
  }

  lemma {:induction false} KeyRunWhole(s: string, rest: string)
    requires ':' !in s && '"' !in s && rest != "" && (rest[0] == ':' || rest[0] == '"')
    ensures KeyRun(s + rest) == s
  {
    if s == "" {
      assert s + rest == rest;
    } else {
      assert (s + rest)[1..] == s[1..] + rest;
      KeyRunWhole(s[1..], rest);
    }
  }

  lemma {:induction false} KeyRunClean(s: string)
    ensures ':' !in KeyRun(s) && '"' !in KeyRun(s)
  {
    if s != "" && s[0] != ':' && s[0] != '"' {
      KeyRunClean(s[1..]);
    }
  }

  /** The names an entry can have and be found again by. */
  predicate EntryName(e: string) {
    e != "" && TrimSpace(e) == e && e[0] != '#' && ':' !in e && '"' !in e
  }

  lemma EntryLineKey(n: nat, entry: string)
    ensures MapKey(Spaces(n) + Quote(entry) + ":") ==
      (var u := Escape(entry) + "\":"; var g := KeyRun(u); var w := DropQuote(u[|g|..]);
       if g != "" && g[0] != '#' && w != "" && w[0] == ':' && Trailer(w[1..]) then Some(g) else None)
  {
    EntryLineStart(n, entry);
  }

  lemma EntryLineStart(n: nat, entry: string)
    ensures DropQuote(SkipRe(Spaces(n) + Quote(entry) + ":")) == Escape(entry) + "\":"
  {
    var q := Quote(entry) + ":";
    assert Spaces(n) + Quote(entry) + ":" == Spaces(n) + q;
    PadIndent(n, q);
    assert q[1..] == Escape(entry) + "\":";
  }

  /** An entry written by the editor is found again exactly when its name is an entry name. */
  lemma EntryReadsBack(n: nat, entry: string)
    requires entry != ""
    ensures EntryIs(Spaces(n) + Quote(entry) + ":", entry) <==> EntryName(entry)
  {
    EntryLineKey(n, entry);
    EscapePlain(entry);
    var u := Escape(entry) + "\":";
    var g := KeyRun(u);
    KeyRunClean(u);
    if '"' !in entry && ':' !in entry {
      KeyRunWhole(entry, "\":");
      assert u[|g|..] == "\":" && DropQuote("\":") == ":" && ":"[1..] == "";
    } else {
      TrimSubset(g, ':');
      TrimSubset(g, '"');
    }
  }

  // --- Project paths ---

  predicate PathStart(c: char) {
    'a' <= c <= 'z' || '0' <= c <= '9'
  }

  predicate PathChar(c: char) {
    PathStart(c) || c == '.' || c == '_' || c == '-' || c == '/'
  }

  /** Safe characters, beginning and ending outside white space. */
  predicate PlainPath(p: string) {
    p != "" && PathStart(p[0]) && forall c <- p :: PathChar(c)
  }

  lemma PlainPathReadable(p: string)
    requires PlainPath(p)
    ensures EntryName(p) && '"' !in p && '#' !in p && '\n' !in p && TrimSpace(p) == p
  {
    assert !IsSpace(p[|p| - 1]) by {
      assert PathChar(p[|p| - 1]);
    }
    assert !PathChar('"') && !PathChar('#') && !PathChar('\n') && !PathChar(':');
  }
}
