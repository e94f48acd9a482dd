/** Which project paths the request handlers accept, and what an accepted path looks like. */
module ProjectPath {
  import opened Basics
  import opened PolicyText
  import opened PolicyEdit

  datatype PathError = PathRequired | GroupRequired | BadSegment(segment: string)

  predicate SegmentChar(c: char) {
    PathStart(c) || c == '.' || c == '_' || c == '-'
  }

  /** `^[a-z0-9][a-z0-9._-]*$` */
  predicate Segment(s: string) {
    s != "" && PathStart(s[0]) && forall c <- s :: SegmentChar(c)
  }

  function Segments(s: string): (r: seq<string>)
    ensures r != []
  {
    if s == "" then [""]
    else if s[0] == '/' then [""] + Segments(s[1..])
    else var rest := Segments(s[1..]); [[s[0]] + rest[0]] + rest[1..]
  }

  function JoinSegments(segs: seq<string>): string {
    if segs == [] then "" else if |segs| == 1 then segs[0] else segs[0] + "/" + JoinSegments(segs[1..])
  }

  function FirstBad(segs: seq<string>): Option<string> {
    if segs == [] then None else if !Segment(segs[0]) then Some(segs[0]) else FirstBad(segs[1..])
  }

  /** validProjectPath: at least group and slug, of safe segments; outer white space and slashes do not count. */
  function ValidProjectPath(p: string): Result<string, PathError> {
    var t := TrimSlash(TrimSpace(p));
    if t == "" then Err(PathRequired)
    else
      var segs := Segments(t);
      if |segs| < 2 then Err(GroupRequired)
      else match FirstBad(segs)
        case Some(s) => Err(BadSegment(s))
        case None => Ok(JoinSegments(segs))
  }

  // --- Accepted paths ---

  lemma {:induction false} JoinsBack(s: string)
    ensures JoinSegments(Segments(s)) == s
  {
    if s != "" {
      JoinsBack(s[1..]);
      var rest := Segments(s[1..]);
      assert s == [s[0]] + s[1..];
      if s[0] == '/' {
        assert ([""] + rest)[1..] == rest && JoinSegments([""] + rest) == "" + "/" + JoinSegments(rest);
      } else {
        JoinHead(s[0], rest);
      }
    }
  }

  lemma JoinHead(c: char, segs: seq<string>)
    requires segs != []
    ensures JoinSegments([[c] + segs[0]] + segs[1..]) == [c] + JoinSegments(segs)
  {
    var longer := [[c] + segs[0]] + segs[1..];
    assert longer[1..] == segs[1..];
    if |segs| > 1 {
      assert ([c] + segs[0]) + "/" + JoinSegments(segs[1..]) == [c] + (segs[0] + "/" + JoinSegments(segs[1..]));
    }
  }

  /** Good segments throughout: plain characters, and no slash at either end. */
  lemma {:induction false} GoodSegments(segs: seq<string>)
    requires segs != [] && FirstBad(segs) == None
    ensures var q := JoinSegments(segs);
      PlainPath(q) && q[|q| - 1] != '/' && (|segs| > 1 ==> '/' in q)
  {
    if |segs| == 1 {
      assert forall c <- segs[0] :: PathChar(c);
      assert segs[0][|segs[0]| - 1] in segs[0] && !SegmentChar('/');
    } else {
      GoodSegments(segs[1..]);
      var q, rest := JoinSegments(segs), JoinSegments(segs[1..]);
      assert q == segs[0] + "/" + rest;
      assert q[|segs[0]|] == '/' && q[0] == segs[0][0] && q[|q| - 1] == rest[|rest| - 1];
      forall c | c in q
        ensures PathChar(c)
      {
        assert c in segs[0] || c == '/' || c in rest;
      }
    }
  }

  lemma PlainIsTrimmed(q: string)
    requires PlainPath(q) && q[|q| - 1] != '/'
    ensures TrimSlash(TrimSpace(q)) == q
  {
    PlainPathReadable(q);
    assert !PathStart('/');
  }

  /**
   What a handler gets: the path without outer white space and slashes, which names a group and a slug in
   plain characters, and which is accepted again as it is.
   */
  lemma AcceptedPath(p: string)
    requires ValidProjectPath(p).Ok?
    ensures var q := ValidProjectPath(p).value;
      && q == TrimSlash(TrimSpace(p)) && PlainPath(q) && '/' in q && q[|q| - 1] != '/'
      && TrimSlash(TrimSpace(q)) == q && ValidProjectPath(q) == Ok(q)
  {
    var t := TrimSlash(TrimSpace(p));
    JoinsBack(t);
    GoodSegments(Segments(t));
    PlainIsTrimmed(t);
  }

  /** So every accepted path can be written into the policy file and found again. */
  lemma AcceptedReadable(p: string)
    requires ValidProjectPath(p).Ok?
    ensures var q := ValidProjectPath(p).value;
      EntryName(q) && '"' !in q && '#' !in q && '\n' !in q && TrimSpace(q) == q
  {
    AcceptedPath(p);
    PlainPathReadable(ValidProjectPath(p).value);
  }

  // --- Exactly the good paths are accepted ---

  ghost predicate Slashes(s: string) {
    forall c <- s :: c == '/'
  }

  lemma OffFront(s: string, a: string, r: string, b: string)
    requires s != "" && s[0] == '/' && s[1..] == a + r + b && Slashes(a)
    ensures s == ("/" + a) + r + b && Slashes("/" + a)
  {
    assert s == "/" + s[1..];
  }

  lemma OffBack(s: string, a: string, r: string, b: string)
    requires s != "" && s[|s| - 1] == '/' && s[..|s| - 1] == a + r + b && Slashes(b)
    ensures s == a + r + (b + "/") && Slashes(b + "/")
  {
    assert s == s[..|s| - 1] + "/";
  }

  /** Trimming takes away slashes, all of them and nothing else, at both ends. */
  lemma {:induction false} TrimSlashMeaning(s: string) returns (a: string, b: string)
    ensures s == a + TrimSlash(s) + b && Slashes(a) && Slashes(b)
    ensures TrimSlash(s) != "" ==> TrimSlash(s)[0] != '/' && TrimSlash(s)[|TrimSlash(s)| - 1] != '/'
    decreases |s|
  {
    if s != "" && s[0] == '/' {
      a, b := TrimSlashMeaning(s[1..]);
      OffFront(s, a, TrimSlash(s), b);
      a := "/" + a;
    } else if s != "" && s[|s| - 1] == '/' {
      a, b := TrimSlashMeaning(s[..|s| - 1]);
      OffBack(s, a, TrimSlash(s), b);
      b := b + "/";
    } else {
      a, b := "", "";
    }
  }

  /** Segments without slashes come back from the path they are joined to. */
  lemma {:induction false} SplitsBack(segs: seq<string>)
    requires segs != [] && forall s <- segs :: '/' !in s
    ensures Segments(JoinSegments(segs)) == segs
  {
    assert segs[0] in segs;
    if |segs| == 1 {
      OnePiece(segs[0], "");
      assert segs == [segs[0]];
    } else {
      SplitsBack(segs[1..]);
      OnePiece(segs[0], JoinSegments(segs[1..]));
      assert segs == [segs[0]] + segs[1..];
    }
  }

  lemma {:induction false} OnePiece(l: string, s: string)
    requires '/' !in l
    ensures Segments(l) == [l] && Segments(l + "/" + s) == [l] + Segments(s)
  {
    if l == "" {
      assert (l + "/" + s)[1..] == s;
    } else {
      OnePiece(l[1..], s);
      assert (l + "/" + s)[1..] == l[1..] + "/" + s;
      assert l == [l[0]] + l[1..];
    }
  }

  lemma {:induction false} NoneBad(segs: seq<string>)
    ensures FirstBad(segs) == None <==> forall s <- segs :: Segment(s)
  {
    if segs != [] {
      NoneBad(segs[1..]);
      assert segs == [segs[0]] + segs[1..];
    }
  }

  /** A path of at least two good segments. */
  ghost predicate GoodPath(t: string, segs: seq<string>) {
    |segs| >= 2 && (forall s <- segs :: Segment(s)) && t == JoinSegments(segs)
  }

  lemma SegmentsHaveNoSlash(segs: seq<string>)
    requires forall s <- segs :: Segment(s)
    ensures forall s <- segs :: '/' !in s
  {
    assert !SegmentChar('/');
  }

  lemma GoodPathAccepted(p: string, segs: seq<string>)
    requires GoodPath(TrimSlash(TrimSpace(p)), segs)
    ensures ValidProjectPath(p) == Ok(TrimSlash(TrimSpace(p)))
  {
    var t := TrimSlash(TrimSpace(p));
    SegmentsHaveNoSlash(segs);
    SplitsBack(segs);
    NoneBad(segs);
    JoinsBack(t);
    assert t != "" by {
      assert Segments("") == [""];
    }
  }

  /** A path is accepted if and only if, trimmed, it is two or more good segments with slashes between them. */
  lemma AcceptedExactly(p: string)
    ensures ValidProjectPath(p).Ok? <==> exists segs: seq<string> :: GoodPath(TrimSlash(TrimSpace(p)), segs)
  {
    var t := TrimSlash(TrimSpace(p));
    if ValidProjectPath(p).Ok? {
      NoneBad(Segments(t));
      JoinsBack(t);
      assert GoodPath(t, Segments(t));
    }
    if segs: seq<string> :| GoodPath(t, segs) {
      GoodPathAccepted(p, segs);
    }
  }
}
