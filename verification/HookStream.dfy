/**
 The merge-request hook over a whole session: only requests that need attention count, and a set is injected
 only when it differs from the last one seen for the branch and vendor.
 */
module HookStream {
  import opened Basics
  import opened PolicyText
  import opened TextOrder

  datatype Mr = Mr(repo: string, iid: nat, state: string, reason: string, url: string)

  const ATTENTION := {"conflict", "ci_failed_flaky", "ci_failed_deterministic", "automerge_unarmed", "pipeline_skipped", "stale_branch"}

  predicate NeedsAttention(mr: Mr) {
    mr.state in ATTENTION
  }

  function Attention(mrs: seq<Mr>): seq<Mr> {
    if mrs == [] then [] else (if NeedsAttention(mrs[0]) then [mrs[0]] else []) + Attention(mrs[1..])
  }

  /** The attention set keeps every request in an attention state, as often as it was there, and nothing else. */
  lemma {:induction false} AttentionMeaning(mrs: seq<Mr>, m: Mr)
    ensures multiset(Attention(mrs))[m] == if m.state in ATTENTION then multiset(mrs)[m] else 0
  {
    if mrs != [] {
      AttentionMeaning(mrs[1..], m);
      assert mrs == [mrs[0]] + mrs[1..];
    }
  }

  /** Sorted by repository, then by number. */
  predicate Less(a: Mr, b: Mr) {
    if a.repo != b.repo then Before(a.repo, b.repo) else a.iid < b.iid
  }

  /** What the sort of a list may return: an ordered arrangement of it. */
  ghost predicate SortOf(sorted: seq<Mr>, mrs: seq<Mr>) {
    multiset(sorted) == multiset(mrs) && Ordered(sorted, Less)
  }

  /** Sorting keeps the requests and puts them by repository, and within one by number. */
  lemma SortedMeaning(sorted: seq<Mr>, mrs: seq<Mr>, i: nat, j: nat)
    requires SortOf(sorted, mrs) && i < j < |sorted|
    ensures multiset(sorted) == multiset(mrs)
    ensures if sorted[i].repo == sorted[j].repo then sorted[i].iid <= sorted[j].iid else Before(sorted[i].repo, sorted[j].repo)
  {
    BeforeTotal(sorted[i].repo, sorted[j].repo);
    assert !Less(sorted[j], sorted[i]);
  }

  // --- The fingerprint ---

  function Line(mr: Mr): string {
    mr.repo + "|" + Digits(mr.iid) + "|" + mr.state + "|" + mr.reason + "|" + mr.url + "\n"
  }

  function Text(mrs: seq<Mr>): string {
    if mrs == [] then "" else Line(mrs[0]) + Text(mrs[1..])
  }

  /** The separators occur in none of the fields they end. */
  predicate Clean(mr: Mr) {
    '|' !in mr.repo && '|' !in mr.state && '|' !in mr.reason && '\n' !in mr.url
  }

  ghost predicate AllClean(mrs: seq<Mr>) {
    forall mr <- mrs :: Clean(mr)
  }

  /** The line, taken apart at its separators. */
  lemma LineParts(m: Mr, x: string) returns (url: string, reason: string, state: string, number: string)
    ensures url == m.url + "\n" + x && reason == m.reason + "|" + url && state == m.state + "|" + reason
    ensures number == Digits(m.iid) + "|" + state && Line(m) + x == m.repo + "|" + number
  {
    url := m.url + "\n" + x;
    reason := m.reason + "|" + url;
    state := m.state + "|" + reason;
    number := Digits(m.iid) + "|" + state;
  }

  lemma LineThen(m: Mr, n: Mr, x: string, y: string)
    requires Clean(m) && Clean(n) && Line(m) + x == Line(n) + y
    ensures m == n && x == y
  {
    var url, reason, state, number := LineParts(m, x);
    var url', reason', state', number' := LineParts(n, y);
    SameUpTo('|', m.repo, n.repo, number, number');
    SameUpTo('|', Digits(m.iid), Digits(n.iid), state, state');
    DigitsInjective(m.iid, n.iid);
    SameUpTo('|', m.state, n.state, reason, reason');
    SameUpTo('|', m.reason, n.reason, url, url');
    SameUpTo('\n', m.url, n.url, x, y);
  }

  /** The text behind the fingerprint determines the list. */
  lemma {:induction false} TextInjective(a: seq<Mr>, b: seq<Mr>)
    requires AllClean(a) && AllClean(b) && Text(a) == Text(b)
    ensures a == b
  {
    if a != [] && b != [] {
      assert a[0] in a && b[0] in b;
      LineThen(a[0], b[0], Text(a[1..]), Text(b[1..]));
      TextInjective(a[1..], b[1..]);
      assert a == [a[0]] + a[1..] && b == [b[0]] + b[1..];
    }
  }

  /** Without that condition two different sets can share one text, and so one fingerprint. */
  lemma SeparatorsMatter()
    ensures var a := Mr("r", 1, "conflict", "x|y", "z"); var b := Mr("r", 1, "conflict", "x", "y|z");
      a != b && Text([a]) == Text([b])
  {
    assert "x|y" + "|" + "z" + "\n" == "x" + "|" + "y|z" + "\n";
    assert Line(Mr("r", 1, "conflict", "x|y", "z")) == "r" + "|" + Digits(1) + "|" + "conflict" + "|" + ("x|y" + "|" + "z" + "\n");
    assert Line(Mr("r", 1, "conflict", "x", "y|z")) == "r" + "|" + Digits(1) + "|" + "conflict" + "|" + ("x" + "|" + "y|z" + "\n");
  }

  // --- The order of the input does not matter ---

  /** No two requests of the list share repository and number. */
  ghost predicate DistinctKeys(m: multiset<Mr>) {
    forall x, y | x in m && y in m && x != y :: x.repo != y.repo || x.iid != y.iid
  }

  lemma LessDecides(m: multiset<Mr>)
    requires DistinctKeys(m)
    ensures Decides(m, Less)
  {
    forall x, y | x in m && y in m
      ensures x != y ==> Less(x, y) || Less(y, x)
      ensures !(Less(x, y) && Less(y, x))
    {
      BeforeTotal(x.repo, y.repo);
    }
  }

  /** With distinct keys the same set in any order sorts to the same list, and so has the same fingerprint. */
  lemma OrderIndependent(a: seq<Mr>, b: seq<Mr>, sortedA: seq<Mr>, sortedB: seq<Mr>)
    requires multiset(a) == multiset(b) && DistinctKeys(multiset(a)) && SortOf(sortedA, a) && SortOf(sortedB, b)
    ensures sortedA == sortedB
  {
    LessDecides(multiset(a));
    OrderedUnique(sortedA, sortedB, Less);
  }

  // --- The gate ---

  /** Cache after the call, and whether the set counts as changed. */
  function Gate(hash: string -> string, cache: Option<string>, sorted: seq<Mr>): (Option<string>, bool) {
    var fresh' := hash(Text(sorted));
    if cache == Some(fresh') then (cache, false) else (Some(fresh'), true)
  }

  function BriefLine(mr: Mr): string {
    "!" + Digits(mr.iid) + " " + mr.state + " " + (if TrimSpace(mr.reason) == "" then "-" else mr.reason) + " " + mr.url + "\n"
  }

  function Brief(sorted: seq<Mr>): string {
    if sorted == [] then "" else BriefLine(sorted[0]) + Brief(sorted[1..])
  }

  /** One line: number, state, reason or a dash, and address. */
  predicate LineFor(line: string, mr: Mr) {
    var reason := if TrimSpace(mr.reason) == "" then "-" else mr.reason;
    line == "!" + Digits(mr.iid) + " " + mr.state + " " + reason + " " + mr.url + "\n"
  }

  /** The brief is empty for no requests, and has one line more at its end for one request more. */
  lemma BriefLists(sorted: seq<Mr>, mr: Mr) returns (line: string)
    ensures Brief([]) == "" && LineFor(line, mr) && Brief(sorted + [mr]) == Brief(sorted) + line
  {
    line := BriefLine(mr);
    BriefMore(sorted, mr);
  }

  lemma {:induction false} BriefMore(sorted: seq<Mr>, mr: Mr)
    ensures Brief(sorted + [mr]) == Brief(sorted) + BriefLine(mr)
  {
    if sorted == [] {
      assert [] + [mr] == [mr] && [mr][1..] == [];
    } else {
      assert (sorted + [mr])[1..] == sorted[1..] + [mr];
      BriefMore(sorted[1..], mr);
      Regroup(BriefLine(sorted[0]), Brief(sorted[1..]), BriefLine(mr));
    }
  }

  lemma Regroup(a: string, b: string, c: string)
    ensures a + (b + c) == (a + b) + c
  {
  }

  /** The brief is blank only when there is nothing to report. */
  lemma BriefBlank(sorted: seq<Mr>)
    ensures TrimSpace(Brief(sorted)) == "" <==> sorted == []
  {
    if sorted != [] {
      assert Brief(sorted)[0] == '!';
      assert TrimLeft(Brief(sorted)) == Brief(sorted);
      TrimRightKeeps(Brief(sorted));
    }
  }

  /** One call of the hook for a known vendor: the new cache and whether it injected anything. */
  function Call(hash: string -> string, cache: Option<string>, sorted: seq<Mr>): (Option<string>, bool) {
    var (next, changed) := Gate(hash, cache, sorted);
    (next, changed && TrimSpace(Brief(sorted)) != "")
  }

  /** A session: `views` are the registry's answers, `sorted` their sorted attention lists, starting without a cache. */
  ghost predicate Session(hash: string -> string, views: seq<seq<Mr>>, sorted: seq<seq<Mr>>,
                          caches: seq<Option<string>>, emits: seq<bool>) {
    && |sorted| == |views| && |emits| == |views| && |caches| == |views| + 1 && caches[0] == None
    && (forall n | 0 <= n < |views| :: SortOf(sorted[n], Attention(views[n])))
    && (forall n | 0 <= n < |views| :: (caches[n + 1], emits[n]) == Call(hash, caches[n], sorted[n]))
  }

  ghost predicate NoCollision(hash: string -> string, sorted: seq<seq<Mr>>) {
    forall i, j | 0 <= i < |sorted| && 0 <= j < |sorted| ::
      hash(Text(sorted[i])) == hash(Text(sorted[j])) ==> Text(sorted[i]) == Text(sorted[j])
  }

  /** The hook injects at call n exactly when something needs attention and its text differs from the call before. */
  lemma EmitsOnTextChange(hash: string -> string, views: seq<seq<Mr>>, sorted: seq<seq<Mr>>,
                          caches: seq<Option<string>>, emits: seq<bool>, n: nat)
    requires Session(hash, views, sorted, caches, emits) && NoCollision(hash, sorted) && n < |views|
    ensures emits[n] <==> sorted[n] != [] && (n == 0 || Text(sorted[n]) != Text(sorted[n - 1]))
  {
    BriefBlank(sorted[n]);
    assert (caches[n + 1], emits[n]) == Call(hash, caches[n], sorted[n]);
    if n > 0 {
      assert (caches[n], emits[n - 1]) == Call(hash, caches[n - 1], sorted[n - 1]);
      assert caches[n] == Some(hash(Text(sorted[n - 1])));
    }
  }

  /**
   The promise in terms of sets: with distinct keys and separator-free fields, an injection happens exactly
   when the attention set is not empty and is not the one of the call before, in whatever order it arrives.
   */
  lemma EmitsOnSetChange(hash: string -> string, views: seq<seq<Mr>>, sorted: seq<seq<Mr>>,
                         caches: seq<Option<string>>, emits: seq<bool>, n: nat)
    requires Session(hash, views, sorted, caches, emits) && NoCollision(hash, sorted) && n < |views|
    requires forall k | 0 <= k < |views| :: AllClean(sorted[k]) && DistinctKeys(multiset(sorted[k]))
    ensures emits[n] <==> Attention(views[n]) != [] && (n == 0 || multiset(Attention(views[n])) != multiset(Attention(views[n - 1])))
  {
    EmitsOnTextChange(hash, views, sorted, caches, emits, n);
    assert SortOf(sorted[n], Attention(views[n]));
    SameEmpty(sorted[n], Attention(views[n]));
    if n > 0 {
      assert SortOf(sorted[n - 1], Attention(views[n - 1]));
      if Text(sorted[n]) == Text(sorted[n - 1]) {
        TextInjective(sorted[n], sorted[n - 1]);
      } else if multiset(Attention(views[n])) == multiset(Attention(views[n - 1])) {
        OrderIndependent(Attention(views[n]), Attention(views[n - 1]), sorted[n], sorted[n - 1]);
      }
    }
  }

  lemma SameEmpty(a: seq<Mr>, b: seq<Mr>)
    requires multiset(a) == multiset(b)
    ensures a == [] <==> b == []
  {
    assert |multiset(a)| == |a| && |multiset(b)| == |b|;
  }

  // --- The command ---

  method FilterAttention(mrs: seq<Mr>) returns (out: seq<Mr>)
    ensures out == Attention(mrs)
  {
    out := [];
    assert mrs[0..] == mrs;
    for i := 0 to |mrs|
      invariant out + Attention(mrs[i..]) == Attention(mrs)
    {
      assert mrs[i..][0] == mrs[i] && mrs[i..][1..] == mrs[i + 1..];
      if mrs[i].state in ATTENTION {
        out := out + [mrs[i]];
      }
    }
  }

  lemma BriefFrom(sorted: seq<Mr>, i: nat, body: string)
    requires i < |sorted|
    ensures body + Brief(sorted[i..]) == (body + BriefLine(sorted[i])) + Brief(sorted[i + 1..])
  {
    assert sorted[i..][0] == sorted[i] && sorted[i..][1..] == sorted[i + 1..];
  }

  method RenderBrief(sorted: seq<Mr>) returns (body: string)
    ensures body == Brief(sorted)
  {
    body := "";
    assert sorted[0..] == sorted;
    for i := 0 to |sorted|
      invariant body + Brief(sorted[i..]) == Brief(sorted)
    {
      BriefFrom(sorted, i, body);
      var reason := sorted[i].reason;
      if TrimSpace(reason) == "" {
        reason := "-";
      }
      var line := "!" + Digits(sorted[i].iid) + " " + sorted[i].state + " " + reason + " " + sorted[i].url + "\n";
      assert line == BriefLine(sorted[i]);
      body := body + line;
    }
    assert Brief(sorted[|sorted|..]) == "";
  }

  /** The cache file of one branch and vendor. */
  class DeltaCache {
    var lastHash: Option<string>

    constructor ()
      ensures lastHash == None
    {
      lastHash := None;
    }

    method DeltaGate(hash: string -> string, sorted: seq<Mr>) returns (body: string, changed: bool)
      modifies this
      ensures body == Brief(sorted) && (lastHash, changed) == Gate(hash, old(lastHash), sorted)
    {
      body := RenderBrief(sorted);
      var newHash := hash(Text(sorted));
      if lastHash == Some(newHash) {
        return body, false;
      }
      lastHash := Some(newHash);
      changed := true;
    }

    /** An unknown vendor still goes through the gate, and then says nothing. */
    method RenderHook(hash: string -> string, knownVendor: bool, sorted: seq<Mr>) returns (injected: Option<string>)
      modifies this
      ensures lastHash == Call(hash, old(lastHash), sorted).0
      ensures injected == if knownVendor && Call(hash, old(lastHash), sorted).1 then Some(Brief(sorted)) else None
    {
      var body, changed := DeltaGate(hash, sorted);
      if !changed || TrimSpace(body) == "" || !knownVendor {
        return None;
      }
      injected := Some(body);
    }
  }
}
