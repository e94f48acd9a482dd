/** Ranking squad candidates: an in-place insertion sort whose result does not depend on the order of the input. */
module SquadRanking {
  import opened TextOrder

  datatype Candidate = Candidate(name: string, pathClass: string, confidence: real, sampleSize: nat, enabled: bool)

  predicate CandidateLess(a: Candidate, b: Candidate) {
    if a.confidence != b.confidence then a.confidence > b.confidence
    else if |a.pathClass| != |b.pathClass| then |a.pathClass| > |b.pathClass|
    else Before(a.name, b.name)
  }

  lemma LessTransitive(a: Candidate, b: Candidate, c: Candidate)
    requires !CandidateLess(b, a) && !CandidateLess(c, b)
    ensures !CandidateLess(c, a)
  {
    BeforeTotal(a.name, b.name);
    BeforeTotal(b.name, c.name);
    BeforeTotal(a.name, c.name);
    if CandidateLess(c, a) && c.confidence == a.confidence == b.confidence && |c.pathClass| == |a.pathClass| == |b.pathClass| {
      if a.name != b.name && b.name != c.name {
        BeforeTransitive(a.name, b.name, c.name);
      }
    }
  }

  /** Within the first `n`, all but position `j` are in order, and `j` is in order with what comes after it. */
  ghost predicate AllBut(s: seq<Candidate>, n: nat, j: nat) {
    && j < n <= |s|
    && (forall p, q | 0 <= p < q < n && q != j :: !CandidateLess(s[q], s[p]))
  }

  method SortCandidates(c: array<Candidate>)
    modifies c
    ensures multiset(c[..]) == multiset(old(c[..])) && Ordered(c[..], CandidateLess)
  {
    if c.Length == 0 {
      return;
    }
    for i := 1 to c.Length
      invariant forall p, q | 0 <= p < q < i :: !CandidateLess(c[q], c[p])
      invariant multiset(c[..]) == multiset(old(c[..]))
    {
      var j := i;
      while j > 0 && CandidateLess(c[j], c[j - 1])
        invariant j <= i && AllBut(c[..], i + 1, j)
        invariant multiset(c[..]) == multiset(old(c[..]))
      {
        ghost var before := c[..];
        c[j], c[j - 1] := c[j - 1], c[j];
        assert c[..] == before[j := before[j - 1]][j - 1 := before[j]];
        SwapKeeps(before, i + 1, j);
        j := j - 1;
      }
      InPlace(c[..], i + 1, j);
    }
  }

  lemma SwapKeeps(s: seq<Candidate>, n: nat, j: nat)
    requires AllBut(s, n, j) && j > 0 && CandidateLess(s[j], s[j - 1])
    ensures AllBut(s[j := s[j - 1]][j - 1 := s[j]], n, j - 1)
    ensures multiset(s[j := s[j - 1]][j - 1 := s[j]]) == multiset(s)
  {
    BeforeTotal(s[j].name, s[j - 1].name);
  }

  lemma InPlace(s: seq<Candidate>, n: nat, j: nat)
    requires AllBut(s, n, j) && (j > 0 ==> !CandidateLess(s[j], s[j - 1]))
    ensures forall p, q | 0 <= p < q < n :: !CandidateLess(s[q], s[p])
  {
    forall p | 0 <= p < j
      ensures !CandidateLess(s[j], s[p])
    {
      if p < j - 1 {
        LessTransitive(s[p], s[j - 1], s[j]);
      }
    }
  }

  ghost predicate DistinctNames(m: multiset<Candidate>) {
    forall x, y | x in m && y in m && x != y :: x.name != y.name
  }

  /** With distinct squad names the ranking is the same whatever order the manifests are walked in. */
  lemma RankingUnique(a: seq<Candidate>, b: seq<Candidate>)
    requires multiset(a) == multiset(b) && DistinctNames(multiset(a))
    requires Ordered(a, CandidateLess) && Ordered(b, CandidateLess)
    ensures a == b
  {
    forall x, y | x in multiset(a) && y in multiset(a)
      ensures x != y ==> CandidateLess(x, y) || CandidateLess(y, x)
      ensures !(CandidateLess(x, y) && CandidateLess(y, x))
    {
      BeforeTotal(x.name, y.name);
    }
    OrderedUnique(a, b, CandidateLess);
  }

  /** Every earlier row is better: more confident, then of the longer path class, then of the earlier name. */
  lemma EarlierIsBetter(s: seq<Candidate>, i: nat, k: nat)
    requires Ordered(s, CandidateLess) && i < k < |s|
    ensures s[i].confidence >= s[k].confidence
    ensures s[i].confidence == s[k].confidence ==> |s[i].pathClass| >= |s[k].pathClass|
    ensures s[i].confidence == s[k].confidence && |s[i].pathClass| == |s[k].pathClass| && s[i].name != s[k].name ==>
              Before(s[i].name, s[k].name)
  {
    BeforeTotal(s[i].name, s[k].name);
    assert !CandidateLess(s[k], s[i]);
  }
}
