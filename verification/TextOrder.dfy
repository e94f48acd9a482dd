/** Plain facts about texts: decimal numbers, splitting at a separator, and the order of strings. */
module TextOrder {

  // --- Decimal numbers ---

  function Digits(n: nat): (r: string)
    ensures r != "" && forall c <- r :: '0' <= c <= '9'
  {
    if n < 10 then [('0' as int + n) as char] else Digits(n / 10) + [('0' as int + n % 10) as char]
  }

  lemma {:induction false} DigitsInjective(a: nat, b: nat)
    requires Digits(a) == Digits(b)
    ensures a == b
  {
    var x, y := Digits(a), Digits(b);
    assert x[|x| - 1] == y[|y| - 1];
    if a >= 10 && b >= 10 {
      assert x[..|x| - 1] == Digits(a / 10) && y[..|y| - 1] == Digits(b / 10);
      DigitsInjective(a / 10, b / 10);
    }
  }

  /** The number a row of decimal digits stands for. */
  function Value(s: string): int {
    if s == "" then 0 else 10 * Value(s[..|s| - 1]) + (s[|s| - 1] as int - '0' as int)
  }

  /** The digits written stand for the number, with no zero in front. */
  lemma {:induction false} DigitsMeaning(n: nat)
    ensures Value(Digits(n)) == n && (Digits(n)[0] == '0' ==> n == 0)
  {
    var d := Digits(n);
    if n >= 10 {
      DigitsMeaning(n / 10);
      assert d[..|d| - 1] == Digits(n / 10);
    } else {
      assert d[..|d| - 1] == "";
    }
  }

  // --- Separators ---

  /** A text without the separator is what stands before the first separator. */
  lemma SameUpTo(c: char, a: string, b: string, x: string, y: string)
    requires a + [c] + x == b + [c] + y && c !in a && c !in b
    ensures a == b && x == y
  {
    var s := a + [c] + x;
    assert s[|a|] == c && (b + [c] + y)[|b|] == c;
    assert forall i | 0 <= i < |a| :: s[i] == a[i];
    assert forall i | 0 <= i < |b| :: s[i] == b[i];
    assert |a| == |b|;
    assert s[..|a|] == a && s[..|b|] == b;
    assert x == s[|a| + 1..] && y == s[|b| + 1..];
  }

  // --- The order of strings ---

  predicate Before(a: string, b: string) {
    if b == "" then false
    else if a == "" then true
    else a[0] < b[0] || (a[0] == b[0] && Before(a[1..], b[1..]))
  }

  /** The texts agree up to `i`, where `a` ends or has the smaller character. */
  ghost predicate SplitsAt(a: string, b: string, i: nat) {
    i <= |a| && i < |b| && a[..i] == b[..i] && (i < |a| ==> a[i] < b[i])
  }

  /** Dictionary order. */
  lemma {:induction false} BeforeMeaning(a: string, b: string)
    ensures Before(a, b) <==> exists i: nat :: SplitsAt(a, b, i)
  {
    if a != "" && b != "" {
      BeforeMeaning(a[1..], b[1..]);
      if a[0] == b[0] {
        if i: nat :| SplitsAt(a[1..], b[1..], i) {
          assert a[..i + 1] == [a[0]] + a[1..][..i] && b[..i + 1] == [b[0]] + b[1..][..i];
          assert SplitsAt(a, b, i + 1);
        }
      } else if a[0] < b[0] {
        assert SplitsAt(a, b, 0);
      }
      if i: nat :| SplitsAt(a, b, i) && i > 0 {
        assert a[..i][0] == a[0] && b[..i][0] == b[0];
        assert a[1..][..i - 1] == a[..i][1..] && b[1..][..i - 1] == b[..i][1..];
        assert SplitsAt(a[1..], b[1..], i - 1);
      }
    } else if b != "" {
      assert SplitsAt(a, b, 0);
    }
  }

  lemma {:induction false} BeforeTotal(a: string, b: string)
    ensures a != b ==> Before(a, b) || Before(b, a)
    ensures !(Before(a, b) && Before(b, a)) && !Before(a, a)
  {
    if a != "" && b != "" {
      BeforeTotal(a[1..], b[1..]);
      BeforeTotal(a[1..], a[1..]);
      assert a[0] == b[0] && a[1..] == b[1..] ==> a == b by {
        assert a == [a[0]] + a[1..] && b == [b[0]] + b[1..];
      }
    } else if a != "" {
      BeforeTotal(a[1..], a[1..]);
    }
  }

  lemma {:induction false} BeforeTransitive(a: string, b: string, c: string)
    requires Before(a, b) && Before(b, c)
    ensures Before(a, c)
  {
    if a != "" && a[0] == b[0] == c[0] {
      BeforeTransitive(a[1..], b[1..], c[1..]);
    }
  }

  // --- Sorting has one result ---

  /** No later element comes before an earlier one. */
  ghost predicate Ordered<T(!new)>(s: seq<T>, less: (T, T) -> bool) {
    forall i, j | 0 <= i < j < |s| :: !less(s[j], s[i])
  }

  /** Any two different elements compare one way and not the other. */
  ghost predicate Decides<T(!new)>(m: multiset<T>, less: (T, T) -> bool) {
    && (forall x, y | x in m && y in m && x != y :: less(x, y) || less(y, x))
    && (forall x, y | x in m && y in m :: !(less(x, y) && less(y, x)))
  }

  lemma HeadsAgree<T(!new)>(a: seq<T>, b: seq<T>, less: (T, T) -> bool)
    requires multiset(a) == multiset(b) && Ordered(a, less) && Ordered(b, less) && Decides(multiset(a), less) && a != [] && b != []
    ensures a[0] == b[0]
  {
    assert a[0] in multiset(b) && b[0] in multiset(a);
    var i :| 0 <= i < |a| && a[i] == b[0];
    var j :| 0 <= j < |b| && b[j] == a[0];
    assert i > 0 ==> !less(b[0], a[0]);
    assert j > 0 ==> !less(a[0], b[0]);
  }

  lemma TailOf<T(!new)>(a: seq<T>, less: (T, T) -> bool)
    requires a != [] && Ordered(a, less)
    ensures Ordered(a[1..], less) && multiset(a[1..]) == multiset(a) - multiset{a[0]}
  {
    assert a == [a[0]] + a[1..];
    assert forall i | 0 <= i < |a| - 1 :: a[1..][i] == a[i + 1];
  }

  lemma FewerDecide<T(!new)>(m: multiset<T>, n: multiset<T>, less: (T, T) -> bool)
    requires Decides(m, less) && n <= m
    ensures Decides(n, less)
  {
  }

  /** What is left after taking the common head off two ordered arrangements. */
  lemma TailsAgree<T(!new)>(a: seq<T>, b: seq<T>, less: (T, T) -> bool)
    requires multiset(a) == multiset(b) && Ordered(a, less) && Ordered(b, less) && Decides(multiset(a), less) && a != [] && b != []
    ensures a[0] == b[0] && multiset(a[1..]) == multiset(b[1..])
    ensures Ordered(a[1..], less) && Ordered(b[1..], less) && Decides(multiset(a[1..]), less)
  {
    HeadsAgree(a, b, less);
    TailOf(a, less);
    TailOf(b, less);
    FewerDecide(multiset(a), multiset(a[1..]), less);
  }

  /** Two ordered arrangements of the same elements are the same, whatever order they came in. */
  lemma {:induction false} OrderedUnique<T(!new)>(a: seq<T>, b: seq<T>, less: (T, T) -> bool)
    requires multiset(a) == multiset(b) && Ordered(a, less) && Ordered(b, less) && Decides(multiset(a), less)
    ensures a == b
    decreases |a|
  {
    assert |multiset(a)| == |a| && |multiset(b)| == |b|;
    if |a| > 0 {
      TailsAgree(a, b, less);
      OrderedUnique(a[1..], b[1..], less);
      SameFromTails(a, b);
    }
  }

  lemma SameFromTails<T>(a: seq<T>, b: seq<T>)
    requires a != [] && b != [] && a[0] == b[0] && a[1..] == b[1..]
    ensures a == b
  {
    assert a == [a[0]] + a[1..] && b == [b[0]] + b[1..];
  }
}
