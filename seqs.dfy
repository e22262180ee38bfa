/** `Array.prototype.filter`, `.filter(...).length` and `.reduce` sums, with the
    facts about them that the stores and the admin views rely on. */
module Seqs {

  /** `r` is `s` with some elements dropped and the rest kept in order. */
  ghost predicate IsSubseq<T>(r: seq<T>, s: seq<T>)
    decreases |s|
  {
    r == [] || (s != [] && ((r[0] == s[0] && IsSubseq(r[1..], s[1..])) || IsSubseq(r, s[1..])))
  }

  lemma {:induction false} SubseqRefl<T>(s: seq<T>)
    ensures IsSubseq(s, s)
  {
    if s != [] { SubseqRefl(s[1..]); }
  }

  /** `s.filter(f)`. */
  function Filter<T>(s: seq<T>, f: T -> bool): (r: seq<T>)
    ensures |r| <= |s|
    ensures forall i :: 0 <= i < |r| ==> r[i] in s && f(r[i])
    ensures forall i :: 0 <= i < |s| && f(s[i]) ==> s[i] in r
    ensures IsSubseq(r, s)
  {
    if s == [] then []
    else if f(s[0]) then [s[0]] + Filter(s[1..], f)
    else Filter(s[1..], f)
  }

  /** Filtering keeps everything exactly when every element passes. */
  lemma {:induction false} FilterKeepsAll<T>(s: seq<T>, f: T -> bool)
    ensures Filter(s, f) == s <==> forall x :: x in s ==> f(x)
  {
    if s != [] {
      FilterKeepsAll(s[1..], f);
      if !f(s[0]) {
        assert |Filter(s, f)| < |s| by { assert Filter(s, f) == Filter(s[1..], f); }
      } else {
        assert forall x :: x in s <==> x == s[0] || x in s[1..];
      }
    }
  }

  /** An element is in a filter's result exactly when it is in the input and passes. */
  lemma {:induction false} FilterMember<T>(s: seq<T>, f: T -> bool, x: T)
    ensures x in Filter(s, f) <==> x in s && f(x)
  {
    if s != [] {
      FilterMember(s[1..], f, x);
      assert x in s <==> x == s[0] || x in s[1..];
    }
  }

  lemma {:induction false} FilterConcat<T>(a: seq<T>, b: seq<T>, f: T -> bool)
    ensures Filter(a + b, f) == Filter(a, f) + Filter(b, f)
  {
    if a != [] {
      assert (a + b)[1..] == a[1..] + b;
      FilterConcat(a[1..], b, f);
    } else {
      assert a + b == b;
    }
  }

  /** Two tests that agree on every element filter alike. */
  lemma {:induction false} FilterAgree<T>(s: seq<T>, f: T -> bool, g: T -> bool)
    requires forall x :: x in s ==> f(x) == g(x)
    ensures Filter(s, f) == Filter(s, g)
  {
    if s != [] { FilterAgree(s[1..], f, g); }
  }

  /** Filtering twice keeps what passes both tests. */
  lemma {:induction false} FilterTwice<T>(s: seq<T>, f: T -> bool, g: T -> bool, h: T -> bool)
    requires forall x :: x in s ==> h(x) == (f(x) && g(x))
    ensures Filter(Filter(s, f), g) == Filter(s, h)
  {
    if s != [] { FilterTwice(s[1..], f, g, h); }
  }

  /** A test that fails on some element drops it, so the result is shorter. */
  lemma {:induction false} FilterShorter<T>(s: seq<T>, f: T -> bool, k: nat)
    requires k < |s| && !f(s[k])
    ensures |Filter(s, f)| < |s|
  {
    if k > 0 {
      FilterShorter(s[1..], f, k - 1);
    }
  }

  /** A test that no element passes keeps nothing. */
  lemma {:induction false} FilterNone<T>(s: seq<T>, f: T -> bool)
    requires forall x :: x in s ==> !f(x)
    ensures Filter(s, f) == []
  {
    if s != [] { FilterNone(s[1..], f); }
  }

  /** `s.filter(f).length`. */
  function Count<T>(s: seq<T>, f: T -> bool): (n: nat)
    ensures n <= |s|
    ensures n == |Filter(s, f)|
  {
    if s == [] then 0 else (if f(s[0]) then 1 else 0) + Count(s[1..], f)
  }

  /** Counts of two tests that never both hold add up to at most the length,
      and to exactly the length when one of them always holds. */
  lemma {:induction false} CountDisjoint<T>(s: seq<T>, f: T -> bool, g: T -> bool)
    requires forall x :: x in s ==> !(f(x) && g(x))
    ensures Count(s, f) + Count(s, g) <= |s|
    ensures (forall x :: x in s ==> f(x) || g(x)) ==> Count(s, f) + Count(s, g) == |s|
  {
    if s != [] { CountDisjoint(s[1..], f, g); }
  }

  /** A weaker test counts at least as many elements. */
  lemma {:induction false} CountMonotone<T>(s: seq<T>, f: T -> bool, g: T -> bool)
    requires forall x :: x in s ==> f(x) ==> g(x)
    ensures Count(s, f) <= Count(s, g)
  {
    if s != [] { CountMonotone(s[1..], f, g); }
  }

  /** `s.reduce((acc, x) => acc + w(x), 0)`. */
  function Sum<T>(s: seq<T>, w: T -> int): int
  {
    if s == [] then 0 else w(s[0]) + Sum(s[1..], w)
  }

  lemma SumSingle<T>(x: T, w: T -> int)
    ensures Sum([x], w) == w(x)
  {
    assert [x][1..] == [];
  }

  lemma {:induction false} SumConcat<T>(a: seq<T>, b: seq<T>, w: T -> int)
    ensures Sum(a + b, w) == Sum(a, w) + Sum(b, w)
  {
    if a != [] {
      assert (a + b)[1..] == a[1..] + b;
      SumConcat(a[1..], b, w);
    } else {
      assert a + b == b;
    }
  }

  /** A sum splits into the part a test keeps and the part its negation `g` keeps. */
  lemma {:induction false} SumSplit<T>(s: seq<T>, f: T -> bool, g: T -> bool, w: T -> int)
    requires forall x :: x in s ==> g(x) == !f(x)
    ensures Sum(s, w) == Sum(Filter(s, f), w) + Sum(Filter(s, g), w)
  {
    if s != [] { SumSplit(s[1..], f, g, w); }
  }

  /** A sum of non-negative weights is non-negative. */
  lemma {:induction false} SumNonNegative<T>(s: seq<T>, w: T -> int)
    requires forall x :: x in s ==> w(x) >= 0
    ensures Sum(s, w) >= 0
  {
    if s != [] { SumNonNegative(s[1..], w); }
  }

  /** Weights that agree on every element sum alike. */
  lemma {:induction false} SumAgree<T>(s: seq<T>, v: T -> int, w: T -> int)
    requires forall x :: x in s ==> v(x) == w(x)
    ensures Sum(s, v) == Sum(s, w)
  {
    if s != [] { SumAgree(s[1..], v, w); }
  }

  /** A sum of weights that are each at least 1 is at least the length. */
  lemma {:induction false} SumAtLeastLength<T>(s: seq<T>, w: T -> int)
    requires forall x :: x in s ==> w(x) >= 1
    ensures Sum(s, w) >= |s|
  {
    if s != [] { SumAtLeastLength(s[1..], w); }
  }
}
