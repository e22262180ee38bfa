/** `Array.prototype.sort` with a comparator, which JavaScript requires to be
    stable. The comparator is given as `le(a, b)`: "a may stay before b"
    (the source's `compare(a, b) <= 0`). The reference definition is a
    functional insertion sort; the in-place method is proved to compute it. */
module Sorting {
  import opened Seqs

  /** `le` relates every pair one way or the other. */
  ghost predicate Total<T(!new)>(le: (T, T) -> bool)
  {
    forall x, y :: le(x, y) || le(y, x)
  }

  ghost predicate Transitive<T(!new)>(le: (T, T) -> bool)
  {
    forall x, y, z :: le(x, y) && le(y, z) ==> le(x, z)
  }

  /** Every element may stay before every later one. */
  ghost predicate SortedBy<T>(s: seq<T>, le: (T, T) -> bool)
  {
    forall i, j :: 0 <= i < j < |s| ==> le(s[i], s[j])
  }

  /** Inserts `x` into `t` after the last element that may stay before it. */
  function Insert<T>(t: seq<T>, x: T, le: (T, T) -> bool): (r: seq<T>)
    ensures |r| == |t| + 1
  {
    if t == [] || le(t[|t| - 1], x) then t + [x]
    else Insert(t[..|t| - 1], x, le) + [t[|t| - 1]]
  }

  /** The stable sort of `s`: each element in turn inserted into the sorted prefix. */
  function Sort<T>(s: seq<T>, le: (T, T) -> bool): (r: seq<T>)
    ensures |r| == |s|
  {
    if s == [] then [] else Insert(Sort(s[..|s| - 1], le), s[|s| - 1], le)
  }

  lemma {:induction false} InsertPermutes<T>(t: seq<T>, x: T, le: (T, T) -> bool)
    ensures multiset(Insert(t, x, le)) == multiset(t) + multiset{x}
  {
    if t == [] || le(t[|t| - 1], x) {
    } else {
      InsertPermutes(t[..|t| - 1], x, le);
      assert t == t[..|t| - 1] + [t[|t| - 1]];
    }
  }

  /** Sorting rearranges the elements and neither adds nor drops any. */
  lemma {:induction false} SortPermutes<T>(s: seq<T>, le: (T, T) -> bool)
    ensures multiset(Sort(s, le)) == multiset(s)
    ensures |Sort(s, le)| == |s|
  {
    if s != [] {
      SortPermutes(s[..|s| - 1], le);
      InsertPermutes(Sort(s[..|s| - 1], le), s[|s| - 1], le);
      assert s == s[..|s| - 1] + [s[|s| - 1]];
    }
  }

  lemma {:induction false} InsertSorted<T(!new)>(t: seq<T>, x: T, le: (T, T) -> bool)
    requires Total(le) && Transitive(le)
    requires SortedBy(t, le)
    ensures SortedBy(Insert(t, x, le), le)
    ensures multiset(Insert(t, x, le)) == multiset(t) + multiset{x}
  {
    InsertPermutes(t, x, le);
    if t == [] || le(t[|t| - 1], x) {
      var r := t + [x];
      forall i, j | 0 <= i < j < |r| ensures le(r[i], r[j]) {
        if j == |t| && i < |t| - 1 {
          assert le(t[i], t[|t| - 1]);
        }
      }
    } else {
      var last := t[|t| - 1];
      var init := t[..|t| - 1];
      InsertSorted(init, x, le);
      var u := Insert(init, x, le);
      var r := u + [last];
      assert le(x, last);
      forall y | y in multiset(u) ensures le(y, last) {
        assert y in multiset(init) + multiset{x};
        if y in multiset(init) {
          var k :| 0 <= k < |init| && init[k] == y;
          assert t[k] == y;
        }
      }
      forall i, j | 0 <= i < j < |r| ensures le(r[i], r[j]) {
        if j == |u| {
          assert r[i] in multiset(u);
        }
      }
    }
  }

  /** The result of `Sort` is ordered by `le` when `le` is a total preorder. */
  lemma {:induction false} SortSorted<T(!new)>(s: seq<T>, le: (T, T) -> bool)
    requires Total(le) && Transitive(le)
    ensures SortedBy(Sort(s, le), le)
  {
    if s != [] {
      SortSorted(s[..|s| - 1], le);
      InsertSorted(Sort(s[..|s| - 1], le), s[|s| - 1], le);
    }
  }

  /** An input that is already in order comes back unchanged: the sort never
      swaps two elements that may stay where they are. */
  lemma {:induction false} SortOfSorted<T>(s: seq<T>, le: (T, T) -> bool)
    requires SortedBy(s, le)
    ensures Sort(s, le) == s
  {
    if s != [] {
      var init := s[..|s| - 1];
      assert SortedBy(init, le);
      SortOfSorted(init, le);
      if |init| > 0 {
        assert le(init[|init| - 1], s[|s| - 1]);
      }
      assert s == init + [s[|s| - 1]];
    }
  }

  /** The elements `le` ranks level with `y`: neither may go after the other. */
  function Ties<T>(le: (T, T) -> bool, y: T): T -> bool
  {
    (x: T) => le(x, y) && le(y, x)
  }

  /** Inserting `x` puts it after every element of `t` that ties with it. */
  lemma {:induction false} InsertStable<T(!new)>(t: seq<T>, x: T, le: (T, T) -> bool, y: T)
    requires Transitive(le)
    ensures Filter(Insert(t, x, le), Ties(le, y)) == Filter(t, Ties(le, y)) + Filter([x], Ties(le, y))
  {
    var f := Ties(le, y);
    if t == [] || le(t[|t| - 1], x) {
      FilterConcat(t, [x], f);
    } else {
      var init, last := t[..|t| - 1], t[|t| - 1];
      assert t == init + [last];
      calc {
        Filter(Insert(t, x, le), f);
        Filter(Insert(init, x, le) + [last], f);
        { FilterConcat(Insert(init, x, le), [last], f); }
        Filter(Insert(init, x, le), f) + Filter([last], f);
        { InsertStable(init, x, le, y); }
        Filter(init, f) + Filter([x], f) + Filter([last], f);
        { TiesNotBoth(le, y, x, last); SwapFiltered(Filter(init, f), Filter([x], f), Filter([last], f)); }
        Filter(init, f) + Filter([last], f) + Filter([x], f);
        { FilterConcat(init, [last], f); }
        Filter(t, f) + Filter([x], f);
      }
    }
  }

  /** An element that must go after `x` does not tie with what `x` ties with. */
  lemma TiesNotBoth<T(!new)>(le: (T, T) -> bool, y: T, x: T, z: T)
    requires Transitive(le) && !le(z, x)
    ensures Filter([x], Ties(le, y)) == [] || Filter([z], Ties(le, y)) == []
  {
    assert [x][1..] == [] && [z][1..] == [];
    assert le(z, y) && le(y, x) ==> le(z, x);
    assert !(Ties(le, y)(x) && Ties(le, y)(z));
  }

  lemma SwapFiltered<T>(a: seq<T>, b: seq<T>, c: seq<T>)
    requires b == [] || c == []
    ensures a + b + c == a + c + b
  {
    if b == [] { assert a + b == a && a + c + b == a + c; } else { assert a + b + c == a + b && a + c == a; }
  }

  /** The sort is stable: the elements that tie with any `y` come out in the
      order they went in. */
  lemma {:induction false} SortStable<T(!new)>(s: seq<T>, le: (T, T) -> bool, y: T)
    requires Transitive(le)
    ensures Filter(Sort(s, le), Ties(le, y)) == Filter(s, Ties(le, y))
  {
    if s != [] {
      var init, last, f := s[..|s| - 1], s[|s| - 1], Ties(le, y);
      assert s == init + [last];
      calc {
        Filter(Sort(s, le), f);
        Filter(Insert(Sort(init, le), last, le), f);
        { InsertStable(Sort(init, le), last, le, y); }
        Filter(Sort(init, le), f) + Filter([last], f);
        { SortStable(init, le, y); }
        Filter(init, f) + Filter([last], f);
        { FilterConcat(init, [last], f); }
        Filter(s, f);
      }
    }
  }

  /** One step of `Insert` on a prefix that ends in an element that must move. */
  lemma InsertShift<T>(t: seq<T>, j: nat, x: T, le: (T, T) -> bool)
    requires 0 < j <= |t| && !le(t[j - 1], x)
    ensures Insert(t[..j], x, le) + t[j..] == Insert(t[..j - 1], x, le) + t[j - 1..]
  {
    assert t[..j][..j - 1] == t[..j - 1];
    assert t[j - 1..] == [t[j - 1]] + t[j..];
  }

  /** Moves `a[i]` left past the elements of the sorted prefix `a[..i]` that may
      not stay before it: the inner loop of insertion sort. */
  method InsertAt<T>(a: array<T>, i: nat, le: (T, T) -> bool)
    requires i < a.Length
    modifies a
    ensures a[..i + 1] == Insert(old(a[..i]), old(a[i]), le)
    ensures a[i + 1..] == old(a[i + 1..])
  {
    var x := a[i];
    ghost var sorted := a[..i];
    var j := i;
    while j > 0 && !le(a[j - 1], x)
      invariant 0 <= j <= i
      invariant a[..j] == sorted[..j]
      invariant a[j + 1..i + 1] == sorted[j..i]
      invariant a[i + 1..] == old(a[i + 1..])
      invariant Insert(sorted, x, le) == Insert(sorted[..j], x, le) + sorted[j..]
    {
      assert a[j - 1] == sorted[j - 1];
      InsertShift(sorted, j, x, le);
      a[j] := a[j - 1];
      j := j - 1;
    }
    a[j] := x;
    assert a[..i + 1] == sorted[..j] + [x] + sorted[j..i];
  }

  /** Sorts `a` in place by insertion, as stable as `Sort`. */
  method SortInPlace<T>(a: array<T>, le: (T, T) -> bool)
    modifies a
    ensures a[..] == Sort(old(a[..]), le)
  {
    ghost var input := a[..];
    var i := 0;
    while i < a.Length
      invariant 0 <= i <= a.Length
      invariant a[..i] == Sort(input[..i], le)
      invariant a[i..] == input[i..]
    {
      assert a[i] == input[i];
      InsertAt(a, i, le);
      assert input[..i + 1][..i] == input[..i];
      i := i + 1;
    }
    assert input[..a.Length] == input;
  }

  /** Copies `s` into a fresh array, sorts it in place and reads it back:
      the source's `temp.sort(...)` on a copy of the list. */
  method SortCopy<T>(s: seq<T>, le: (T, T) -> bool) returns (r: seq<T>)
    ensures r == Sort(s, le)
  {
    var a := new T[|s|](i requires 0 <= i < |s| => s[i]);
    assert a[..] == s;
    SortInPlace(a, le);
    r := a[..];
  }

  /** `a.localeCompare(b) <= 0`, stood in for by code-point order. */
  predicate LexLe(a: string, b: string)
  {
    a == [] || (b != [] && (a[0] < b[0] || (a[0] == b[0] && LexLe(a[1..], b[1..]))))
  }

  lemma {:induction false} LexTotal(a: string, b: string)
    ensures LexLe(a, b) || LexLe(b, a)
  {
    if a != [] && b != [] && a[0] == b[0] {
      LexTotal(a[1..], b[1..]);
    }
  }

  lemma {:induction false} LexTransitive(a: string, b: string, c: string)
    requires LexLe(a, b) && LexLe(b, c)
    ensures LexLe(a, c)
  {
    if a != [] && b != [] && c != [] && a[0] == b[0] && b[0] == c[0] {
      LexTransitive(a[1..], b[1..], c[1..]);
    }
  }

  /** Ordering records by a text key. */
  function ByText<T>(key: T -> string): (T, T) -> bool
  {
    (a: T, b: T) => LexLe(key(a), key(b))
  }

  /** Ordering records by a number key, largest first. */
  function ByNumberDescending<T>(key: T -> int): (T, T) -> bool
  {
    (a: T, b: T) => key(b) <= key(a)
  }

  lemma ByTextPreorder<T(!new)>(key: T -> string)
    ensures Total(ByText(key)) && Transitive(ByText(key))
  {
    forall x, y ensures ByText(key)(x, y) || ByText(key)(y, x) { LexTotal(key(x), key(y)); }
    forall x, y, z | ByText(key)(x, y) && ByText(key)(y, z) ensures ByText(key)(x, z) {
      LexTransitive(key(x), key(y), key(z));
    }
  }

  lemma ByNumberDescendingPreorder<T(!new)>(key: T -> int)
    ensures Total(ByNumberDescending(key)) && Transitive(ByNumberDescending(key))
  {
  }
}
