/** `SearchPage`: the trimmed `q` parameter matched, ignoring ASCII case,
    against the names of the ring, bracelet and necklace collections. */
module Search {
  import opened Js
  import opened Records
  import opened Seqs

  /** One endpoint's `res.data || []`: a failed request (caught as `{ data: [] }`)
      and a missing body both contribute nothing. */
  function Data(response: Option<seq<Product>>): (r: seq<Product>)
    ensures response.None? ==> r == []
    ensures response.Some? ==> r == response.value
  {
    if response.Some? then response.value else []
  }

  /** The text searched: `item.name || item.title || ""`. */
  function SearchedName(p: Product): (r: string)
    ensures p.name != "" ==> r == p.name
    ensures p.name == "" ==> r == p.title
  {
    Or(Or(p.name, p.title), "")
  }

  /** `name.toLowerCase().includes(q.toLowerCase())`. */
  function Matcher(q: string): Product -> bool
  {
    (p: Product) => IncludesIgnoringCase(SearchedName(p), q)
  }

  /** The results for the raw `q` parameter ("" when absent) and the three
      responses, requested in the order ring, bracelets, necklace. */
  function Results(raw: string, ring: Option<seq<Product>>, bracelets: Option<seq<Product>>,
                   necklace: Option<seq<Product>>): (r: seq<Product>)
    ensures Trim(raw) == "" ==> r == []
  {
    var q := Trim(raw);
    if q == "" then [] else Filter(Data(ring) + Data(bracelets) + Data(necklace), Matcher(q))
  }

  /** A product is found exactly when its collection answered with it and its
      name contains the trimmed query, ignoring case; results keep the order
      ring items, then bracelets, then necklaces. */
  lemma ResultsSpec(raw: string, ring: Option<seq<Product>>, bracelets: Option<seq<Product>>,
                    necklace: Option<seq<Product>>)
    requires Trim(raw) != ""
    ensures forall p :: p in Results(raw, ring, bracelets, necklace) <==>
      (p in Data(ring) || p in Data(bracelets) || p in Data(necklace)) &&
      Includes(Lower(SearchedName(p)), Lower(Trim(raw)))
    ensures Results(raw, ring, bracelets, necklace) ==
      Filter(Data(ring), Matcher(Trim(raw))) + Filter(Data(bracelets), Matcher(Trim(raw))) +
      Filter(Data(necklace), Matcher(Trim(raw)))
  {
    var m := Matcher(Trim(raw));
    var all := Data(ring) + Data(bracelets) + Data(necklace);
    FilterConcat(Data(ring) + Data(bracelets), Data(necklace), m);
    FilterConcat(Data(ring), Data(bracelets), m);
    forall p ensures p in Filter(all, m) <==> p in all && m(p) {
      FilterMember(all, m, p);
    }
  }

  lemma {:induction false} LowerTrimStart(s: string)
    ensures Lower(TrimStart(s)) == TrimStart(Lower(s))
  {
    if s != [] {
      var l := Lower(s);
      assert l == [LowerChar(s[0])] + Lower(s[1..]);
      assert l[0] == LowerChar(s[0]) && l[1..] == Lower(s[1..]);
      LowerKeepsSpace(s[0]);
      if IsSpace(s[0]) {
        LowerTrimStart(s[1..]);
        assert TrimStart(s) == TrimStart(s[1..]);
        assert TrimStart(l) == TrimStart(l[1..]);
      } else {
        assert TrimStart(s) == s;
        assert TrimStart(l) == l;
      }
    }
  }

  lemma {:induction false} LowerTrimEnd(s: string)
    ensures Lower(TrimEnd(s)) == TrimEnd(Lower(s))
  {
    if s != [] {
      var n := |s| - 1;
      var l := Lower(s);
      LowerPrefix(s, n);
      assert l[n] == LowerChar(s[n]);
      LowerKeepsSpace(s[n]);
      if IsSpace(s[n]) {
        LowerTrimEnd(s[..n]);
        assert TrimEnd(s) == TrimEnd(s[..n]);
        assert TrimEnd(l) == TrimEnd(l[..n]);
      } else {
        assert TrimEnd(s) == s;
        assert TrimEnd(l) == l;
      }
    }
  }

  /** Lower-casing never makes or unmakes whitespace. */
  lemma LowerKeepsSpace(c: char)
    ensures IsSpace(LowerChar(c)) == IsSpace(c)
  {
    if IsUpperAscii(c) {
      assert !IsSpace(c) && !IsSpace(LowerChar(c));
    }
  }

  lemma LowerPrefix(s: string, n: nat)
    requires n <= |s|
    ensures Lower(s)[..n] == Lower(s[..n])
  {
    assert forall i :: 0 <= i < n ==> Lower(s)[..n][i] == LowerChar(s[..n][i]);
  }

  /** Trimming and lower-casing can be done in either order. */
  lemma LowerTrim(s: string)
    ensures Lower(Trim(s)) == Trim(Lower(s))
  {
    LowerTrimStart(s);
    LowerTrimEnd(TrimStart(s));
  }

  /** Queries that differ only in ASCII case find the same products. */
  lemma CaseInsensitive(raw1: string, raw2: string, ring: Option<seq<Product>>,
                        bracelets: Option<seq<Product>>, necklace: Option<seq<Product>>)
    requires Lower(raw1) == Lower(raw2)
    ensures Results(raw1, ring, bracelets, necklace) == Results(raw2, ring, bracelets, necklace)
  {
    LowerTrim(raw1);
    LowerTrim(raw2);
    var q1, q2 := Trim(raw1), Trim(raw2);
    assert Lower(q1) == Lower(q2);
    assert |q1| == |q2|;
    if q1 != "" {
      FilterAgree(Data(ring) + Data(bracelets) + Data(necklace), Matcher(q1), Matcher(q2));
    }
  }
}
