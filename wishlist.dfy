/** The wishlist store of `WishlistContext`: a list of products with set
    semantics, each entry known by its key `id || _id`. */
module WishlistStore {
  import opened Js
  import opened Records
  import opened Seqs

  /** `product.id || product._id`. */
  function Key(p: Product): (k: string)
    ensures p.id != "" ==> k == p.id
    ensures p.id == "" ==> k == p.altId
  {
    Or(p.id, p.altId)
  }

  /** `wishlist.some(i => (i.id || i._id) === key)`. */
  predicate Listed(items: seq<Product>, key: string)
  {
    exists i :: 0 <= i < |items| && Key(items[i]) == key
  }

  /** No two entries share a key. */
  ghost predicate UniqueKeys(items: seq<Product>)
  {
    forall i, j :: 0 <= i < j < |items| ==> Key(items[i]) != Key(items[j])
  }

  /** `addToWishlist(product)`: nothing changes when the key is listed already;
      otherwise the product goes at the end. */
  function Added(items: seq<Product>, p: Product): (r: seq<Product>)
    ensures Listed(items, Key(p)) ==> r == items
    ensures !Listed(items, Key(p)) ==> r == items + [p]
    ensures Listed(r, Key(p))
    ensures UniqueKeys(items) ==> UniqueKeys(r)
  {
    if Listed(items, Key(p)) then items
    else
      var r := items + [p];
      assert Key(r[|items|]) == Key(p);
      r
  }

  /** `removeFromWishlist(key)`: the entries with another key, in their order. */
  function Removed(items: seq<Product>, key: string): (r: seq<Product>)
    ensures !Listed(r, key)
    ensures IsSubseq(r, items)
    ensures forall i :: 0 <= i < |items| && Key(items[i]) != key ==> items[i] in r
    ensures UniqueKeys(items) ==> UniqueKeys(r)
  {
    var r := Filter(items, (p: Product) => Key(p) != key);
    assert UniqueKeys(items) ==> UniqueKeys(r) by {
      if UniqueKeys(items) { RemovedUnique(items, key); }
    }
    r
  }

  lemma {:induction false} RemovedUnique(items: seq<Product>, key: string)
    requires UniqueKeys(items)
    ensures UniqueKeys(Filter(items, (p: Product) => Key(p) != key))
  {
    if items != [] {
      RemovedUnique(items[1..], key);
      var rest := Filter(items[1..], (p: Product) => Key(p) != key);
      forall k | 0 <= k < |rest| ensures Key(rest[k]) != Key(items[0]) {
        assert rest[k] in items[1..];
      }
    }
  }

  /** Removing twice is removing once. */
  lemma RemovedIdempotent(items: seq<Product>, key: string)
    ensures Removed(Removed(items, key), key) == Removed(items, key)
  {
    FilterKeepsAll(Removed(items, key), (p: Product) => Key(p) != key);
  }

  /** Removing a key nobody has changes nothing. */
  lemma RemovedAbsent(items: seq<Product>, key: string)
    requires !Listed(items, key)
    ensures Removed(items, key) == items
  {
    FilterKeepsAll(items, (p: Product) => Key(p) != key);
  }

  /** The wishlist after `addToWishlist(p)` for each `p` of `ps` in turn. */
  function AddAll(items: seq<Product>, ps: seq<Product>): seq<Product>
  {
    if ps == [] then items else Added(AddAll(items, ps[..|ps| - 1]), ps[|ps| - 1])
  }

  /** Keys stay unique under any sequence of adds, starting from unique keys. */
  lemma {:induction false} AddAllUnique(items: seq<Product>, ps: seq<Product>)
    requires UniqueKeys(items)
    ensures UniqueKeys(AddAll(items, ps))
  {
    if ps != [] {
      AddAllUnique(items, ps[..|ps| - 1]);
    }
  }

  /** A sequence of adds never lengthens the list by more than one per add,
      and every added key ends up listed. */
  lemma {:induction false} AddAllListed(items: seq<Product>, ps: seq<Product>)
    ensures |AddAll(items, ps)| <= |items| + |ps|
    ensures forall k :: 0 <= k < |ps| ==> Listed(AddAll(items, ps), Key(ps[k]))
  {
    if ps != [] {
      var init := ps[..|ps| - 1];
      AddAllListed(items, init);
      var before := AddAll(items, init);
      forall k | 0 <= k < |ps| ensures Listed(AddAll(items, ps), Key(ps[k])) {
        if k < |ps| - 1 {
          assert ps[k] == init[k];
          var j :| 0 <= j < |before| && Key(before[j]) == Key(ps[k]);
          assert AddAll(items, ps)[j] == before[j];
        }
      }
    }
  }

  /** The store held by the wishlist provider. */
  class Wishlist {
    var items: seq<Product>

    constructor (saved: seq<Product>)
      ensures items == saved
    {
      items := saved;
    }

    method AddToWishlist(p: Product)
      modifies this
      ensures items == Added(old(items), p)
    {
      if Listed(items, Key(p)) {
        return;
      }
      items := items + [p];
    }

    method RemoveFromWishlist(key: string)
      modifies this
      ensures items == Removed(old(items), key)
    {
      items := Removed(items, key);
    }

    /** `isInWishlist(key)`. */
    function IsInWishlist(key: string): (r: bool)
      reads this
      ensures r == Listed(items, key)
    {
      Listed(items, key)
    }
  }
}
