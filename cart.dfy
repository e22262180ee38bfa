/** The cart store of `CartContext`: an ordered list of lines, each a product
    spread with its quantity, matched by the product's `id`. */
module CartStore {
  import opened Js
  import opened Records
  import opened Seqs

  /** Some line carries the product with this id. */
  predicate HasLine(lines: seq<Line>, id: string)
  {
    exists i :: 0 <= i < |lines| && lines[i].product.id == id
  }

  /** No two lines carry the same product id. */
  ghost predicate UniqueIds(lines: seq<Line>)
  {
    forall i, j :: 0 <= i < j < |lines| ==> lines[i].product.id != lines[j].product.id
  }

  /** Every line holds at least one unit. */
  ghost predicate PositiveQuantities(lines: seq<Line>)
  {
    forall i :: 0 <= i < |lines| ==> lines[i].quantity >= 1
  }

  /** `addToCart(product, quantity)`: the line with the product's id (every such
      line, should there be several) grows by `quantity`; otherwise one new line
      with the product and `quantity` goes at the end. Nothing bounds `quantity`. */
  function Added(lines: seq<Line>, p: Product, quantity: int): (r: seq<Line>)
    ensures HasLine(lines, p.id) ==>
      |r| == |lines| &&
      forall i :: 0 <= i < |lines| ==>
        r[i].product == lines[i].product &&
        r[i].quantity == lines[i].quantity + (if lines[i].product.id == p.id then quantity else 0)
    ensures !HasLine(lines, p.id) ==> r == lines + [Line(p, quantity)]
    ensures HasLine(r, p.id)
    ensures UniqueIds(lines) ==> UniqueIds(r)
  {
    if HasLine(lines, p.id) then
      seq(|lines|, i requires 0 <= i < |lines| =>
        if lines[i].product.id == p.id then lines[i].(quantity := lines[i].quantity + quantity) else lines[i])
    else
      var r := lines + [Line(p, quantity)];
      assert r[|lines|].product.id == p.id;
      r
  }

  /** `removeFromCart(id)`: the lines with another id, in their order. */
  function Removed(lines: seq<Line>, id: string): (r: seq<Line>)
    ensures !HasLine(r, id)
    ensures IsSubseq(r, lines)
    ensures forall i :: 0 <= i < |lines| && lines[i].product.id != id ==> lines[i] in r
    ensures UniqueIds(lines) ==> UniqueIds(r)
    ensures PositiveQuantities(lines) ==> PositiveQuantities(r)
  {
    var r := Filter(lines, (l: Line) => l.product.id != id);
    assert forall i :: 0 <= i < |r| ==> r[i] in lines;
    assert UniqueIds(lines) ==> UniqueIds(r) by {
      if UniqueIds(lines) { RemovedUnique(lines, id); }
    }
    r
  }

  lemma {:induction false} RemovedUnique(lines: seq<Line>, id: string)
    requires UniqueIds(lines)
    ensures UniqueIds(Filter(lines, (l: Line) => l.product.id != id))
  {
    if lines != [] {
      RemovedUnique(lines[1..], id);
      var rest := Filter(lines[1..], (l: Line) => l.product.id != id);
      forall k | 0 <= k < |rest| ensures rest[k].product.id != lines[0].product.id {
        assert rest[k] in lines[1..];
      }
    }
  }

  /** `updateQuantity(id, quantity)` for `quantity >= 1`: the lines with that id
      now hold exactly `quantity`; a smaller value is ignored by the caller. */
  function Requantified(lines: seq<Line>, id: string, quantity: int): (r: seq<Line>)
    ensures |r| == |lines|
    ensures forall i :: 0 <= i < |lines| ==>
      r[i].product == lines[i].product &&
      r[i].quantity == if lines[i].product.id == id then quantity else lines[i].quantity
  {
    seq(|lines|, i requires 0 <= i < |lines| =>
      if lines[i].product.id == id then lines[i].(quantity := quantity) else lines[i])
  }

  /** `Number(item.offerPrice) * Number(item.quantity)`. */
  function LineAmount(l: Line): int
  {
    l.product.offerPrice * l.quantity
  }

  function LineQuantity(l: Line): int
  {
    l.quantity
  }

  /** `cartTotal`: nothing for an empty cart, and never negative while no
      price and no quantity is. */
  function TotalOf(lines: seq<Line>): (r: int)
    ensures lines == [] ==> r == 0
    ensures (forall l :: l in lines ==> l.product.offerPrice >= 0 && l.quantity >= 0) ==> r >= 0
  {
    TotalNonNegative(lines);
    Sum(lines, LineAmount)
  }

  /** `cartCount`: nothing for an empty cart, and at least one per line while
      every quantity is positive. */
  function CountOf(lines: seq<Line>): (r: int)
    ensures lines == [] ==> r == 0
    ensures (forall l :: l in lines ==> l.quantity >= 1) ==> r >= |lines|
  {
    CountAtLeastLines(lines);
    Sum(lines, LineQuantity)
  }

  lemma TotalNonNegative(lines: seq<Line>)
    ensures (forall l :: l in lines ==> l.product.offerPrice >= 0 && l.quantity >= 0) ==> Sum(lines, LineAmount) >= 0
  {
    if forall l :: l in lines ==> l.product.offerPrice >= 0 && l.quantity >= 0 {
      forall l | l in lines ensures LineAmount(l) >= 0 {
        assert l.product.offerPrice >= 0 && l.quantity >= 0;
      }
      SumNonNegative(lines, LineAmount);
    }
  }

  lemma CountAtLeastLines(lines: seq<Line>)
    ensures (forall l :: l in lines ==> l.quantity >= 1) ==> Sum(lines, LineQuantity) >= |lines|
  {
    if forall l :: l in lines ==> l.quantity >= 1 {
      SumAtLeastLength(lines, LineQuantity);
    }
  }

  /** The empty cart is worth nothing and holds nothing. */
  lemma EmptyCartSums()
    ensures TotalOf([]) == 0 && CountOf([]) == 0
  {
  }

  /** Replacing one line of a list changes its sum by the difference of the weights. */
  lemma {:induction false} SumReplace(a: seq<Line>, b: seq<Line>, k: nat, w: Line -> int)
    requires |a| == |b| && k < |a|
    requires forall i :: 0 <= i < |a| && i != k ==> a[i] == b[i]
    ensures Sum(b, w) == Sum(a, w) - w(a[k]) + w(b[k])
  {
    if k == 0 {
      assert a[1..] == b[1..];
    } else {
      SumReplace(a[1..], b[1..], k - 1, w);
    }
  }

  lemma {:induction false} FindLine(lines: seq<Line>, id: string) returns (k: nat)
    requires HasLine(lines, id) && UniqueIds(lines)
    ensures k < |lines| && lines[k].product.id == id
    ensures forall i :: 0 <= i < |lines| && i != k ==> lines[i].product.id != id
  {
    k :| k < |lines| && lines[k].product.id == id;
  }

  /** With unique ids, adding `quantity` of a product raises `cartCount` by exactly
      `quantity`, and `cartTotal` by `quantity` units of the price on the line:
      the existing line's price when the product was there already. */
  lemma AddedSums(lines: seq<Line>, p: Product, quantity: int)
    requires UniqueIds(lines)
    ensures CountOf(Added(lines, p, quantity)) == CountOf(lines) + quantity
    ensures !HasLine(lines, p.id) ==>
      TotalOf(Added(lines, p, quantity)) == TotalOf(lines) + p.offerPrice * quantity
    ensures forall k :: 0 <= k < |lines| && lines[k].product.id == p.id ==>
      TotalOf(Added(lines, p, quantity)) == TotalOf(lines) + lines[k].product.offerPrice * quantity
  {
    var r := Added(lines, p, quantity);
    if HasLine(lines, p.id) {
      var k := FindLine(lines, p.id);
      SumReplace(lines, r, k, LineQuantity);
      SumReplace(lines, r, k, LineAmount);
      assert LineAmount(r[k]) == LineAmount(lines[k]) + lines[k].product.offerPrice * quantity;
    } else {
      SumConcat(lines, [Line(p, quantity)], LineQuantity);
      SumConcat(lines, [Line(p, quantity)], LineAmount);
    }
  }

  /** Adding with a quantity that is not positive keeps the line: a line can be left
      holding zero or fewer units (the product modal's minus button adds -1). */
  lemma AddedKeepsNonPositiveLine(p: Product)
    ensures Added([Line(p, 1)], p, -1) == [Line(p, 0)]
    ensures Added([Line(p, 0)], p, -1) == [Line(p, -1)]
  {
    assert [Line(p, 1)][0].product.id == p.id;
    assert [Line(p, 0)][0].product.id == p.id;
  }

  /** Adding to a cart that holds only that product's line grows the line. */
  lemma AddedToSingle(p: Product, a: int, b: int)
    ensures Added([Line(p, a)], p, b) == [Line(p, a + b)]
  {
    assert [Line(p, a)][0].product.id == p.id;
  }

  /** Repeated adds of one product leave a single line whose quantity is the sum
      of all the requested quantities. */
  lemma {:induction false} AddedRepeatedly(p: Product, qs: seq<int>)
    requires |qs| >= 1
    ensures AddAll([], p, qs) == [Line(p, Sum(qs, (q: int) => q))]
  {
    var id := (q: int) => q;
    if |qs| == 1 {
      assert qs[..0] == [];
      assert Sum(qs, id) == qs[0] + Sum(qs[1..], id);
    } else {
      var init := qs[..|qs| - 1];
      var last := qs[|qs| - 1];
      AddedRepeatedly(p, init);
      AddedToSingle(p, Sum(init, id), last);
      assert qs == init + [last];
      SumConcat(init, [last], id);
      SumSingle(last, id);
    }
  }

  /** The cart after `addToCart(p, q)` for each `q` of `qs` in turn. */
  function AddAll(lines: seq<Line>, p: Product, qs: seq<int>): seq<Line>
  {
    if qs == [] then lines else Added(AddAll(lines, p, qs[..|qs| - 1]), p, qs[|qs| - 1])
  }

  /** Removing an id that no line carries changes nothing. */
  lemma RemovedAbsent(lines: seq<Line>, id: string)
    requires !HasLine(lines, id)
    ensures Removed(lines, id) == lines
  {
    FilterKeepsAll(lines, (l: Line) => l.product.id != id);
  }

  /** `updateQuantity` with a value of at least 1 keeps every quantity positive. */
  lemma RequantifiedPositive(lines: seq<Line>, id: string, quantity: int)
    requires PositiveQuantities(lines) && quantity >= 1
    ensures PositiveQuantities(Requantified(lines, id, quantity))
  {
  }

  /** The store held by the cart provider. */
  class Cart {
    var lines: seq<Line>

    /** The provider starts from the saved cart (empty when none was saved). */
    constructor (saved: seq<Line>)
      ensures lines == saved
    {
      lines := saved;
    }

    method AddToCart(p: Product, quantity: int)
      modifies this
      ensures lines == Added(old(lines), p, quantity)
    {
      lines := Added(lines, p, quantity);
    }

    method RemoveFromCart(id: string)
      modifies this
      ensures lines == Removed(old(lines), id)
    {
      lines := Removed(lines, id);
    }

    /** A quantity below 1 is ignored. */
    method UpdateQuantity(id: string, quantity: int)
      modifies this
      ensures quantity < 1 ==> lines == old(lines)
      ensures quantity >= 1 ==> lines == Requantified(old(lines), id, quantity)
    {
      if quantity < 1 {
        return;
      }
      lines := Requantified(lines, id, quantity);
    }

    /** `cartTotal` of the current lines. */
    function CartTotal(): (r: int)
      reads this
      ensures r == TotalOf(lines)
    {
      TotalOf(lines)
    }

    /** `cartCount` of the current lines. */
    function CartCount(): (r: int)
      reads this
      ensures r == CountOf(lines)
    {
      CountOf(lines)
    }
  }
}
