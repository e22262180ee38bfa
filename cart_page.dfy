/** The checkout selection of `CartPage`: which cart lines are ticked, what
    they cost, and "Buy Selected", which hands them to the payment page and
    takes them out of the cart. */
module CartPage {
  import opened Js
  import opened Records
  import opened Seqs
  import opened CartStore

  /** `toggleSelect(id)`: drops `id` when it is selected, appends it otherwise. */
  function Toggled(selected: seq<string>, id: string): (r: seq<string>)
    ensures id in selected ==> id !in r && |r| < |selected|
    ensures id !in selected ==> r == selected + [id]
    ensures forall x :: x != id ==> (x in r <==> x in selected)
  {
    if id in selected then
      var r := Filter(selected, (x: string) => x != id);
      assert |r| < |selected| by {
        var k :| 0 <= k < |selected| && selected[k] == id;
        FilterShorter(selected, (x: string) => x != id, k);
      }
      r
    else selected + [id]
  }

  /** Ticking a box twice restores whether it was ticked, and leaves every
      other box as it was. */
  lemma ToggledTwice(selected: seq<string>, id: string)
    ensures (id in Toggled(Toggled(selected, id), id)) == (id in selected)
    ensures forall x :: x != id ==> (x in Toggled(Toggled(selected, id), id) <==> x in selected)
  {
  }

  /** `cart.filter(item => selectedItems.includes(item.id))`. */
  function SelectedLines(lines: seq<Line>, selected: seq<string>): (r: seq<Line>)
    ensures IsSubseq(r, lines)
    ensures forall i :: 0 <= i < |r| ==> r[i].product.id in selected
    ensures forall i :: 0 <= i < |lines| && lines[i].product.id in selected ==> lines[i] in r
  {
    Filter(lines, (l: Line) => l.product.id in selected)
  }

  /** `totalAmount`: what the ticked lines cost. */
  function SelectedTotal(lines: seq<Line>, selected: seq<string>): int
  {
    TotalOf(SelectedLines(lines, selected))
  }

  /** Nothing ticked costs nothing; everything ticked costs the whole cart. */
  lemma SelectedTotalBounds(lines: seq<Line>, selected: seq<string>)
    ensures selected == [] ==> SelectedTotal(lines, selected) == 0
    ensures (forall i :: 0 <= i < |lines| ==> lines[i].product.id in selected) ==>
      SelectedTotal(lines, selected) == TotalOf(lines)
  {
    var f := (l: Line) => l.product.id in selected;
    if selected == [] {
      assert forall x :: x in lines ==> !f(x);
      assert Filter(lines, f) == [] by { FilterNone(lines, f); }
    }
    if forall i :: 0 <= i < |lines| ==> lines[i].product.id in selected {
      FilterKeepsAll(lines, f);
    }
  }

  /** The cart after `removeFromCart(id)` for each selected `id` in turn. */
  function RemovedAll(lines: seq<Line>, ids: seq<string>): seq<Line>
  {
    if ids == [] then lines else Removed(RemovedAll(lines, ids[..|ids| - 1]), ids[|ids| - 1])
  }

  /** Removing the selected ids one by one keeps exactly the lines that were
      not selected, in their order. */
  lemma {:induction false} RemovedAllIsFilter(lines: seq<Line>, ids: seq<string>)
    ensures RemovedAll(lines, ids) == Filter(lines, (l: Line) => l.product.id !in ids)
  {
    if ids == [] {
      FilterKeepsAll(lines, (l: Line) => l.product.id !in ids);
    } else {
      var init := ids[..|ids| - 1];
      var last := ids[|ids| - 1];
      RemovedAllIsFilter(lines, init);
      assert ids == init + [last];
      FilterTwice(lines, (l: Line) => l.product.id !in init, (l: Line) => l.product.id != last,
        (l: Line) => l.product.id !in ids);
    }
  }

  lemma RemovedAllStep(lines: seq<Line>, ids: seq<string>, i: nat)
    requires i < |ids|
    ensures RemovedAll(lines, ids[..i + 1]) == Removed(RemovedAll(lines, ids[..i]), ids[i])
  {
    assert ids[..i + 1][..i] == ids[..i];
  }

  /** Buying splits the cart: the purchased lines' total plus what stays in the
      cart is the old cart total. */
  lemma BuySplitsCart(lines: seq<Line>, selected: seq<string>)
    ensures SelectedTotal(lines, selected) + TotalOf(RemovedAll(lines, selected)) == TotalOf(lines)
  {
    var f := (l: Line) => l.product.id in selected;
    var g := (l: Line) => l.product.id !in selected;
    var kept := RemovedAll(lines, selected);
    var bought := SelectedLines(lines, selected);
    RemovedAllIsFilter(lines, selected);
    assert kept == Filter(lines, g);
    assert bought == Filter(lines, f);
    SumSplit(lines, f, g, LineAmount);
  }

  /** After buying, no purchased id is left in the cart. */
  lemma BuyLeavesNoSelected(lines: seq<Line>, selected: seq<string>, id: string)
    requires id in selected
    ensures !HasLine(RemovedAll(lines, selected), id)
  {
    RemovedAllIsFilter(lines, selected);
  }

  /** The page over the cart provider it renders. */
  class CartView {
    var selected: seq<string>
    const cart: Cart

    constructor (cart: Cart)
      ensures this.cart == cart && selected == []
    {
      this.cart := cart;
      selected := [];
    }

    method ToggleSelect(id: string)
      modifies this
      ensures selected == Toggled(old(selected), id)
    {
      selected := Toggled(selected, id);
    }

    /** "Buy Selected": with nothing ticked nothing happens; otherwise the ticked
        lines and their total go to the payment page, each ticked id is removed
        from the cart in the order ticked, and the selection is cleared. */
    method HandleBuy() returns (nav: Option<NavState>)
      modifies this, cart
      ensures old(selected) == [] ==>
        nav == None && selected == old(selected) && cart.lines == old(cart.lines)
      ensures old(selected) != [] ==>
        nav == Some(Purchase(SelectedLines(old(cart.lines), old(selected)),
                             SelectedTotal(old(cart.lines), old(selected)))) &&
        cart.lines == RemovedAll(old(cart.lines), old(selected)) &&
        selected == []
    {
      if |selected| == 0 {
        return None;
      }
      var purchased := SelectedLines(cart.lines, selected);
      var total := TotalOf(purchased);
      var ids := selected;
      ghost var before := cart.lines;
      var i := 0;
      while i < |ids|
        invariant 0 <= i <= |ids|
        invariant cart.lines == RemovedAll(before, ids[..i])
      {
        RemovedAllStep(before, ids, i);
        cart.RemoveFromCart(ids[i]);
        i := i + 1;
      }
      assert ids[..i] == ids;
      selected := [];
      nav := Some(Purchase(purchased, total));
    }

    /** The minus button: disabled at a quantity of one or less, otherwise asks
        for one less. The page never drives a quantity below one. */
    method Decrease(l: Line)
      modifies cart
      ensures l.quantity <= 1 ==> cart.lines == old(cart.lines)
      ensures l.quantity > 1 ==> cart.lines == Requantified(old(cart.lines), l.product.id, l.quantity - 1)
      ensures PositiveQuantities(old(cart.lines)) ==> PositiveQuantities(cart.lines)
    {
      if l.quantity <= 1 {
        return;
      }
      ghost var before := cart.lines;
      cart.UpdateQuantity(l.product.id, l.quantity - 1);
      RequantifiedPositiveWhen(before, l.product.id, l.quantity - 1);
    }

    /** The plus button asks for one more. */
    method Increase(l: Line)
      modifies cart
      ensures l.quantity + 1 >= 1 ==> cart.lines == Requantified(old(cart.lines), l.product.id, l.quantity + 1)
      ensures l.quantity + 1 < 1 ==> cart.lines == old(cart.lines)
      ensures PositiveQuantities(old(cart.lines)) ==> PositiveQuantities(cart.lines)
    {
      ghost var before := cart.lines;
      cart.UpdateQuantity(l.product.id, l.quantity + 1);
      if l.quantity + 1 >= 1 {
        RequantifiedPositiveWhen(before, l.product.id, l.quantity + 1);
      }
    }
  }

  lemma RequantifiedPositiveWhen(lines: seq<Line>, id: string, quantity: int)
    requires quantity >= 1
    ensures PositiveQuantities(lines) ==> PositiveQuantities(Requantified(lines, id, quantity))
  {
    if PositiveQuantities(lines) { RequantifiedPositive(lines, id, quantity); }
  }
}
