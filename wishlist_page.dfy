/** `WishlistPage`: "Move to Cart" and "Remove" on the two provider stores. */
module WishlistPage {
  import opened Records
  import opened Seqs
  import opened CartStore
  import W = WishlistStore

  /** The page over the cart and wishlist providers. */
  class WishlistView {
    const cart: Cart
    const wishlist: W.Wishlist

    constructor (cart: Cart, wishlist: W.Wishlist)
      ensures this.cart == cart && this.wishlist == wishlist
    {
      this.cart := cart;
      this.wishlist := wishlist;
    }

    /** `moveToCart(item)`: one unit into the cart (the default quantity), then
        the item's key out of the wishlist. */
    method MoveToCart(item: Product)
      modifies cart, wishlist
      ensures cart.lines == Added(old(cart.lines), item, 1)
      ensures wishlist.items == W.Removed(old(wishlist.items), W.Key(item))
    {
      cart.AddToCart(item, 1);
      wishlist.RemoveFromWishlist(W.Key(item));
    }

    /** The Remove button: its second argument, the item's name, is ignored. */
    method RemoveClicked(item: Product, name: string)
      modifies wishlist
      ensures wishlist.items == W.Removed(old(wishlist.items), W.Key(item))
    {
      wishlist.RemoveFromWishlist(W.Key(item));
    }
  }

  /** What a move does to the two lists, in the stores' terms: the key leaves
      the wishlist (which shrinks when the key was listed), the other entries
      remain in order, and, with unique cart ids, the cart holds one more unit
      on the item's line. */
  lemma MoveEffect(lines: seq<Line>, items: seq<Product>, item: Product)
    requires CartStore.UniqueIds(lines)
    ensures !W.Listed(W.Removed(items, W.Key(item)), W.Key(item))
    ensures W.Listed(items, W.Key(item)) ==> |W.Removed(items, W.Key(item))| < |items|
    ensures IsSubseq(W.Removed(items, W.Key(item)), items)
    ensures HasLine(Added(lines, item, 1), item.id)
    ensures CountOf(Added(lines, item, 1)) == CountOf(lines) + 1
    ensures !HasLine(lines, item.id) ==> Added(lines, item, 1) == lines + [Line(item, 1)]
  {
    AddedSums(lines, item, 1);
    if W.Listed(items, W.Key(item)) {
      var k :| 0 <= k < |items| && W.Key(items[k]) == W.Key(item);
      FilterShorter(items, (p: Product) => W.Key(p) != W.Key(item), k);
    }
  }
}
