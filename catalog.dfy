/** The catalog pages `Products`, `Ring`, `Necklace` and `Bracelets`, which share
    one algorithm: optional category filter (all-products page only), one of
    three price bands, an optional stable sort, a reset to page 1, and 8
    products per page. */
module Catalog {
  import opened Js
  import opened Records
  import opened Seqs
  import opened Sorting
  import CartStore
  import W = WishlistStore

  /** `Products` offers a category filter, sorts names by `name || title`
      and keeps the saved page on its first run; the three collection pages
      have no category filter, sort names by `name || ""` and always reset. */
  datatype PageKind = AllProducts | Collection

  /** Products per page. */
  const PerPage := 8

  /** The test of price band `range`; "all" and any unknown value keep everything. */
  predicate BandKeeps(range: string, price: int)
  {
    if range == "0-500" then price <= 500
    else if range == "500-1000" then price > 500 && price <= 1000
    else if range == "1000+" then price > 1000
    else true
  }

  function BandTest(range: string): Product -> bool
  {
    (p: Product) => BandKeeps(range, p.offerPrice)
  }

  function CategoryTest(category: string): Product -> bool
  {
    (p: Product) => p.category == category
  }

  /** Every price lies in exactly one of the three bands. */
  lemma BandsPartition(price: int)
    ensures (if BandKeeps("0-500", price) then 1 else 0)
          + (if BandKeeps("500-1000", price) then 1 else 0)
          + (if BandKeeps("1000+", price) then 1 else 0) == 1
  {
  }

  /** The filters of the page, in the source's order. */
  function Filtered(kind: PageKind, products: seq<Product>, category: string, range: string): seq<Product>
  {
    var byCategory := if kind == AllProducts && category != "all" then Filter(products, CategoryTest(category)) else products;
    if range != "all" then Filter(byCategory, BandTest(range)) else byCategory
  }

  /** What passes the page's filters. */
  predicate Keeps(kind: PageKind, category: string, range: string, p: Product)
  {
    (kind == Collection || category == "all" || p.category == category) && BandKeeps(range, p.offerPrice)
  }

  /** The filtered list is the fetched list with exactly the products that pass
      dropped of those that do not, in their order. */
  lemma FilteredSpec(kind: PageKind, products: seq<Product>, category: string, range: string)
    ensures Filtered(kind, products, category, range) == Filter(products, p => Keeps(kind, category, range, p))
    ensures IsSubseq(Filtered(kind, products, category, range), products)
    ensures forall p :: p in Filtered(kind, products, category, range) <==> p in products && Keeps(kind, category, range, p)
  {
    var keep := (p: Product) => Keeps(kind, category, range, p);
    var byCategory := if kind == AllProducts && category != "all" then Filter(products, CategoryTest(category)) else products;
    if kind == AllProducts && category != "all" {
      if range != "all" {
        FilterTwice(products, CategoryTest(category), BandTest(range), keep);
      } else {
        FilterAgree(products, CategoryTest(category), keep);
      }
    } else {
      if range != "all" {
        FilterAgree(products, BandTest(range), keep);
      } else {
        FilterKeepsAll(products, keep);
      }
    }
    FilterKeepsAll(Filter(products, keep), keep);
    forall p ensures p in Filter(products, keep) <==> p in products && keep(p) {
      FilterMember(products, keep, p);
    }
  }

  /** The text the name sort compares. */
  function NameKey(kind: PageKind, p: Product): (k: string)
    ensures p.name != "" ==> k == p.name
    ensures p.name == "" && kind == AllProducts ==> k == p.title
    ensures p.name == "" && kind == Collection ==> k == ""
  {
    if kind == AllProducts then Or(p.name, p.title) else Or(p.name, "")
  }

  function PriceAscending(): (Product, Product) -> bool
  {
    (a: Product, b: Product) => a.offerPrice <= b.offerPrice
  }

  function PriceDescending(): (Product, Product) -> bool
  {
    (a: Product, b: Product) => b.offerPrice <= a.offerPrice
  }

  function NameAscending(kind: PageKind): (Product, Product) -> bool
  {
    (a: Product, b: Product) => LexLe(NameKey(kind, a), NameKey(kind, b))
  }

  /** The comparator for a sort option; "default" and any unknown option sort nothing. */
  function Comparator(kind: PageKind, sort: string): Option<(Product, Product) -> bool>
  {
    if sort == "price-low-high" then Some(PriceAscending())
    else if sort == "price-high-low" then Some(PriceDescending())
    else if sort == "name-az" then Some(NameAscending(kind))
    else None
  }

  /** Each comparator is a total preorder, so the stable sort's result is ordered by it. */
  lemma ComparatorPreorder(kind: PageKind, sort: string)
    requires Comparator(kind, sort).Some?
    ensures Total(Comparator(kind, sort).value) && Transitive(Comparator(kind, sort).value)
  {
    if sort == "name-az" {
      var le := NameAscending(kind);
      forall x, y ensures le(x, y) || le(y, x) { LexTotal(NameKey(kind, x), NameKey(kind, y)); }
      forall x, y, z | le(x, y) && le(y, z) ensures le(x, z) {
        LexTransitive(NameKey(kind, x), NameKey(kind, y), NameKey(kind, z));
      }
    }
  }

  /** The list the page shows across its pages. */
  function Listing(kind: PageKind, products: seq<Product>, category: string, range: string, sort: string): seq<Product>
  {
    var f := Filtered(kind, products, category, range);
    match Comparator(kind, sort)
    case None => f
    case Some(le) => Sort(f, le)
  }

  /** The listing rearranges the filtered products; price sorts order them by
      `offerPrice`, the name sort by name, and "default" keeps the filtered order.
      Every sort is stable: products the comparator ties (equal price, or equal
      name) keep the filtered order. */
  lemma ListingSpec(kind: PageKind, products: seq<Product>, category: string, range: string, sort: string)
    ensures multiset(Listing(kind, products, category, range, sort)) == multiset(Filtered(kind, products, category, range))
    ensures Comparator(kind, sort).None? ==> Listing(kind, products, category, range, sort) == Filtered(kind, products, category, range)
    ensures sort == "price-low-high" ==> forall i, j :: 0 <= i < j < |Listing(kind, products, category, range, sort)| ==>
      Listing(kind, products, category, range, sort)[i].offerPrice <= Listing(kind, products, category, range, sort)[j].offerPrice
    ensures sort == "price-high-low" ==> forall i, j :: 0 <= i < j < |Listing(kind, products, category, range, sort)| ==>
      Listing(kind, products, category, range, sort)[i].offerPrice >= Listing(kind, products, category, range, sort)[j].offerPrice
    ensures sort == "name-az" ==> SortedBy(Listing(kind, products, category, range, sort), NameAscending(kind))
    ensures Comparator(kind, sort).Some? ==> forall y ::
      Filter(Listing(kind, products, category, range, sort), Ties(Comparator(kind, sort).value, y)) ==
      Filter(Filtered(kind, products, category, range), Ties(Comparator(kind, sort).value, y))
  {
    var f := Filtered(kind, products, category, range);
    if Comparator(kind, sort).Some? {
      var le := Comparator(kind, sort).value;
      SortPermutes(f, le);
      ComparatorPreorder(kind, sort);
      SortSorted(f, le);
      forall y ensures Filter(Sort(f, le), Ties(le, y)) == Filter(f, Ties(le, y)) {
        SortStable(f, le, y);
      }
    }
  }

  /** The filter effect's body: `temp` is rebound through the filters and then
      sorted in place. */
  method ApplyFilters(kind: PageKind, products: seq<Product>, category: string, range: string, sort: string)
    returns (temp: seq<Product>)
    ensures temp == Listing(kind, products, category, range, sort)
  {
    temp := products;
    if kind == AllProducts && category != "all" {
      temp := Filter(temp, CategoryTest(category));
    }
    if range != "all" {
      temp := Filter(temp, BandTest(range));
    }
    var le := Comparator(kind, sort);
    if le.Some? {
      temp := SortCopy(temp, le.value);
    }
  }

  /** `Math.ceil(n / 8)`. */
  function TotalPages(n: nat): (r: nat)
    ensures r * PerPage >= n
    ensures n > 0 ==> (r - 1) * PerPage < n
    ensures n == 0 ==> r == 0
  {
    (n + PerPage - 1) / PerPage
  }

  /** `list.slice(indexOfFirst, indexOfLast)` for `currentPage` `page`. */
  function PageOf<T>(s: seq<T>, page: int): seq<T>
  {
    Slice(s, (page - 1) * PerPage, page * PerPage)
  }

  /** A page holds at most 8 products, a page from 1 up is the matching window
      of the list, and a page beyond the last is empty. */
  lemma PageBounds<T>(s: seq<T>, page: int)
    requires page >= 1
    ensures |PageOf(s, page)| <= PerPage
    ensures page <= TotalPages(|s|) ==> PageOf(s, page) == s[(page - 1) * PerPage..if page * PerPage <= |s| then page * PerPage else |s|]
    ensures page <= TotalPages(|s|) ==> PageOf(s, page) != []
    ensures page > TotalPages(|s|) ==> PageOf(s, page) == []
  {
    SliceLength(s, (page - 1) * PerPage, page * PerPage);
  }

  /** Pages 1 to k, one after another. */
  function Pages<T>(s: seq<T>, k: nat): seq<T>
  {
    if k == 0 then [] else Pages(s, k - 1) + PageOf(s, k)
  }

  /** Pages 1 to k cover the first 8k products (or all of them). */
  lemma {:induction false} PagesPrefix<T>(s: seq<T>, k: nat)
    ensures Pages(s, k) == s[..if k * PerPage <= |s| then k * PerPage else |s|]
  {
    if k > 0 {
      PagesPrefix(s, k - 1);
      var lo := if (k - 1) * PerPage <= |s| then (k - 1) * PerPage else |s|;
      var hi := if k * PerPage <= |s| then k * PerPage else |s|;
      assert PageOf(s, k) == s[lo..hi];
      assert s[..lo] + s[lo..hi] == s[..hi];
    }
  }

  /** Reading every page from 1 to `totalPages` gives back the whole list. */
  lemma PagesCoverListing<T>(s: seq<T>)
    ensures Pages(s, TotalPages(|s|)) == s
  {
    PagesPrefix(s, TotalPages(|s|));
  }

  /** `isInCart(id)`: some cart line carries the id. */
  function IsInCart(lines: seq<Line>, id: string): (r: bool)
    ensures r <==> exists i :: 0 <= i < |lines| && lines[i].product.id == id
  {
    CartStore.HasLine(lines, id)
  }

  /** The pages' own `isInWishlist(id)`, which compares `id` only (not `_id`). */
  predicate ShownInWishlist(items: seq<Product>, id: string)
  {
    exists i :: 0 <= i < |items| && items[i].id == id
  }

  /** `handleWishlistClick(item)` on the wishlist it finds. */
  function WishlistClicked(items: seq<Product>, item: Product): seq<Product>
  {
    if ShownInWishlist(items, item.id) then W.Removed(items, item.id) else W.Added(items, item)
  }

  /** For a product with an `id`, the heart shows it listed after one click exactly
      when it was not before, and two clicks restore whether it shows. */
  lemma WishlistClickToggles(items: seq<Product>, item: Product)
    requires item.id != ""
    ensures !ShownInWishlist(items, item.id) && !W.Listed(items, item.id) ==>
      ShownInWishlist(WishlistClicked(items, item), item.id)
    ensures ShownInWishlist(items, item.id) ==> !ShownInWishlist(WishlistClicked(items, item), item.id)
    ensures ShownInWishlist(WishlistClicked(WishlistClicked(items, item), item), item.id) == ShownInWishlist(items, item.id)
  {
    var once := WishlistClicked(items, item);
    assert W.Key(item) == item.id;
    if ShownInWishlist(items, item.id) {
      NotShownAfterRemove(items, item.id);
      assert !W.Listed(once, item.id);
      assert W.Added(once, item) == once + [item];
      assert (once + [item])[|once|].id == item.id;
    } else if !W.Listed(items, item.id) {
      assert once == items + [item];
      assert once[|items|].id == item.id;
      NotShownAfterRemove(once, item.id);
    } else {
      assert once == items;
    }
  }

  lemma NotShownAfterRemove(items: seq<Product>, id: string)
    requires id != ""
    ensures !ShownInWishlist(W.Removed(items, id), id)
  {
    var r := W.Removed(items, id);
    forall i | 0 <= i < |r| ensures r[i].id != id {
      if r[i].id == id {
        assert W.Key(r[i]) == id;
        assert W.Listed(r, id);
      }
    }
  }

  /** `handleBuyNow(item)`: the five fields the "Buy Now" button passes on. */
  function BuyNowSnapshot(item: Product): (s: Snapshot)
    ensures s.id == item.id && s.name == item.name && s.offerPrice == item.offerPrice
    ensures s.image == item.image && s.description == item.description
  {
    Snapshot(item.id, item.name, item.offerPrice, item.image, item.description)
  }

  /** One catalog page: its fetched products, its controls, the shown list and
      the current page, over the two provider stores. */
  class CatalogView {
    const kind: PageKind
    const cart: CartStore.Cart
    const wishlist: W.Wishlist
    var products: seq<Product>
    var category: string
    var range: string
    var sort: string
    var shown: seq<Product>
    var page: int
    var mounted: bool

    /** The all-products page restores its controls and page (a saved page of 0
        or none becomes 1) and the collection pages start from "all",
        "default" and page 1; no products are there before the fetch. */
    constructor (kind: PageKind, cart: CartStore.Cart, wishlist: W.Wishlist,
                 savedCategory: string, savedRange: string, savedSort: string, savedPage: int)
      ensures this.kind == kind && this.cart == cart && this.wishlist == wishlist
      ensures products == [] && shown == [] && !mounted
      ensures kind == AllProducts ==>
        category == Or(savedCategory, "all") && range == Or(savedRange, "all") &&
        sort == Or(savedSort, "default") && page == OrNum(savedPage, 1)
      ensures kind == Collection ==> category == "all" && range == "all" && sort == "default" && page == 1
    {
      this.kind := kind;
      this.cart := cart;
      this.wishlist := wishlist;
      products := [];
      shown := [];
      mounted := false;
      if kind == AllProducts {
        category := Or(savedCategory, "all");
        range := Or(savedRange, "all");
        sort := Or(savedSort, "default");
        page := OrNum(savedPage, 1);
      } else {
        category := "all";
        range := "all";
        sort := "default";
        page := 1;
      }
    }

    /** The filter effect, run on mount and whenever the products or a control
        change: recompute the listing, then return to page 1, except on the
        all-products page's first run. */
    method Refilter()
      modifies this
      ensures shown == Listing(kind, products, category, range, sort)
      ensures mounted
      ensures kind == Collection || old(mounted) ==> page == 1
      ensures kind == AllProducts && !old(mounted) ==> page == old(page)
      ensures products == old(products) && category == old(category)
      ensures range == old(range) && sort == old(sort)
    {
      shown := ApplyFilters(kind, products, category, range, sort);
      if kind == Collection {
        page := 1;
      } else if mounted {
        page := 1;
      } else {
        mounted := true;
      }
      mounted := true;
    }

    /** New products arrive or a control changes, and the effect runs. */
    method Change(newProducts: seq<Product>, newCategory: string, newRange: string, newSort: string)
      modifies this
      ensures products == newProducts && category == newCategory && range == newRange && sort == newSort
      ensures shown == Listing(kind, newProducts, newCategory, newRange, newSort)
      ensures kind == Collection || old(mounted) ==> page == 1
      ensures kind == AllProducts && !old(mounted) ==> page == old(page)
      ensures mounted
    {
      products, category, range, sort := newProducts, newCategory, newRange, newSort;
      Refilter();
    }

    /** A pagination button. */
    method GoToPage(p: int)
      modifies this
      ensures page == p
      ensures shown == old(shown) && products == old(products) && mounted == old(mounted)
    {
      page := p;
    }

    /** The products on the current page: at most eight, and none past the
        last page. */
    function CurrentProducts(): (r: seq<Product>)
      reads this
      ensures r == PageOf(shown, page)
      ensures page >= 1 ==> |r| <= PerPage && (page > TotalPages(|shown|) ==> r == [])
    {
      if page >= 1 then (PageBounds(shown, page); PageOf(shown, page)) else PageOf(shown, page)
    }

    /** "Add to Cart" on a card or in the product modal. */
    method AddClicked(item: Product)
      modifies cart
      ensures cart.lines == CartStore.Added(old(cart.lines), item, 1)
    {
      cart.AddToCart(item, 1);
    }

    /** The all-products modal's minus button, which adds -1 units. */
    method MinusClicked(item: Product)
      modifies cart
      ensures cart.lines == CartStore.Added(old(cart.lines), item, -1)
    {
      cart.AddToCart(item, -1);
    }

    /** The heart button. */
    method WishlistClick(item: Product)
      modifies wishlist
      ensures wishlist.items == WishlistClicked(old(wishlist.items), item)
    {
      if ShownInWishlist(wishlist.items, item.id) {
        wishlist.RemoveFromWishlist(item.id);
      } else {
        wishlist.AddToWishlist(item);
      }
    }
  }

  /** On the all-products page, the saved page survives only until the fetched
      products arrive: the mount run keeps it, the run the fetch triggers
      resets it to 1. */
  method MountThenLoad(cart: CartStore.Cart, wishlist: W.Wishlist, savedPage: int, fetched: seq<Product>)
    returns (view: CatalogView)
    ensures view.page == 1
    ensures view.shown == Listing(AllProducts, fetched, view.category, view.range, view.sort)
  {
    view := new CatalogView(AllProducts, cart, wishlist, "", "", "", savedPage);
    view.Refilter();
    assert view.page == OrNum(savedPage, 1);
    view.Change(fetched, view.category, view.range, view.sort);
  }
}
