/** `ProductsManagement`: the admin's product list, built from the three
    collections, its search and category filter, the add/edit form, delete,
    and the product counts. */
module ProductsAdmin {
  import opened Js
  import opened Records
  import opened Seqs
  import opened Sorting

  /** `endpoint.split('/').pop()`. */
  function LastSegment(endpoint: string): string
  {
    var parts := Split(endpoint, '/');
    parts[|parts| - 1]
  }

  lemma {:induction false} SplitNoSeparator(c: string, sep: char)
    requires sep !in c
    ensures Split(c, sep) == [c]
  {
    if c != [] {
      assert c[0] in c;
      SplitNoSeparator(c[1..], sep);
      assert [c[0]] + c[1..] == c;
    }
  }

  lemma {:induction false} SplitLastPiece(s: string, sep: char, c: string)
    requires sep !in c
    ensures var parts := Split(s + [sep] + c, sep); |parts| >= 2 && parts[|parts| - 1] == c
  {
    var x := s + [sep] + c;
    if s == [] {
      assert x[0] == sep && x[1..] == c;
      SplitNoSeparator(c, sep);
    } else {
      assert x[1..] == s[1..] + [sep] + c;
      SplitLastPiece(s[1..], sep, c);
    }
  }

  /** The collection a product was fetched from. */
  function Endpoint(collection: string): string
  {
    "http://localhost:5000/" + collection
  }

  /** The category assigned is exactly the collection's name. */
  lemma CategoryOfEndpoint(collection: string)
    requires '/' !in collection
    ensures LastSegment(Endpoint(collection)) == collection
  {
    assert Endpoint(collection) == "http://localhost:5000" + ['/'] + collection;
    SplitLastPiece("http://localhost:5000", '/', collection);
  }

  /** The mapping applied to every fetched product. */
  function Normalized(p: Product, endpoint: string): (r: Product)
    ensures r.category == LastSegment(endpoint)
    ensures r.price == (if p.price != 0 then p.price else p.offerPrice)
    ensures r.image == (if p.image != "" then p.image else p.img)
    ensures r.description == (if p.description != "" then p.description else p.desc)
    ensures r.metal == (if p.metal != "" then p.metal else p.material)
    ensures r.stock == (if p.stock != 0 then p.stock else p.quantity)
    ensures r.(category := p.category, price := p.price, image := p.image, description := p.description,
               metal := p.metal, stock := p.stock) == p
  {
    p.(category := LastSegment(endpoint),
       price := OrNum(p.price, p.offerPrice),
       originalPrice := OrNum(p.originalPrice, p.originalPrice),
       image := Or(p.image, p.img),
       description := Or(p.description, p.desc),
       metal := Or(p.metal, p.material),
       stock := OrNum(OrNum(p.stock, p.quantity), 0))
  }

  function NormalizedAll(ps: seq<Product>, endpoint: string): (r: seq<Product>)
    ensures |r| == |ps|
    ensures forall i :: 0 <= i < |ps| ==> r[i] == Normalized(ps[i], endpoint)
  {
    seq(|ps|, i requires 0 <= i < |ps| => Normalized(ps[i], endpoint))
  }

  /** `responses.flatMap(...)` over the ring, necklace and bracelets answers. */
  function Combined(ring: seq<Product>, necklace: seq<Product>, bracelets: seq<Product>): seq<Product>
  {
    NormalizedAll(ring, Endpoint("ring")) + NormalizedAll(necklace, Endpoint("necklace")) +
    NormalizedAll(bracelets, Endpoint("bracelets"))
  }

  /** Every fetched product appears once, in collection order, with the
      category of the collection it came from. */
  lemma CombinedSpec(ring: seq<Product>, necklace: seq<Product>, bracelets: seq<Product>)
    ensures |Combined(ring, necklace, bracelets)| == |ring| + |necklace| + |bracelets|
    ensures forall i :: 0 <= i < |ring| ==> Combined(ring, necklace, bracelets)[i].category == "ring"
    ensures forall i :: |ring| <= i < |ring| + |necklace| ==> Combined(ring, necklace, bracelets)[i].category == "necklace"
    ensures forall i :: |ring| + |necklace| <= i < |Combined(ring, necklace, bracelets)| ==>
      Combined(ring, necklace, bracelets)[i].category == "bracelets"
  {
    CategoryOfEndpoint("ring");
    CategoryOfEndpoint("necklace");
    CategoryOfEndpoint("bracelets");
  }

  // The sample products' texts.
  const DiamondRingDescription := "Beautiful diamond ring for special occasions"
  const DiamondRingImage := "https://i.pinimg.com/736x/3c/e5/92/3ce592d081090b361711075fc9d9509e.jpg"
  const PearlNecklaceDescription := "Elegant pearl necklace for formal events"
  const PearlNecklaceImage := "https://i.pinimg.com/1200x/2e/1c/e0/2e1ce007d3004f2a39a109f70f0b0034.jpg"
  const SilverBraceletDescription := "Beautiful silver bracelet with intricate design"
  const SilverBraceletImage := "https://i.pinimg.com/736x/f4/88/bb/f488bb03ba82b125fea7276eed9b38ef.jpg"

  /** `getSampleProducts()`, created at `now`. */
  function SampleProducts(now: int): (r: seq<Product>)
    ensures |r| == 3
    ensures r[0].category == "ring" && r[1].category == "necklace" && r[2].category == "bracelets"
    ensures forall i :: 0 <= i < 3 ==> r[i].isActive == Some(true) && r[i].createdAt == now
  {
    var base := BlankProduct().(isActive := Some(true), createdAt := now);
    [base.(id := "1", name := "Diamond Ring", category := "ring", metal := "Diamond",
           description := DiamondRingDescription, originalPrice := 20000, price := 19000,
           image := DiamondRingImage, stock := 10),
     base.(id := "2", name := "Pearl Necklace", category := "necklace", metal := "Pearl",
           description := PearlNecklaceDescription, originalPrice := 2500, price := 2300,
           image := PearlNecklaceImage, stock := 8),
     base.(id := "3", name := "Silver Bracelet", category := "bracelets", metal := "Silver",
           description := SilverBraceletDescription, originalPrice := 1500, price := 1400,
           image := SilverBraceletImage, stock := 15)]
  }

  /** The add/edit form; the number fields hold 0 where the form holds "". */
  datatype ProductForm = ProductForm(
    name: string, price: int, originalPrice: int, image: string, description: string,
    category: string, metal: string, stock: int)

  /** The form after a submit or a cancel: empty, with category "ring". */
  function EmptyForm(): (f: ProductForm)
    ensures f.name == "" && f.price == 0 && f.originalPrice == 0 && f.image == "" && f.description == ""
    ensures f.category == "ring" && f.metal == "" && f.stock == 0
  {
    ProductForm("", 0, 0, "", "", "ring", "", 0)
  }

  /** `startEdit(product)`: the product's fields, with the form's defaults for
      the missing ones. */
  function FormOf(p: Product): (f: ProductForm)
    ensures f.name == p.name && f.price == p.price && f.originalPrice == p.originalPrice
    ensures f.image == p.image && f.description == p.description && f.metal == p.metal && f.stock == p.stock
    ensures f.category == (if p.category != "" then p.category else "ring")
  {
    ProductForm(p.name, p.price, OrNum(p.originalPrice, 0), p.image, Or(p.description, ""),
      Or(p.category, "ring"), Or(p.metal, ""), OrNum(p.stock, 0))
  }

  /** `{ ...p, ...form }`. */
  function Merged(p: Product, form: ProductForm): Product
  {
    p.(name := form.name, price := form.price, originalPrice := form.originalPrice, image := form.image,
       description := form.description, category := form.category, metal := form.metal, stock := form.stock)
  }

  /** Opening a product for editing and saving it unchanged gives back the
      product, except that a missing category becomes "ring". */
  lemma EditRoundTrip(p: Product)
    ensures p.category != "" ==> Merged(p, FormOf(p)) == p
    ensures Merged(p, FormOf(p)) == p.(category := Or(p.category, "ring"))
  {
  }

  /** `products.map(p => p.id === editingId ? { ...p, ...form } : p)`. */
  function Edited(products: seq<Product>, id: string, form: ProductForm): (r: seq<Product>)
    ensures |r| == |products|
    ensures forall i :: 0 <= i < |products| && products[i].id == id ==> r[i] == Merged(products[i], form)
    ensures forall i :: 0 <= i < |products| && products[i].id != id ==> r[i] == products[i]
  {
    seq(|products|, i requires 0 <= i < |products| =>
      if products[i].id == id then Merged(products[i], form) else products[i])
  }

  /** An edit keeps every product's id, active flag and creation time, and
      the edited product takes every form field. */
  lemma EditedSpec(products: seq<Product>, id: string, form: ProductForm)
    ensures forall i :: 0 <= i < |products| ==>
      var q := Edited(products, id, form)[i];
      q.id == products[i].id && q.isActive == products[i].isActive && q.createdAt == products[i].createdAt
    ensures forall i :: 0 <= i < |products| && products[i].id == id ==>
      FormOf(Edited(products, id, form)[i]) == form.(originalPrice := OrNum(form.originalPrice, 0),
        description := Or(form.description, ""), category := Or(form.category, "ring"),
        metal := Or(form.metal, ""), stock := OrNum(form.stock, 0))
  {
  }

  /** The product an add appends: the form's fields, the given `id`
      (`Date.now()` as text), active, created at `now`. */
  function NewProduct(form: ProductForm, id: string, now: int): (p: Product)
    ensures p.id == id && p.isActive == Some(true) && p.createdAt == now
    ensures p == Merged(BlankProduct(), form).(id := id, isActive := Some(true), createdAt := now)
  {
    Merged(BlankProduct(), form).(id := id, isActive := Some(true), createdAt := now)
  }

  function WithoutId(id: string): Product -> bool
  {
    (p: Product) => p.id != id
  }

  /** `products.filter(p => p.id !== id)`. */
  function Deleted(products: seq<Product>, id: string): seq<Product>
  {
    Filter(products, WithoutId(id))
  }

  /** A delete leaves no product with the id and keeps the others in order. */
  lemma DeletedSpec(products: seq<Product>, id: string)
    ensures forall i :: 0 <= i < |Deleted(products, id)| ==> Deleted(products, id)[i].id != id
    ensures forall p :: p in products && p.id != id <==> p in Deleted(products, id)
    ensures IsSubseq(Deleted(products, id), products)
  {
    var r := Deleted(products, id);
    forall i | 0 <= i < |r| ensures r[i].id != id {
      assert WithoutId(id)(r[i]);
    }
    forall p ensures p in products && p.id != id <==> p in r {
      FilterMember(products, WithoutId(id), p);
    }
  }

  /** The search: the name or description contains the term, ignoring case. */
  predicate MatchesSearch(term: string, p: Product)
  {
    IncludesIgnoringCase(p.name, term) || IncludesIgnoringCase(p.description, term)
  }

  predicate MatchesCategory(filter: string, p: Product)
  {
    filter == "all" || p.category == filter
  }

  function Shown(term: string, filter: string): Product -> bool
  {
    (p: Product) => MatchesSearch(term, p) && MatchesCategory(filter, p)
  }

  function Created(p: Product): int { p.createdAt }

  /** `filteredProducts`: the matching products, newest first. */
  function FilteredProducts(products: seq<Product>, term: string, filter: string): seq<Product>
  {
    Sort(Filter(products, Shown(term, filter)), ByNumberDescending(Created))
  }

  lemma FilteredProductsSpec(products: seq<Product>, term: string, filter: string)
    ensures multiset(FilteredProducts(products, term, filter)) == multiset(Filter(products, Shown(term, filter)))
    ensures forall p :: p in FilteredProducts(products, term, filter) <==>
      p in products && MatchesSearch(term, p) && MatchesCategory(filter, p)
    ensures forall i, j :: 0 <= i < j < |FilteredProducts(products, term, filter)| ==>
      FilteredProducts(products, term, filter)[i].createdAt >= FilteredProducts(products, term, filter)[j].createdAt
  {
    var kept := Filter(products, Shown(term, filter));
    var le := ByNumberDescending(Created);
    var r := Sort(kept, le);
    SortPermutes(kept, le);
    ByNumberDescendingPreorder(Created);
    SortSorted(kept, le);
    forall p ensures p in r <==> p in kept {
      assert p in multiset(r) <==> p in multiset(kept);
    }
    forall p ensures p in kept <==> p in products && Shown(term, filter)(p) {
      FilterMember(products, Shown(term, filter), p);
    }
    forall i, j | 0 <= i < j < |r| ensures r[i].createdAt >= r[j].createdAt {
      assert le(r[i], r[j]) == (Created(r[j]) <= Created(r[i]));
    }
  }

  datatype ProductsStats = ProductsStats(
    totalProducts: nat, ringProducts: nat, necklaceProducts: nat, braceletProducts: nat, activeProducts: nat)

  function CategoryTest(category: string): Product -> bool
  {
    (p: Product) => p.category == category
  }

  function ActiveTest(): Product -> bool
  {
    (p: Product) => Truthy(p.isActive)
  }

  /** `getProductsStats()`. */
  function Stats(products: seq<Product>): ProductsStats
  {
    ProductsStats(|products|, Count(products, CategoryTest("ring")), Count(products, CategoryTest("necklace")),
      Count(products, CategoryTest("bracelets")), Count(products, ActiveTest()))
  }

  /** A product has one category, so the three category counts fit in the
      total; they fill it exactly when every product is in one of the three. */
  lemma StatsSpec(products: seq<Product>)
    ensures var s := Stats(products); s.ringProducts + s.necklaceProducts + s.braceletProducts <= s.totalProducts
    ensures (forall i :: 0 <= i < |products| ==> products[i].category in {"ring", "necklace", "bracelets"}) ==>
      var s := Stats(products); s.ringProducts + s.necklaceProducts + s.braceletProducts == s.totalProducts
  {
    CategoryCounts(products);
  }

  /** The three category counts, and how many products have none of the three
      categories, add up to the number of products. */
  lemma {:induction false} CategoryCounts(products: seq<Product>)
    ensures Count(products, CategoryTest("ring")) + Count(products, CategoryTest("necklace")) +
      Count(products, CategoryTest("bracelets")) + Count(products, OtherTest()) == |products|
  {
    if products != [] {
      var rest := products[1..];
      CategoryCounts(rest);
      var c := products[0].category;
      assert Count(products, CategoryTest("ring")) == (if c == "ring" then 1 else 0) + Count(rest, CategoryTest("ring"));
      assert Count(products, CategoryTest("necklace")) ==
        (if c == "necklace" then 1 else 0) + Count(rest, CategoryTest("necklace"));
      assert Count(products, CategoryTest("bracelets")) ==
        (if c == "bracelets" then 1 else 0) + Count(rest, CategoryTest("bracelets"));
      assert Count(products, OtherTest()) ==
        (if c !in {"ring", "necklace", "bracelets"} then 1 else 0) + Count(rest, OtherTest());
    }
  }

  function OtherTest(): Product -> bool
  {
    (p: Product) => p.category !in {"ring", "necklace", "bracelets"}
  }

  /** The sample list has one product of each category, all active. */
  lemma SampleStats(now: int)
    ensures Stats(SampleProducts(now)) == ProductsStats(3, 1, 1, 1, 3)
  {
    var s := SampleProducts(now);
    assert s[1..][1..][1..] == [];
  }

  /** The admin's product list, the browser's stored copy, the form and the
      id being edited ("" when adding). */
  class ProductsView {
    var products: seq<Product>
    var stored: seq<Product>
    var form: ProductForm
    var editingId: string

    constructor (stored: seq<Product>)
      ensures products == [] && this.stored == stored && form == EmptyForm() && editingId == ""
    {
      products := [];
      this.stored := stored;
      form := EmptyForm();
      editingId := "";
    }

    /** The effect that writes a non-empty list to the stored copy. */
    method Persist()
      modifies this
      ensures |products| > 0 ==> stored == products
      ensures |products| == 0 ==> stored == old(stored)
      ensures products == old(products) && form == old(form) && editingId == old(editingId)
    {
      if |products| > 0 {
        stored := products;
      }
    }

    /** `fetchProducts`: the three collections when all of them answer;
        otherwise the stored copy, or the sample list when that is empty. A
        successful fetch and the sample list are written to the stored copy
        directly, even when empty; the save effect then runs on the new list. */
    method FetchProducts(answers: Option<(seq<Product>, seq<Product>, seq<Product>)>, now: int)
      modifies this
      ensures answers.Some? ==> products == Combined(answers.value.0, answers.value.1, answers.value.2)
      ensures answers.None? && |old(stored)| > 0 ==> products == old(stored)
      ensures answers.None? && |old(stored)| == 0 ==> products == SampleProducts(now)
      ensures stored == products
      ensures form == old(form) && editingId == old(editingId)
    {
      if answers.Some? {
        products := Combined(answers.value.0, answers.value.1, answers.value.2);
        stored := products;
      } else if |stored| == 0 {
        products := SampleProducts(now);
        stored := products;
      } else {
        products := stored;
      }
      Persist();
    }

    /** `handleSubmit`: an edit merges the form into the product being edited,
        an add appends a new product; both then reset the form. */
    method HandleSubmit(newId: string, now: int)
      modifies this
      ensures old(editingId) != "" ==> products == Edited(old(products), old(editingId), old(form))
      ensures old(editingId) == "" ==> products == old(products) + [NewProduct(old(form), newId, now)]
      ensures form == EmptyForm() && editingId == ""
      ensures |products| > 0 ==> stored == products
      ensures |products| == 0 ==> stored == old(stored)
    {
      if editingId != "" {
        products := Edited(products, editingId, form);
        editingId := "";
      } else {
        products := products + [NewProduct(form, newId, now)];
      }
      form := EmptyForm();
      Persist();
    }

    method StartEdit(p: Product)
      modifies this
      ensures form == FormOf(p) && editingId == p.id
      ensures products == old(products) && stored == old(stored)
    {
      form := FormOf(p);
      editingId := p.id;
    }

    method CancelEdit()
      modifies this
      ensures form == EmptyForm() && editingId == ""
      ensures products == old(products) && stored == old(stored)
    {
      editingId := "";
      form := EmptyForm();
    }

    /** `handleDelete(id, name)` after the dialog answered `confirmed`. */
    method HandleDelete(id: string, confirmed: bool)
      modifies this
      ensures confirmed ==> products == Deleted(old(products), id)
      ensures !confirmed ==> products == old(products)
      ensures confirmed && |products| > 0 ==> stored == products
      ensures !confirmed || |products| == 0 ==> stored == old(stored)
      ensures form == old(form) && editingId == old(editingId)
    {
      if confirmed {
        products := Deleted(products, id);
        Persist();
      }
    }
  }
}
