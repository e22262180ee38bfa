/** The JSON records the storefront passes around. A missing text field and an
    empty one are both "", a missing number is 0 (both are falsy under `||`);
    the two flags whose absence matters are `Option<bool>`. */
module Records {
  import opened Js

  /** A catalog product as served by the `ring`, `necklace` and `bracelets`
      collections, with the alternative field names some records use. */
  datatype Product = Product(
    id: string,
    altId: string,          // `_id`
    productId: string,
    name: string,
    title: string,
    category: string,
    offerPrice: int,
    price: int,
    originalPrice: int,
    image: string,
    img: string,
    description: string,
    desc: string,
    metal: string,
    material: string,
    stock: int,
    quantity: int,
    isActive: Option<bool>,
    createdAt: int)         // an abstract timestamp

  /** A product record with no fields set. */
  function BlankProduct(): (p: Product)
    ensures p.id == "" && p.name == "" && p.offerPrice == 0 && p.stock == 0 && p.isActive == None
  {
    Product("", "", "", "", "", "", 0, 0, 0, "", "", "", "", "", "", 0, 0, None, 0)
  }

  /** A cart line, and an order item: the product spread with its `quantity`. */
  datatype Line = Line(product: Product, quantity: int)

  /** An order as POSTed by the payment page and read back by the admin views.
      `date` and `createdAt` are abstract timestamps, 0 when absent. */
  datatype Order = Order(
    id: string,
    userName: string,
    userEmail: string,
    items: seq<Line>,
    total: int,
    status: string,
    date: int,
    createdAt: int)

  /** A registered account. */
  datatype User = User(
    id: string,
    name: string,
    email: string,
    role: string,
    isActive: Option<bool>,
    isBlocked: Option<bool>,
    createdAt: int)

  /** The product handed to the payment page by a "Buy Now" button. */
  datatype Snapshot = Snapshot(id: string, name: string, offerPrice: int, image: string, description: string)

  /** The navigation state `/payment` is reached with: none at all, the cart
      page's `{ items, total }`, or a "Buy Now" button's `{ product }`. */
  datatype NavState = NoState | Purchase(items: seq<Line>, total: int) | BuyNow(product: Snapshot)

  /** A value is truthy in JavaScript: `Some(true)`, not absent or false. */
  predicate Truthy(b: Option<bool>)
  {
    b == Some(true)
  }
}
