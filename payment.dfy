/** `PaymentPage`: what it shows for the navigation state it is reached with,
    and `handlePayment`, which checks the form and the stored user and builds
    the order record. */
module Payment {
  import opened Js
  import opened Records
  import opened Seqs
  import CartStore

  datatype PaymentForm = PaymentForm(name: string, address: string, city: string, phone: string, paymentMethod: string)

  /** The form starts empty, paying cash on delivery. */
  function InitialForm(): (f: PaymentForm)
    ensures f.name == "" && f.address == "" && f.city == "" && f.phone == ""
    ensures f.paymentMethod == "cod"
  {
    PaymentForm("", "", "", "", "cod")
  }

  /** What the page renders: it throws while rendering, says there is nothing
      to pay for, or shows the summary and the form. */
  datatype PageView = Crashes | NoItems | CheckoutForm(items: seq<Line>, total: int)

  /** `const { items, total } = location.state || { items: [], total: 0 }`:
      `None` is `undefined`, which a "Buy Now" state `{ product }` leaves both
      names. */
  function ItemsAsWritten(nav: NavState): (r: Option<seq<Line>>)
    ensures nav.NoState? ==> r == Some([])
    ensures nav.Purchase? ==> r == Some(nav.items)
    ensures nav.BuyNow? ==> r == None
  {
    match nav
    case NoState => Some([])
    case Purchase(items, _) => Some(items)
    case BuyNow(_) => None
  }

  function TotalAsWritten(nav: NavState): Option<int>
  {
    match nav
    case NoState => Some(0)
    case Purchase(_, total) => Some(total)
    case BuyNow(_) => None
  }

  /** The page as written: `items.length` on `undefined` throws. */
  function ViewAsWritten(nav: NavState): PageView
  {
    match ItemsAsWritten(nav)
    case None => Crashes
    case Some(items) =>
      if |items| == 0 then NoItems
      else CheckoutForm(items, if TotalAsWritten(nav).Some? then TotalAsWritten(nav).value else 0)
  }

  /** The cart page's state is shown as handed over, an absent state shows the
      no-items view, and every "Buy Now" arrival crashes the page. */
  lemma ViewAsWrittenCases(nav: NavState)
    ensures nav.NoState? ==> ViewAsWritten(nav) == NoItems
    ensures nav.Purchase? && nav.items == [] ==> ViewAsWritten(nav) == NoItems
    ensures nav.Purchase? && nav.items != [] ==> ViewAsWritten(nav) == CheckoutForm(nav.items, nav.total)
    ensures nav.BuyNow? ==> ViewAsWritten(nav) == Crashes
  {
  }

  /** The line a "Buy Now" snapshot stands for: one unit of a product that has
      the snapshot's five fields and nothing else. */
  function SnapshotLine(s: Snapshot): (l: Line)
    ensures l.quantity == 1
    ensures l.product.id == s.id && l.product.name == s.name && l.product.offerPrice == s.offerPrice
    ensures l.product.image == s.image && l.product.description == s.description
  {
    Line(BlankProduct().(id := s.id, name := s.name, offerPrice := s.offerPrice, image := s.image, description := s.description), 1)
  }

  /** The state read as evidently intended: a "Buy Now" product is one line of
      one unit at its offer price. */
  function Arrival(nav: NavState): (r: (seq<Line>, int))
    ensures nav.NoState? ==> r == ([], 0)
    ensures nav.Purchase? ==> r == (nav.items, nav.total)
    ensures nav.BuyNow? ==> r == ([SnapshotLine(nav.product)], nav.product.offerPrice)
  {
    match nav
    case NoState => ([], 0)
    case Purchase(items, total) => (items, total)
    case BuyNow(s) => ([SnapshotLine(s)], s.offerPrice)
  }

  function View(nav: NavState): PageView
  {
    var (items, total) := Arrival(nav);
    if |items| == 0 then NoItems else CheckoutForm(items, total)
  }

  /** The corrected page never crashes, agrees with the page as written wherever
      that one renders, shows a "Buy Now" product as one unit, and, for a state
      whose total is the cart total of its items, shows a total that matches
      its items. */
  lemma ViewSpec(nav: NavState)
    ensures View(nav) != Crashes
    ensures ViewAsWritten(nav) != Crashes ==> View(nav) == ViewAsWritten(nav)
    ensures nav.BuyNow? ==> View(nav) == CheckoutForm([SnapshotLine(nav.product)], nav.product.offerPrice)
    ensures View(nav).CheckoutForm? && (nav.BuyNow? || (nav.Purchase? && nav.total == CartStore.TotalOf(nav.items))) ==>
      View(nav).total == CartStore.TotalOf(View(nav).items)
  {
    if nav.BuyNow? {
      SumSingle(SnapshotLine(nav.product), CartStore.LineAmount);
    }
  }

  /** Why `handlePayment` stopped, or the order it built. */
  datatype PaymentOutcome = MissingFields | NeedLogin | Placed(order: Order)

  /** `handlePayment`, given the stored user and, for the order's `date`, the
      time of submission. */
  function HandlePayment(form: PaymentForm, storedUser: Option<User>, items: seq<Line>, total: int, now: int): (r: PaymentOutcome)
    ensures r == MissingFields <==> form.name == "" || form.address == "" || form.city == "" || form.phone == ""
    ensures r == NeedLogin <==> !(form.name == "" || form.address == "" || form.city == "" || form.phone == "") && storedUser.None?
    ensures r.Placed? ==>
      storedUser.Some? &&
      r.order.userEmail == storedUser.value.email && r.order.userName == storedUser.value.name &&
      r.order.items == items && r.order.total == total && r.order.status == "pending" && r.order.date == now
  {
    if form.name == "" || form.address == "" || form.city == "" || form.phone == "" then MissingFields
    else if storedUser.None? then NeedLogin
    else
      var user := storedUser.value;
      Placed(Order("", user.name, user.email, items, total, "pending", now, 0))
  }

  /** The chosen payment method never reaches the order. */
  lemma PaymentMethodIgnored(form: PaymentForm, m: string, storedUser: Option<User>, items: seq<Line>, total: int, now: int)
    ensures HandlePayment(form.(paymentMethod := m), storedUser, items, total, now) == HandlePayment(form, storedUser, items, total, now)
  {
  }
}
