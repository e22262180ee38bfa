/** `OrdersManagement`: the admin's order list, its search and status filter,
    the status counts, and the status update applied to both the shown list
    and the stored copy. */
module OrdersAdmin {
  import opened Js
  import opened Records
  import opened Seqs
  import opened Sorting

  /** `orders.map(o => o.id === id ? { ...o, status } : o)`. */
  function WithStatus(orders: seq<Order>, id: string, status: string): (r: seq<Order>)
    ensures |r| == |orders|
    ensures forall i :: 0 <= i < |orders| && orders[i].id == id ==> r[i] == orders[i].(status := status)
    ensures forall i :: 0 <= i < |orders| && orders[i].id != id ==> r[i] == orders[i]
  {
    seq(|orders|, i requires 0 <= i < |orders| =>
      if orders[i].id == id then orders[i].(status := status) else orders[i])
  }

  /** Updating twice with the same status is updating once, and the orders of
      other ids and every field but the status stay as they were. */
  lemma WithStatusSpec(orders: seq<Order>, id: string, status: string)
    ensures WithStatus(WithStatus(orders, id, status), id, status) == WithStatus(orders, id, status)
    ensures forall i :: 0 <= i < |orders| ==>
      WithStatus(orders, id, status)[i].(status := orders[i].status) == orders[i]
    ensures forall i :: 0 <= i < |orders| ==>
      WithStatus(orders, id, status)[i].status == if orders[i].id == id then status else orders[i].status
  {
  }

  /** The search box: an empty term matches everything; otherwise the name,
      email or id contains the term, ignoring case. */
  predicate MatchesSearch(term: string, o: Order)
  {
    term == "" || IncludesIgnoringCase(o.userName, term) || IncludesIgnoringCase(o.userEmail, term) ||
    IncludesIgnoringCase(o.id, term)
  }

  predicate MatchesStatus(filter: string, o: Order)
  {
    filter == "all" || o.status == filter
  }

  function Shown(term: string, filter: string): Order -> bool
  {
    (o: Order) => MatchesSearch(term, o) && MatchesStatus(filter, o)
  }

  /** `new Date(o.createdAt || o.date)`, as an abstract timestamp. */
  function Placed(o: Order): int
  {
    OrNum(o.createdAt, o.date)
  }

  /** Newest first. */
  function NewestFirst(): (Order, Order) -> bool
  {
    (a: Order, b: Order) => Placed(b) <= Placed(a)
  }

  /** `filteredOrders`. */
  function FilteredOrders(orders: seq<Order>, term: string, filter: string): seq<Order>
  {
    Sort(Filter(orders, Shown(term, filter)), NewestFirst())
  }

  /** The listed orders are exactly the matching ones, newest first. */
  lemma FilteredOrdersSpec(orders: seq<Order>, term: string, filter: string)
    ensures multiset(FilteredOrders(orders, term, filter)) == multiset(Filter(orders, Shown(term, filter)))
    ensures forall o :: o in FilteredOrders(orders, term, filter) <==>
      o in orders && MatchesSearch(term, o) && MatchesStatus(filter, o)
    ensures forall i, j :: 0 <= i < j < |FilteredOrders(orders, term, filter)| ==>
      Placed(FilteredOrders(orders, term, filter)[i]) >= Placed(FilteredOrders(orders, term, filter)[j])
    ensures term == "" && filter == "all" ==> multiset(FilteredOrders(orders, term, filter)) == multiset(orders)
  {
    var kept := Filter(orders, Shown(term, filter));
    SortPermutes(kept, NewestFirst());
    SortSorted(kept, NewestFirst());
    forall o ensures o in FilteredOrders(orders, term, filter) <==> o in kept {
      assert o in multiset(FilteredOrders(orders, term, filter)) <==> o in multiset(kept);
    }
    forall o ensures o in kept <==> o in orders && Shown(term, filter)(o) {
      FilterMember(orders, Shown(term, filter), o);
    }
    if term == "" && filter == "all" {
      FilterKeepsAll(orders, Shown(term, filter));
    }
  }

  predicate HasStatus(status: string, o: Order)
  {
    o.status == status
  }

  function StatusTest(status: string): Order -> bool
  {
    (o: Order) => HasStatus(status, o)
  }

  datatype OrdersStats = OrdersStats(
    totalOrders: nat, pendingOrders: nat, processingOrders: nat, shippedOrders: nat,
    completedOrders: nat, cancelledOrders: nat, totalRevenue: int)

  function Revenue(o: Order): int
  {
    if o.status == "completed" then o.total else 0
  }

  function OrderTotal(o: Order): int
  {
    o.total
  }

  /** `getOrdersStats()`. */
  function Stats(orders: seq<Order>): OrdersStats
  {
    OrdersStats(
      |orders|,
      Count(orders, StatusTest("pending")),
      Count(orders, StatusTest("processing")),
      Count(orders, StatusTest("shipped")),
      Count(orders, StatusTest("completed")),
      Count(orders, StatusTest("cancelled")),
      Sum(Filter(orders, StatusTest("completed")), OrderTotal))
  }

  /** The five status counts never add up to more than the orders there are
      (an order has one status, and some may have none of the five), and the
      revenue counts the completed orders' totals and nothing else. */
  lemma {:induction false} StatsSpec(orders: seq<Order>)
    ensures var s := Stats(orders);
      s.pendingOrders + s.processingOrders + s.shippedOrders + s.completedOrders + s.cancelledOrders <= s.totalOrders
    ensures Stats(orders).totalRevenue == Sum(orders, Revenue)
  {
    if orders != [] {
      StatsSpec(orders[1..]);
    }
  }

  /** A status update never changes the number of orders; it can only raise
      the count of the new status and only lower the count of any other. */
  lemma UpdateKeepsTotal(orders: seq<Order>, id: string, status: string, other: string)
    ensures Stats(WithStatus(orders, id, status)).totalOrders == Stats(orders).totalOrders
    ensures Count(WithStatus(orders, id, status), StatusTest(status)) >= Count(orders, StatusTest(status))
    ensures other != status ==>
      Count(WithStatus(orders, id, status), StatusTest(other)) <= Count(orders, StatusTest(other))
  {
    UpdateCounts(orders, id, status, other);
  }

  lemma {:induction false} UpdateCounts(orders: seq<Order>, id: string, status: string, other: string)
    ensures Count(WithStatus(orders, id, status), StatusTest(status)) >= Count(orders, StatusTest(status))
    ensures other != status ==>
      Count(WithStatus(orders, id, status), StatusTest(other)) <= Count(orders, StatusTest(other))
  {
    if orders != [] {
      var r := WithStatus(orders, id, status);
      UpdateCounts(orders[1..], id, status, other);
      assert r[1..] == WithStatus(orders[1..], id, status);
      assert Count(r, StatusTest(status)) == (if r[0].status == status then 1 else 0) + Count(r[1..], StatusTest(status));
      assert Count(r, StatusTest(other)) == (if r[0].status == other then 1 else 0) + Count(r[1..], StatusTest(other));
      assert Count(orders, StatusTest(status)) ==
        (if orders[0].status == status then 1 else 0) + Count(orders[1..], StatusTest(status));
      assert Count(orders, StatusTest(other)) ==
        (if orders[0].status == other then 1 else 0) + Count(orders[1..], StatusTest(other));
    }
  }

  /** A row's item count: `Σ (quantity || 1)`, and 0 with no items. */
  function ItemQuantity(l: Line): int
  {
    OrNum(l.quantity, 1)
  }

  function ItemCount(o: Order): int
  {
    Sum(o.items, ItemQuantity)
  }

  /** With no items the count is 0; with no negative quantities it is at least
      the number of items, since a missing quantity counts one. */
  lemma ItemCountSpec(o: Order)
    ensures o.items == [] ==> ItemCount(o) == 0
    ensures (forall i :: 0 <= i < |o.items| ==> o.items[i].quantity >= 0) ==> ItemCount(o) >= |o.items|
  {
    if forall i :: 0 <= i < |o.items| ==> o.items[i].quantity >= 0 {
      forall l | l in o.items ensures ItemQuantity(l) >= 1 {
        var k :| 0 <= k < |o.items| && o.items[k] == l;
      }
      SumAtLeastLength(o.items, ItemQuantity);
    }
  }

  /** `OrderItem`'s line total: `(price || offerPrice || 0) * (quantity || 1)`. */
  function LineTotal(l: Line): (t: int)
    ensures l.product.price != 0 && l.quantity != 0 ==> t == l.product.price * l.quantity
    ensures l.product.price == 0 && l.quantity != 0 ==> t == l.product.offerPrice * l.quantity
    ensures l.quantity == 0 ==> t == OrNum(l.product.price, l.product.offerPrice)
  {
    OrNum(OrNum(l.product.price, l.product.offerPrice), 0) * OrNum(l.quantity, 1)
  }

  /** `OrderRow`: no row without an id; otherwise the first 8 characters of the
      id, upper-cased. */
  function RowId(o: Order): (r: Option<string>)
    ensures o.id == "" <==> r.None?
    ensures r.Some? ==> |r.value| == if |o.id| < 8 then |o.id| else 8
    ensures r.Some? ==> forall i :: 0 <= i < |r.value| ==> r.value[i] == UpperChar(o.id[i])
  {
    if o.id == "" then None else Some(Upper(Slice(o.id, 0, 8)))
  }

  /** The admin's order list and the browser's stored copy. */
  class OrdersView {
    var orders: seq<Order>
    var stored: seq<Order>

    constructor (stored: seq<Order>)
      ensures orders == [] && this.stored == stored
    {
      orders := [];
      this.stored := stored;
    }

    /** `fetchOrders`: the server's list, also written to the stored copy, or
        the stored copy when the server does not answer. */
    method FetchOrders(response: Option<seq<Order>>)
      modifies this
      ensures response.Some? ==> orders == response.value && stored == response.value
      ensures response.None? ==> orders == old(stored) && stored == old(stored)
    {
      if response.Some? {
        orders := response.value;
        stored := response.value;
      } else {
        orders := stored;
      }
    }

    /** `updateOrderStatus(id, status)`: the shown list at once, and the stored
        copy whatever the server answered (`serverOk`). */
    method UpdateOrderStatus(id: string, status: string, serverOk: bool)
      modifies this
      ensures orders == WithStatus(old(orders), id, status)
      ensures stored == WithStatus(old(stored), id, status)
    {
      orders := WithStatus(orders, id, status);
      stored := WithStatus(stored, id, status);
    }

    /** `getOrdersStats()` over the orders shown. */
    function OrdersStatsNow(): (r: OrdersStats)
      reads this
      ensures r == Stats(orders)
    {
      Stats(orders)
    }
  }
}
