/** `DashboardHome`: the summary counts over the stored products, orders and
    users, the five most recent orders and users, the category breakdown and
    the small display helpers. */
module Dashboard {
  import opened Js
  import opened Records
  import opened Seqs
  import opened Sorting
  import OrdersAdmin
  import UsersAdmin

  /** An order counts as pending when its status is "pending" or missing. */
  predicate IsPending(o: Order) { o.status == "pending" || o.status == "" }
  predicate IsCompleted(o: Order) { o.status == "completed" }
  predicate IsCancelled(o: Order) { o.status == "cancelled" }

  /** `(parseInt(stock) || 0) < 10`. */
  predicate IsLowStock(p: Product) { p.stock < 10 }
  predicate IsOutOfStock(p: Product) { p.stock == 0 }

  /** `isActive !== false && isBlocked !== true`: a missing flag does not
      stop a user from being active. */
  predicate IsActive(u: User) { u.isActive != Some(false) && u.isBlocked != Some(true) }

  function PendingTest(): Order -> bool { (o: Order) => IsPending(o) }
  function CompletedTest(): Order -> bool { (o: Order) => IsCompleted(o) }
  function CancelledTest(): Order -> bool { (o: Order) => IsCancelled(o) }
  function LowStockTest(): Product -> bool { (p: Product) => IsLowStock(p) }
  function OutOfStockTest(): Product -> bool { (p: Product) => IsOutOfStock(p) }
  function ActiveTest(): User -> bool { (u: User) => IsActive(u) }
  function OrderTotal(o: Order): int { o.total }

  datatype DashboardStats = DashboardStats(
    totalProducts: nat, totalOrders: nat, totalUsers: nat, totalRevenue: int,
    pendingOrders: nat, completedOrders: nat, cancelledOrders: nat,
    lowStockProducts: nat, activeUsers: nat)

  /** The statistics `loadDashboardData` computes. */
  function Stats(products: seq<Product>, orders: seq<Order>, users: seq<User>): DashboardStats
  {
    DashboardStats(|products|, |orders|, |users|, Sum(orders, OrderTotal),
      Count(orders, PendingTest()), Count(orders, CompletedTest()), Count(orders, CancelledTest()),
      Count(products, LowStockTest()), Count(users, ActiveTest()))
  }

  /** Pending, completed and cancelled never overlap, so they fit in the order
      count. */
  lemma {:induction false} StatusCountsBound(orders: seq<Order>)
    ensures var s := Stats([], orders, []); s.pendingOrders + s.completedOrders + s.cancelledOrders <= s.totalOrders
  {
    if orders != [] {
      StatusCountsBound(orders[1..]);
    }
  }

  /** Every product out of stock is low on stock. */
  lemma OutOfStockIsLow(products: seq<Product>)
    ensures Count(products, OutOfStockTest()) <= Stats(products, [], []).lowStockProducts
  {
    CountMonotone(products, OutOfStockTest(), LowStockTest());
  }

  /** A user the users page calls active is active here too; here a user
      with no flags at all is also active, while the users page does not
      count them. */
  lemma ActiveUsersCompared(users: seq<User>)
    ensures Count(users, UsersAdmin.ActiveTest()) <= Stats([], [], users).activeUsers
    ensures var u := User("", "", "", "", None, None, 0);
      IsActive(u) && !UsersAdmin.IsActive(u)
  {
    CountMonotone(users, UsersAdmin.ActiveTest(), ActiveTest());
  }

  /** The dashboard's revenue counts every order while the orders page counts
      completed ones only, so with no negative totals the dashboard's is the
      larger. */
  lemma {:induction false} RevenueCompared(orders: seq<Order>)
    requires forall i :: 0 <= i < |orders| ==> orders[i].total >= 0
    ensures OrdersAdmin.Stats(orders).totalRevenue <= Stats([], orders, []).totalRevenue
  {
    OrdersAdmin.StatsSpec(orders);
    RevenueBelowTotal(orders);
  }

  lemma {:induction false} RevenueBelowTotal(orders: seq<Order>)
    requires forall i :: 0 <= i < |orders| ==> orders[i].total >= 0
    ensures Sum(orders, OrdersAdmin.Revenue) <= Sum(orders, OrderTotal)
  {
    if orders != [] {
      assert forall i :: 0 <= i < |orders[1..]| ==> orders[1..][i] == orders[i + 1];
      RevenueBelowTotal(orders[1..]);
    }
  }

  /** `new Date(o.createdAt || o.date || 0)` as an abstract timestamp. */
  function OrderPlaced(o: Order): int { OrNum(OrNum(o.createdAt, o.date), 0) }
  function UserJoined(u: User): int { OrNum(u.createdAt, 0) }

  /** `s.sort(newest first).slice(0, 5)`. */
  function Newest<T>(s: seq<T>, key: T -> int): seq<T>
  {
    Slice(Sort(s, ByNumberDescending(key)), 0, 5)
  }

  /** At most five entries, as many as there are up to five, drawn from the
      list, newest first, and none of the rest is newer than the last shown. */
  lemma NewestSpec<T(!new)>(s: seq<T>, key: T -> int)
    ensures |Newest(s, key)| == if |s| < 5 then |s| else 5
    ensures multiset(Newest(s, key)) <= multiset(s)
    ensures forall i, j :: 0 <= i < j < |Newest(s, key)| ==> key(Newest(s, key)[i]) >= key(Newest(s, key)[j])
    ensures forall i, j :: 0 <= i < |Newest(s, key)| <= j < |Sort(s, ByNumberDescending(key))| ==>
      key(Newest(s, key)[i]) >= key(Sort(s, ByNumberDescending(key))[j])
  {
    var sorted := Sort(s, ByNumberDescending(key));
    NewestOrdered(s, key);
    NewestPrefix(s, key);
    assert Newest(s, key) == sorted[..|Newest(s, key)|];
  }

  /** The sorted copy puts larger keys first. */
  lemma NewestOrdered<T(!new)>(s: seq<T>, key: T -> int)
    ensures var sorted := Sort(s, ByNumberDescending(key));
      forall i, j :: 0 <= i < j < |sorted| ==> key(sorted[i]) >= key(sorted[j])
  {
    var le := ByNumberDescending(key);
    var sorted := Sort(s, le);
    ByNumberDescendingPreorder(key);
    SortSorted(s, le);
    forall i, j | 0 <= i < j < |sorted| ensures key(sorted[i]) >= key(sorted[j]) {
      assert le(sorted[i], sorted[j]) == (key(sorted[j]) <= key(sorted[i]));
    }
  }

  /** The shown entries are the first ones of the sorted copy. */
  lemma NewestPrefix<T(!new)>(s: seq<T>, key: T -> int)
    ensures |Newest(s, key)| == if |s| < 5 then |s| else 5
    ensures Newest(s, key) == Sort(s, ByNumberDescending(key))[..|Newest(s, key)|]
    ensures multiset(Newest(s, key)) <= multiset(s)
  {
    var le := ByNumberDescending(key);
    var sorted := Sort(s, le);
    SortPermutes(s, le);
    var n := if |s| < 5 then |s| else 5;
    var r := Newest(s, key);
    assert r == sorted[..n];
    assert sorted == r + sorted[n..];
    assert multiset(sorted) == multiset(r) + multiset(sorted[n..]);
  }

  /** The category groups of `getCategoryData`. */
  predicate InGroup(group: string, p: Product)
  {
    if group == "other" then p.category !in {"ring", "necklace", "bracelets"} else p.category == group
  }

  function GroupTest(group: string): Product -> bool
  {
    (p: Product) => InGroup(group, p)
  }

  function Group(products: seq<Product>, group: string): seq<Product>
  {
    Filter(products, GroupTest(group))
  }

  /** Every product falls in exactly one of the four groups. */
  lemma {:induction false} GroupsPartition(products: seq<Product>)
    ensures |Group(products, "ring")| + |Group(products, "necklace")| + |Group(products, "bracelets")| +
      |Group(products, "other")| == |products|
  {
    if products != [] {
      GroupsPartition(products[1..]);
    }
  }

  /** `item.productId || item.id` of every item of every order, blanks
      dropped. */
  function OrderedIds(orders: seq<Order>): seq<string>
  {
    if orders == [] then [] else ItemIds(orders[0].items) + OrderedIds(orders[1..])
  }

  function ItemIds(items: seq<Line>): seq<string>
  {
    if items == [] then []
    else
      var id := Or(items[0].product.productId, items[0].product.id);
      (if id != "" then [id] else []) + ItemIds(items[1..])
  }

  /** The ids an order refers to. */
  ghost predicate Refers(orders: seq<Order>, id: string)
  {
    exists i, k :: 0 <= i < |orders| && 0 <= k < |orders[i].items| &&
      Or(orders[i].items[k].product.productId, orders[i].items[k].product.id) == id
  }

  lemma {:induction false} ItemIdsSpec(items: seq<Line>, id: string)
    ensures id in ItemIds(items) <==>
      id != "" && exists k :: 0 <= k < |items| && Or(items[k].product.productId, items[k].product.id) == id
  {
    if items != [] {
      ItemIdsSpec(items[1..], id);
      if id != "" && exists k :: 1 <= k < |items| && Or(items[k].product.productId, items[k].product.id) == id {
        var k :| 1 <= k < |items| && Or(items[k].product.productId, items[k].product.id) == id;
        assert items[1..][k - 1] == items[k];
      }
      if id in ItemIds(items[1..]) {
        var k :| 0 <= k < |items[1..]| && Or(items[1..][k].product.productId, items[1..][k].product.id) == id;
        assert items[k + 1] == items[1..][k];
      }
    }
  }

  /** An id is among the ordered ids exactly when it is not blank and some
      item of some order refers to it. */
  lemma {:induction false} OrderedIdsSpec(orders: seq<Order>, id: string)
    ensures id in OrderedIds(orders) <==> id != "" && Refers(orders, id)
  {
    if orders != [] {
      OrderedIdsSpec(orders[1..], id);
      ItemIdsSpec(orders[0].items, id);
      if Refers(orders, id) {
        var i, k :| 0 <= i < |orders| && 0 <= k < |orders[i].items| &&
          Or(orders[i].items[k].product.productId, orders[i].items[k].product.id) == id;
        if i > 0 {
          assert orders[1..][i - 1] == orders[i];
        }
      }
      if Refers(orders[1..], id) {
        var i, k :| 0 <= i < |orders[1..]| && 0 <= k < |orders[1..][i].items| &&
          Or(orders[1..][i].items[k].product.productId, orders[1..][i].items[k].product.id) == id;
        assert orders[i + 1] == orders[1..][i];
      }
    }
  }

  function OrderedTest(ids: seq<string>): Product -> bool
  {
    (p: Product) => p.id in ids
  }

  datatype CategoryEntry = CategoryEntry(total: nat, ordered: nat, products: seq<Product>)

  function Entry(products: seq<Product>, group: string, ids: seq<string>): (e: CategoryEntry)
    ensures e.total == |e.products| && e.ordered <= e.total
  {
    var g := Group(products, group);
    CategoryEntry(|g|, Count(g, OrderedTest(ids)), g)
  }

  /** `getCategoryData()`: ring, necklace, bracelets and other. */
  function CategoryData(products: seq<Product>, orders: seq<Order>): seq<CategoryEntry>
  {
    var ids := OrderedIds(orders);
    [Entry(products, "ring", ids), Entry(products, "necklace", ids), Entry(products, "bracelets", ids),
     Entry(products, "other", ids)]
  }

  /** The four groups share out the products (each group's ordered count is
      at most its size by `Entry`). */
  lemma CategoryDataSpec(products: seq<Product>, orders: seq<Order>)
    ensures var d := CategoryData(products, orders); d[0].total + d[1].total + d[2].total + d[3].total == |products|
  {
    GroupsPartition(products);
  }

  datatype StockColor = Red | Yellow | Green

  /** `getStockColor(stock)`. */
  function StockColorOf(stock: int): (c: StockColor)
    ensures c == Red <==> stock == 0
    ensures c == Yellow <==> stock != 0 && stock < 10
    ensures c == Green <==> stock >= 10
  {
    if stock == 0 then Red else if stock < 10 then Yellow else Green
  }

  /** The colour is not green exactly for the products counted low on stock,
      and red exactly for those out of stock. */
  lemma StockColorAgrees(p: Product)
    ensures StockColorOf(p.stock) != Green <==> IsLowStock(p)
    ensures StockColorOf(p.stock) == Red <==> IsOutOfStock(p)
  {
  }

  /** `getOrderDisplayId(order)`. */
  function DisplayId(o: Order): (r: string)
    ensures o.id == "" ==> r == "N/A"
    ensures o.id != "" ==> |r| <= 8 && r <= o.id
    ensures o.id != "" && |o.id| >= 8 ==> |r| == 8
    ensures o.id != "" && |o.id| < 8 ==> r == o.id
  {
    if o.id == "" then "N/A" else Slice(o.id, 0, 8)
  }

  /** The dashboard's summary and its two recent lists. */
  class DashboardView {
    var stats: DashboardStats
    var recentOrders: seq<Order>
    var recentUsers: seq<User>

    constructor ()
      ensures stats == DashboardStats(0, 0, 0, 0, 0, 0, 0, 0, 0) && recentOrders == [] && recentUsers == []
    {
      stats := DashboardStats(0, 0, 0, 0, 0, 0, 0, 0, 0);
      recentOrders := [];
      recentUsers := [];
    }

    /** `loadDashboardData()` over the stored lists: the orders and users are
        sorted newest first in place and cut to five. */
    method LoadDashboardData(products: seq<Product>, orders: seq<Order>, users: seq<User>)
      modifies this
      ensures stats == Stats(products, orders, users)
      ensures recentOrders == Newest(orders, OrderPlaced)
      ensures recentUsers == Newest(users, UserJoined)
    {
      stats := Stats(products, orders, users);
      var sortedOrders := SortCopy(orders, ByNumberDescending(OrderPlaced));
      recentOrders := Slice(sortedOrders, 0, 5);
      var sortedUsers := SortCopy(users, ByNumberDescending(UserJoined));
      recentUsers := Slice(sortedUsers, 0, 5);
    }
  }
}
