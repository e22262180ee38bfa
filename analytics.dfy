/** `Analytics`: the time-range filter, the totals and average, the category
    tally behind the popular categories, and the monthly groupings. The
    tallies are the source's `{}` dictionaries filled inside `forEach` loops:
    an association list in insertion order. */
module Analytics {
  import opened Js
  import opened Records
  import opened Seqs
  import opened Sorting

  // ---------------------------------------------------------------------
  // Tallies

  /** One dictionary entry: a key and the amount accumulated under it. */
  datatype Bucket = Bucket(key: string, amount: int)

  /** `dict[k] = (dict[k] || 0) + w`: a new key goes at the end. */
  function Bumped(t: seq<Bucket>, k: string, w: int): seq<Bucket>
  {
    if t == [] then [Bucket(k, w)]
    else if t[0].key == k then [t[0].(amount := t[0].amount + w)] + t[1..]
    else [t[0]] + Bumped(t[1..], k, w)
  }

  /** `dict[x] || 0`. */
  function Lookup(t: seq<Bucket>, x: string): int
  {
    if t == [] then 0 else if t[0].key == x then t[0].amount else Lookup(t[1..], x)
  }

  function Keys(t: seq<Bucket>): (r: seq<string>)
    ensures |r| == |t| && forall i :: 0 <= i < |t| ==> r[i] == t[i].key
  {
    seq(|t|, i requires 0 <= i < |t| => t[i].key)
  }

  ghost predicate UniqueKeys(t: seq<Bucket>)
  {
    forall i, j :: 0 <= i < j < |t| ==> t[i].key != t[j].key
  }

  function Amount(b: Bucket): int { b.amount }

  /** Bumping adds `w` under `k` and nothing under any other key, keeps the
      keys distinct, and adds `k` to the keys. */
  lemma BumpedSpec(t: seq<Bucket>, k: string, w: int)
    ensures forall x :: Lookup(Bumped(t, k, w), x) == Lookup(t, x) + (if x == k then w else 0)
    ensures Sum(Bumped(t, k, w), Amount) == Sum(t, Amount) + w
    ensures forall x :: x in Keys(Bumped(t, k, w)) <==> x in Keys(t) || x == k
    ensures UniqueKeys(t) ==> UniqueKeys(Bumped(t, k, w))
  {
    forall x ensures Lookup(Bumped(t, k, w), x) == Lookup(t, x) + (if x == k then w else 0) {
      BumpedLookup(t, k, w, x);
    }
    BumpedSum(t, k, w);
    BumpedKeys(t, k, w);
  }

  lemma {:induction false} BumpedLookup(t: seq<Bucket>, k: string, w: int, x: string)
    ensures Lookup(Bumped(t, k, w), x) == Lookup(t, x) + (if x == k then w else 0)
  {
    if t != [] && t[0].key != k {
      BumpedLookup(t[1..], k, w, x);
      assert Bumped(t, k, w)[1..] == Bumped(t[1..], k, w);
    }
  }

  lemma {:induction false} BumpedSum(t: seq<Bucket>, k: string, w: int)
    ensures Sum(Bumped(t, k, w), Amount) == Sum(t, Amount) + w
  {
    if t != [] && t[0].key != k {
      BumpedSum(t[1..], k, w);
      assert Bumped(t, k, w)[1..] == Bumped(t[1..], k, w);
    } else if t != [] {
      assert Bumped(t, k, w)[1..] == t[1..];
    }
  }

  lemma BumpedKeys(t: seq<Bucket>, k: string, w: int)
    ensures forall x :: x in Keys(Bumped(t, k, w)) <==> x in Keys(t) || x == k
    ensures UniqueKeys(t) ==> UniqueKeys(Bumped(t, k, w))
  {
    BumpedShape(t, k, w);
    var r := Bumped(t, k, w);
    forall x ensures x in Keys(r) <==> x in Keys(t) || x == k {
      if x in Keys(r) {
        var i :| 0 <= i < |r| && Keys(r)[i] == x;
        if i < |t| { assert Keys(t)[i] == x; }
      }
      if x in Keys(t) {
        var i :| 0 <= i < |t| && Keys(t)[i] == x;
        assert Keys(r)[i] == x;
      }
      if x == k && |r| == |t| {
        var i :| 0 <= i < |t| && t[i].key == k;
        assert Keys(r)[i] == x;
      }
      if x == k && |r| == |t| + 1 {
        assert Keys(r)[|t|] == x;
      }
    }
  }

  /** Bumping keeps every bucket's key in place and appends a bucket for `k`
      exactly when no bucket has it. */
  lemma {:induction false} BumpedShape(t: seq<Bucket>, k: string, w: int)
    ensures |t| <= |Bumped(t, k, w)| <= |t| + 1
    ensures forall i :: 0 <= i < |t| ==> Bumped(t, k, w)[i].key == t[i].key
    ensures |Bumped(t, k, w)| == |t| + 1 ==>
      Bumped(t, k, w)[|t|].key == k && forall i :: 0 <= i < |t| ==> t[i].key != k
    ensures |Bumped(t, k, w)| == |t| ==> exists i :: 0 <= i < |t| && t[i].key == k
  {
    if t != [] && t[0].key != k {
      BumpedShape(t[1..], k, w);
      var r := Bumped(t, k, w);
      assert r[1..] == Bumped(t[1..], k, w);
      if |r| == |t| {
        var i :| 0 <= i < |t[1..]| && t[1..][i].key == k;
        assert t[i + 1].key == k;
      }
    }
  }

  /** The entries a loop feeds the dictionary: key and amount. */
  datatype Entry = Entry(key: string, weight: int)

  /** The dictionary after the entries, fed in order. */
  function TallyOf(e: seq<Entry>): seq<Bucket>
  {
    if e == [] then [] else
      var last := e[|e| - 1];
      Bumped(TallyOf(e[..|e| - 1]), last.key, last.weight)
  }

  /** The weights of the entries under `x`. */
  function WeightUnder(e: seq<Entry>, x: string): int
  {
    if e == [] then 0 else WeightUnder(e[..|e| - 1], x) + (if e[|e| - 1].key == x then e[|e| - 1].weight else 0)
  }

  function TotalWeight(e: seq<Entry>): int
  {
    if e == [] then 0 else TotalWeight(e[..|e| - 1]) + e[|e| - 1].weight
  }

  /** The dictionary holds, under each key, the weights fed under it; its
      amounts add up to all the weights; it has one entry per key fed and
      no other. */
  lemma {:induction false} TallyOfSpec(e: seq<Entry>)
    ensures forall x :: Lookup(TallyOf(e), x) == WeightUnder(e, x)
    ensures Sum(TallyOf(e), Amount) == TotalWeight(e)
    ensures UniqueKeys(TallyOf(e))
    ensures forall x :: x in Keys(TallyOf(e)) <==> Fed(e, x)
  {
    if e != [] {
      var init, last := e[..|e| - 1], e[|e| - 1];
      TallyOfSpec(init);
      BumpedSpec(TallyOf(init), last.key, last.weight);
      assert e == init + [last];
      forall x ensures x in Keys(TallyOf(e)) <==> Fed(e, x) {
        FedConcat(init, [last], x);
      }
    }
  }

  // ---------------------------------------------------------------------
  // Time range, totals, average

  /** `filterDataByTimeRange(data, range)`: "week" and "month" keep the
      records stamped at or after the window's start (computed from the clock
      and passed in); any other range keeps everything. */
  function InRange<T>(range: string, stamp: T -> int, weekStart: int, monthStart: int): T -> bool
  {
    (x: T) => if range == "week" then stamp(x) >= weekStart else stamp(x) >= monthStart
  }

  function ByTimeRange<T>(data: seq<T>, range: string, stamp: T -> int, weekStart: int, monthStart: int): seq<T>
  {
    if range == "week" || range == "month" then Filter(data, InRange(range, stamp, weekStart, monthStart)) else data
  }

  lemma ByTimeRangeSpec<T>(data: seq<T>, range: string, stamp: T -> int, weekStart: int, monthStart: int)
    ensures range != "week" && range != "month" ==> ByTimeRange(data, range, stamp, weekStart, monthStart) == data
    ensures IsSubseq(ByTimeRange(data, range, stamp, weekStart, monthStart), data)
    ensures range == "week" ==> forall x :: x in ByTimeRange(data, range, stamp, weekStart, monthStart) <==>
      x in data && stamp(x) >= weekStart
    ensures range == "month" ==> forall x :: x in ByTimeRange(data, range, stamp, weekStart, monthStart) <==>
      x in data && stamp(x) >= monthStart
  {
    if range == "week" || range == "month" {
      forall x ensures x in Filter(data, InRange(range, stamp, weekStart, monthStart)) <==>
        x in data && InRange(range, stamp, weekStart, monthStart)(x) {
        FilterMember(data, InRange(range, stamp, weekStart, monthStart), x);
      }
    } else {
      SubseqRefl(data);
    }
  }

  /** `new Date(item.date || item.createdAt || item.lastLogin)`; the records
      here carry no `lastLogin`. */
  function OrderStamp(o: Order): int { OrNum(o.date, o.createdAt) }
  function UserStamp(u: User): int { u.createdAt }

  function OrderTotal(o: Order): int { o.total }

  /** `totalOrders > 0 ? totalRevenue / totalOrders : 0`. */
  function AverageOrderValue(revenue: int, orders: nat): (r: real)
    ensures orders == 0 ==> r == 0.0
    ensures orders > 0 ==> r * (orders as real) == revenue as real
  {
    if orders > 0 then (revenue as real) / (orders as real) else 0.0
  }

  // ---------------------------------------------------------------------
  // Popular categories

  /** `item.category || 'unknown'`. */
  function CategoryKey(l: Line): string
  {
    Or(l.product.category, "unknown")
  }

  /** The entries one order's items feed: one per item. */
  function ItemEntries(items: seq<Line>): (e: seq<Entry>)
    ensures |e| == |items|
    ensures forall k :: 0 <= k < |items| ==> e[k] == Entry(CategoryKey(items[k]), 1)
  {
    if items == [] then [] else ItemEntries(items[..|items| - 1]) + [Entry(CategoryKey(items[|items| - 1]), 1)]
  }

  /** The entries all orders feed, in order. */
  function CategoryEntries(orders: seq<Order>): seq<Entry>
  {
    if orders == [] then [] else CategoryEntries(orders[..|orders| - 1]) + ItemEntries(orders[|orders| - 1].items)
  }

  function ItemTotal(orders: seq<Order>): nat
  {
    if orders == [] then 0 else ItemTotal(orders[..|orders| - 1]) + |orders[|orders| - 1].items|
  }

  /** An order has an item in the bucket `c`. */
  predicate InBucket(o: Order, c: string)
  {
    exists k :: 0 <= k < |o.items| && CategoryKey(o.items[k]) == c
  }

  lemma {:induction false} ItemEntriesWeight(items: seq<Line>)
    ensures TotalWeight(ItemEntries(items)) == |items|
  {
    if items != [] {
      var e := ItemEntries(items);
      assert e[..|e| - 1] == ItemEntries(items[..|items| - 1]);
      ItemEntriesWeight(items[..|items| - 1]);
    }
  }

  lemma {:induction false} TotalWeightConcat(a: seq<Entry>, b: seq<Entry>)
    ensures TotalWeight(a + b) == TotalWeight(a) + TotalWeight(b)
  {
    if b != [] {
      assert (a + b)[..|a + b| - 1] == a + b[..|b| - 1];
      TotalWeightConcat(a, b[..|b| - 1]);
    } else {
      assert a + b == a;
    }
  }

  /** Some entry is fed under `x`. */
  ghost predicate Fed(e: seq<Entry>, x: string)
  {
    exists i :: 0 <= i < |e| && e[i].key == x
  }

  /** Some order has an item filed under `x`. */
  ghost predicate Bought(orders: seq<Order>, x: string)
  {
    exists j :: 0 <= j < |orders| && InBucket(orders[j], x)
  }

  lemma FedConcat(a: seq<Entry>, b: seq<Entry>, x: string)
    ensures Fed(a + b, x) <==> Fed(a, x) || Fed(b, x)
  {
    if Fed(a + b, x) {
      var i :| 0 <= i < |a + b| && (a + b)[i].key == x;
      if i < |a| { assert a[i].key == x; } else { assert b[i - |a|].key == x; }
    }
    if Fed(a, x) {
      var i :| 0 <= i < |a| && a[i].key == x;
      assert (a + b)[i] == a[i];
    }
    if Fed(b, x) {
      var i :| 0 <= i < |b| && b[i].key == x;
      assert (a + b)[|a| + i] == b[i];
    }
  }

  lemma ItemEntriesFed(o: Order, x: string)
    ensures Fed(ItemEntries(o.items), x) <==> InBucket(o, x)
  {
    var e := ItemEntries(o.items);
    if Fed(e, x) {
      var i :| 0 <= i < |e| && e[i].key == x;
      assert CategoryKey(o.items[i]) == x;
    }
    if InBucket(o, x) {
      var k :| 0 <= k < |o.items| && CategoryKey(o.items[k]) == x;
      assert e[k].key == x;
    }
  }

  lemma BoughtLast(orders: seq<Order>, x: string)
    requires orders != []
    ensures Bought(orders, x) <==> Bought(orders[..|orders| - 1], x) || InBucket(orders[|orders| - 1], x)
  {
    var init := orders[..|orders| - 1];
    if Bought(orders, x) {
      var j :| 0 <= j < |orders| && InBucket(orders[j], x);
      if j < |init| { assert init[j] == orders[j]; }
    }
    if Bought(init, x) {
      var j :| 0 <= j < |init| && InBucket(init[j], x);
      assert orders[j] == init[j];
    }
  }

  /** Each item feeds one entry of weight 1, and the entry keys are exactly
      the buckets some order has an item in. */
  lemma {:induction false} CategoryEntriesSpec(orders: seq<Order>)
    ensures TotalWeight(CategoryEntries(orders)) == ItemTotal(orders)
    ensures forall x :: Fed(CategoryEntries(orders), x) <==> Bought(orders, x)
  {
    if orders != [] {
      var init, last := orders[..|orders| - 1], orders[|orders| - 1];
      var a, b := CategoryEntries(init), ItemEntries(last.items);
      CategoryEntriesSpec(init);
      ItemEntriesWeight(last.items);
      TotalWeightConcat(a, b);
      forall x ensures Fed(a + b, x) <==> Bought(orders, x) {
        FedConcat(a, b, x);
        ItemEntriesFed(last, x);
        BoughtLast(orders, x);
      }
    }
  }

  lemma TallyOfSnoc(e: seq<Entry>, x: Entry)
    ensures TallyOf(e + [x]) == Bumped(TallyOf(e), x.key, x.weight)
  {
    assert (e + [x])[..|e|] == e;
  }

  lemma ItemEntriesPrefix(items: seq<Line>, j: nat)
    requires j < |items|
    ensures ItemEntries(items[..j + 1]) == ItemEntries(items[..j]) + [Entry(CategoryKey(items[j]), 1)]
  {
    assert items[..j + 1][..j] == items[..j];
  }

  lemma CategoryEntriesPrefix(orders: seq<Order>, i: nat)
    requires i < |orders|
    ensures CategoryEntries(orders[..i + 1]) == CategoryEntries(orders[..i]) + ItemEntries(orders[i].items)
  {
    assert orders[..i + 1][..i] == orders[..i];
  }

  /** The nested `forEach` that fills `categoryCount`. */
  method CountCategories(orders: seq<Order>) returns (tally: seq<Bucket>)
    ensures tally == TallyOf(CategoryEntries(orders))
  {
    tally := [];
    var i := 0;
    while i < |orders|
      invariant 0 <= i <= |orders|
      invariant tally == TallyOf(CategoryEntries(orders[..i]))
    {
      var items := orders[i].items;
      ghost var done := CategoryEntries(orders[..i]);
      var j := 0;
      assert items[..0] == [] && done + [] == done;
      while j < |items|
        invariant 0 <= j <= |items|
        invariant tally == TallyOf(done + ItemEntries(items[..j]))
      {
        ItemEntriesPrefix(items, j);
        assert done + ItemEntries(items[..j + 1]) == (done + ItemEntries(items[..j])) + [Entry(CategoryKey(items[j]), 1)];
        TallyOfSnoc(done + ItemEntries(items[..j]), Entry(CategoryKey(items[j]), 1));
        tally := Bumped(tally, CategoryKey(items[j]), 1);
        j := j + 1;
      }
      assert items[..j] == items;
      CategoryEntriesPrefix(orders, i);
      i := i + 1;
    }
    assert orders[..i] == orders;
  }

  /** The counts add up to the number of items, each bucket counts the items
      filed under it, and the buckets are exactly those some order has an
      item in, each once. */
  lemma CategoryTallySpec(orders: seq<Order>)
    ensures Sum(TallyOf(CategoryEntries(orders)), Amount) == ItemTotal(orders)
    ensures forall x :: Lookup(TallyOf(CategoryEntries(orders)), x) == WeightUnder(CategoryEntries(orders), x)
    ensures UniqueKeys(TallyOf(CategoryEntries(orders)))
    ensures forall x :: x in Keys(TallyOf(CategoryEntries(orders))) <==> Bought(orders, x)
  {
    TallyOfSpec(CategoryEntries(orders));
    CategoryEntriesSpec(orders);
  }

  /** An order has an item whose own category is `c` (`item.category === c`). */
  predicate HasCategory(o: Order, c: string)
  {
    exists k :: 0 <= k < |o.items| && o.items[k].product.category == c
  }

  function HasCategoryTest(c: string): Order -> bool { (o: Order) => HasCategory(o, c) }
  function InBucketTest(c: string): Order -> bool { (o: Order) => InBucket(o, c) }

  /** A category's revenue as written: the orders with an item labelled
      exactly `c`, so items without a category never add to "unknown". */
  function RevenueAsWritten(orders: seq<Order>, c: string): int
  {
    Sum(Filter(orders, HasCategoryTest(c)), OrderTotal)
  }

  /** A category's revenue as evidently intended: the orders with an item
      filed under the bucket `c`. */
  function Revenue(orders: seq<Order>, c: string): int
  {
    Sum(Filter(orders, InBucketTest(c)), OrderTotal)
  }

  /** An order whose one line is an uncategorised product: the tally counts
      it once under "unknown", but the revenue as written gives that bucket
      nothing, where the intended revenue gives it the order's total. */
  lemma UnknownRevenueAsWritten(o: Order, p: Product)
    requires p.category == "" && o.items == [Line(p, 1)]
    ensures Lookup(TallyOf(CategoryEntries([o])), "unknown") == 1
    ensures RevenueAsWritten([o], "unknown") == 0
    ensures Revenue([o], "unknown") == o.total
  {
    UnknownCounted(o, p);
    assert !HasCategory(o, "unknown");
    assert InBucket(o, "unknown");
    FilterSingle(o, HasCategoryTest("unknown"));
    FilterSingle(o, InBucketTest("unknown"));
  }

  lemma UnknownCounted(o: Order, p: Product)
    requires p.category == "" && o.items == [Line(p, 1)]
    ensures Lookup(TallyOf(CategoryEntries([o])), "unknown") == 1
  {
    var e := Entry("unknown", 1);
    assert ItemEntries(o.items) == [e];
    assert [o][..0] == [];
    assert CategoryEntries([o]) == [e];
    assert [e][..0] == [];
  }

  lemma FilterSingle(o: Order, f: Order -> bool)
    ensures Filter([o], f) == if f(o) then [o] else []
    ensures Sum(Filter([o], f), OrderTotal) == if f(o) then o.total else 0
  {
    assert [o][1..] == [];
  }

  /** With the intended revenue, every bucket of the tally is credited: when
      all totals are positive, each has positive revenue. The first
      precondition is stated over membership (`o in orders`) on purpose: the
      same condition over indices, next to the tally membership, lets
      Dafny 4.11 derive a contradiction. */
  lemma RevenueCredited(orders: seq<Order>, c: string)
    requires forall o :: o in orders ==> o.total > 0
    requires c in Keys(TallyOf(CategoryEntries(orders)))
    ensures Revenue(orders, c) > 0
  {
    CategoryTallySpec(orders);
    var kept := Filter(orders, InBucketTest(c));
    var j :| 0 <= j < |orders| && InBucket(orders[j], c);
    FilterMember(orders, InBucketTest(c), orders[j]);
    forall o | o in kept ensures OrderTotal(o) >= 1 {
      FilterMember(orders, InBucketTest(c), o);
    }
    SumAtLeastLength(kept, OrderTotal);
  }

  /** A category that items are labelled with gets the same revenue either
      way; only the "unknown" bucket (and a category literally named so)
      differ. */
  lemma RevenueAgrees(orders: seq<Order>, c: string)
    requires c != "" && c != "unknown"
    ensures Revenue(orders, c) == RevenueAsWritten(orders, c)
  {
    forall o | o in orders ensures InBucketTest(c)(o) == HasCategoryTest(c)(o) {
      InBucketLabelled(o, c);
    }
    FilterAgree(orders, InBucketTest(c), HasCategoryTest(c));
  }

  lemma InBucketLabelled(o: Order, c: string)
    requires c != "" && c != "unknown"
    ensures InBucket(o, c) <==> HasCategory(o, c)
  {
    if InBucket(o, c) {
      var k :| 0 <= k < |o.items| && CategoryKey(o.items[k]) == c;
      assert o.items[k].product.category == c;
    }
    if HasCategory(o, c) {
      var k :| 0 <= k < |o.items| && o.items[k].product.category == c;
      assert CategoryKey(o.items[k]) == c;
    }
  }

  datatype Popular = Popular(category: string, count: int, revenue: int)

  /** `Object.entries(categoryCount).map(...)`: one row per bucket, with the
      revenue `revenueOf` gives the bucket's name. */
  function PopularEntries(tally: seq<Bucket>, revenueOf: string -> int): (r: seq<Popular>)
    ensures |r| == |tally|
    ensures forall i :: 0 <= i < |tally| ==> r[i] == Popular(tally[i].key, tally[i].amount, revenueOf(tally[i].key))
  {
    seq(|tally|, i requires 0 <= i < |tally| => Popular(tally[i].key, tally[i].amount, revenueOf(tally[i].key)))
  }

  function PopularCount(p: Popular): int { p.count }

  /** `.sort((a, b) => b.count - a.count).slice(0, 5)`. */
  function TopFive(entries: seq<Popular>): seq<Popular>
  {
    Slice(Sort(entries, ByNumberDescending(PopularCount)), 0, 5)
  }

  function AsWrittenRevenue(orders: seq<Order>): string -> int { (c: string) => RevenueAsWritten(orders, c) }
  function IntendedRevenue(orders: seq<Order>): string -> int { (c: string) => Revenue(orders, c) }

  /** `popularCategories` as the program computes it: each row's revenue is
      the total of the orders with an item labelled exactly with its name. */
  function PopularCategories(tally: seq<Bucket>, orders: seq<Order>): seq<Popular>
  {
    TopFive(PopularEntries(tally, AsWrittenRevenue(orders)))
  }

  /** `popularCategories` with the revenue evidently intended: the total of the
      orders with an item filed under the row's bucket. */
  function PopularCategoriesIntended(tally: seq<Bucket>, orders: seq<Order>): seq<Popular>
  {
    TopFive(PopularEntries(tally, IntendedRevenue(orders)))
  }

  /** At most five rows, as many as there are buckets up to five, largest
      count first, each a bucket of the tally with the revenue of its name as
      written, and no bucket left out counts more than a row shown. */
  lemma PopularCategoriesSpec(tally: seq<Bucket>, orders: seq<Order>)
    ensures |PopularCategories(tally, orders)| == if |tally| < 5 then |tally| else 5
    ensures forall i, j :: 0 <= i < j < |PopularCategories(tally, orders)| ==>
      PopularCategories(tally, orders)[i].count >= PopularCategories(tally, orders)[j].count
    ensures forall p :: p in PopularCategories(tally, orders) ==>
      Bucket(p.category, p.count) in tally && p.revenue == RevenueAsWritten(orders, p.category)
    ensures forall i, j :: 0 <= i < |PopularCategories(tally, orders)| <= j < |tally| ==>
      Sort(PopularEntries(tally, AsWrittenRevenue(orders)), ByNumberDescending(PopularCount))[j].count <= PopularCategories(tally, orders)[i].count
  {
    TopFiveSpec(tally, AsWrittenRevenue(orders));
  }

  /** The corrected rows: the same shape, each row's revenue is its bucket's
      revenue, and over the tally of the orders with positive totals every
      row shown has positive revenue. */
  lemma PopularCategoriesIntendedSpec(orders: seq<Order>)
    ensures var rows := PopularCategoriesIntended(TallyOf(CategoryEntries(orders)), orders);
      forall p :: p in rows ==> Bucket(p.category, p.count) in TallyOf(CategoryEntries(orders)) && p.revenue == Revenue(orders, p.category)
    ensures (forall o :: o in orders ==> o.total > 0) ==>
      forall p :: p in PopularCategoriesIntended(TallyOf(CategoryEntries(orders)), orders) ==> p.revenue > 0
  {
    var tally := TallyOf(CategoryEntries(orders));
    TopFiveSpec(tally, IntendedRevenue(orders));
    if forall o :: o in orders ==> o.total > 0 {
      forall p | p in PopularCategoriesIntended(tally, orders) ensures p.revenue > 0 {
        var i :| 0 <= i < |tally| && tally[i] == Bucket(p.category, p.count);
        assert Keys(tally)[i] == p.category;
        RevenueCredited(orders, p.category);
      }
    }
  }

  /** The as-written and the corrected report list the same categories with
      the same counts in the same order; their revenues differ only for the
      "unknown" bucket. */
  lemma PopularRankingAgrees(tally: seq<Bucket>, orders: seq<Order>)
    ensures |PopularCategories(tally, orders)| == |PopularCategoriesIntended(tally, orders)|
    ensures forall i :: 0 <= i < |PopularCategories(tally, orders)| ==>
      var a, b := PopularCategories(tally, orders)[i], PopularCategoriesIntended(tally, orders)[i];
      a.category == b.category && a.count == b.count &&
      (a.category != "" && a.category != "unknown" ==> a.revenue == b.revenue)
  {
    var ea, eb := PopularEntries(tally, AsWrittenRevenue(orders)), PopularEntries(tally, IntendedRevenue(orders));
    SortSameRanks(ea, eb);
    TopFiveSpec(tally, AsWrittenRevenue(orders));
    TopFiveSpec(tally, IntendedRevenue(orders));
    var a, b := PopularCategories(tally, orders), PopularCategoriesIntended(tally, orders);
    forall i | 0 <= i < |a| && a[i].category != "" && a[i].category != "unknown" ensures a[i].revenue == b[i].revenue {
      assert a[i] in a && b[i] in b;
      RevenueAgrees(orders, a[i].category);
    }
  }

  /** Any order whose one line is an uncategorised product: the program shows
      one "unknown" row of count 1 and revenue 0, where the corrected row
      carries the order's total. */
  lemma PopularUnknownAsWritten(o: Order, p: Product)
    requires p.category == "" && o.items == [Line(p, 1)]
    ensures PopularCategories(TallyOf(CategoryEntries([o])), [o]) == [Popular("unknown", 1, 0)]
    ensures PopularCategoriesIntended(TallyOf(CategoryEntries([o])), [o]) == [Popular("unknown", 1, o.total)]
  {
    UnknownRevenueAsWritten(o, p);
    var e := Entry("unknown", 1);
    assert CategoryEntries([o]) == [e] by { UnknownCounted(o, p); }
    assert [e][..0] == [];
    var tally := TallyOf([e]);
    assert tally == [Bucket("unknown", 1)];
    var ea := PopularEntries(tally, AsWrittenRevenue([o]));
    var eb := PopularEntries(tally, IntendedRevenue([o]));
    assert ea == [Popular("unknown", 1, 0)] && eb == [Popular("unknown", 1, o.total)];
    assert ea[..0] == [] && eb[..0] == [];
  }

  /** The facts shared by both revenues. */
  lemma TopFiveSpec(tally: seq<Bucket>, revenueOf: string -> int)
    ensures var top := TopFive(PopularEntries(tally, revenueOf));
      |top| == (if |tally| < 5 then |tally| else 5) &&
      top == Sort(PopularEntries(tally, revenueOf), ByNumberDescending(PopularCount))[..|top|]
    ensures var top := TopFive(PopularEntries(tally, revenueOf));
      forall i, j :: 0 <= i < j < |top| ==> top[i].count >= top[j].count
    ensures forall p :: p in TopFive(PopularEntries(tally, revenueOf)) ==>
      Bucket(p.category, p.count) in tally && p.revenue == revenueOf(p.category)
    ensures var sorted := Sort(PopularEntries(tally, revenueOf), ByNumberDescending(PopularCount));
      forall i, j :: 0 <= i < |TopFive(PopularEntries(tally, revenueOf))| <= j < |tally| ==>
        sorted[j].count <= TopFive(PopularEntries(tally, revenueOf))[i].count
  {
    var entries := PopularEntries(tally, revenueOf);
    var sorted := Sort(entries, ByNumberDescending(PopularCount));
    var n := if |sorted| < 5 then |sorted| else 5;
    assert TopFive(entries) == sorted[..n];
    PopularOrdered(entries);
    PopularFromTally(tally, revenueOf, n);
  }

  /** Sorted by count descending: no later entry counts more. */
  lemma PopularOrdered(entries: seq<Popular>)
    ensures var sorted := Sort(entries, ByNumberDescending(PopularCount));
      forall i, j :: 0 <= i < j < |entries| ==> sorted[i].count >= sorted[j].count
  {
    var le := ByNumberDescending(PopularCount);
    var sorted := Sort(entries, le);
    ByNumberDescendingPreorder(PopularCount);
    SortSorted(entries, le);
    forall i, j | 0 <= i < j < |entries| ensures sorted[i].count >= sorted[j].count {
      assert le(sorted[i], sorted[j]) == (PopularCount(sorted[j]) <= PopularCount(sorted[i]));
    }
  }

  /** Every sorted entry is a tally bucket with its revenue. */
  lemma PopularFromTally(tally: seq<Bucket>, revenueOf: string -> int, n: nat)
    requires n <= |tally|
    ensures var sorted := Sort(PopularEntries(tally, revenueOf), ByNumberDescending(PopularCount));
      forall p :: p in sorted[..n] ==> Bucket(p.category, p.count) in tally && p.revenue == revenueOf(p.category)
  {
    var entries := PopularEntries(tally, revenueOf);
    var sorted := Sort(entries, ByNumberDescending(PopularCount));
    SortPermutes(entries, ByNumberDescending(PopularCount));
    forall p | p in sorted[..n] ensures Bucket(p.category, p.count) in tally && p.revenue == revenueOf(p.category) {
      assert p in multiset(sorted);
      assert p in entries;
      var i :| 0 <= i < |entries| && entries[i] == p;
      assert tally[i] == Bucket(p.category, p.count);
    }
  }

  /** Two row lists with the same categories and counts, position by position. */
  ghost predicate SameRanks(a: seq<Popular>, b: seq<Popular>)
  {
    |a| == |b| && forall i :: 0 <= i < |a| ==> a[i].category == b[i].category && a[i].count == b[i].count
  }

  /** The count sort never looks at revenue: rows that agree on category and
      count sort to rows that agree on them. */
  lemma {:induction false} InsertSameRanks(a: seq<Popular>, b: seq<Popular>, x: Popular, y: Popular)
    requires SameRanks(a, b) && x.category == y.category && x.count == y.count
    ensures SameRanks(Insert(a, x, ByNumberDescending(PopularCount)), Insert(b, y, ByNumberDescending(PopularCount)))
  {
    var le := ByNumberDescending(PopularCount);
    if a != [] {
      assert a[|a| - 1].count == b[|b| - 1].count;
      assert le(a[|a| - 1], x) == (PopularCount(x) <= PopularCount(a[|a| - 1]));
      assert le(b[|b| - 1], y) == (PopularCount(y) <= PopularCount(b[|b| - 1]));
    }
    if a != [] && !le(a[|a| - 1], x) {
      InsertSameRanks(a[..|a| - 1], b[..|b| - 1], x, y);
    }
  }

  lemma {:induction false} SortSameRanks(a: seq<Popular>, b: seq<Popular>)
    requires SameRanks(a, b)
    ensures SameRanks(Sort(a, ByNumberDescending(PopularCount)), Sort(b, ByNumberDescending(PopularCount)))
  {
    if a != [] {
      SortSameRanks(a[..|a| - 1], b[..|b| - 1]);
      InsertSameRanks(Sort(a[..|a| - 1], ByNumberDescending(PopularCount)), Sort(b[..|b| - 1], ByNumberDescending(PopularCount)),
        a[|a| - 1], b[|b| - 1]);
    }
  }

  // ---------------------------------------------------------------------
  // Monthly groupings

  datatype Calendar = Calendar(year: nat, month: nat)  // month as `getMonth()`, 0 for January

  /** `${getFullYear()}-${String(getMonth() + 1).padStart(2, '0')}`. */
  function MonthKey(c: Calendar): (k: string)
    ensures k == Decimal(c.year) + "-" + Pad2(c.month + 1)
    ensures c.month < 12 ==> |k| == |Decimal(c.year)| + 3
  {
    Decimal(c.year) + "-" + Pad2(c.month + 1)
  }

  lemma MonthKeyExamples()
    ensures MonthKey(Calendar(7, 0)) == "7-01"
    ensures MonthKey(Calendar(7, 11)) == "7-12"
  {
    assert Decimal(7) == "7";
    assert Decimal(1) == "1";
    assert Decimal(12) == Decimal(1) + "2";
  }

  /** The entries a month grouping feeds: each record's month key and weight. */
  function MonthEntries<T>(data: seq<T>, month: T -> string, weight: T -> int): (e: seq<Entry>)
    ensures |e| == |data|
    ensures forall i :: 0 <= i < |data| ==> e[i] == Entry(month(data[i]), weight(data[i]))
  {
    seq(|data|, i requires 0 <= i < |data| => Entry(month(data[i]), weight(data[i])))
  }

  /** The `forEach` that fills `monthlyData`. */
  method GroupByMonth<T>(data: seq<T>, month: T -> string, weight: T -> int) returns (tally: seq<Bucket>)
    ensures tally == TallyOf(MonthEntries(data, month, weight))
  {
    tally := [];
    var i := 0;
    while i < |data|
      invariant 0 <= i <= |data|
      invariant tally == TallyOf(MonthEntries(data[..i], month, weight))
    {
      var fed := MonthEntries(data[..i + 1], month, weight);
      assert fed[..i] == MonthEntries(data[..i], month, weight);
      tally := Bumped(tally, month(data[i]), weight(data[i]));
      i := i + 1;
    }
    assert data[..i] == data;
  }

  function BucketKey(b: Bucket): string { b.key }

  /** `.sort(by month key).slice(-6)`. */
  function LastSix(tally: seq<Bucket>): seq<Bucket>
  {
    var sorted := Sort(tally, ByText(BucketKey));
    Slice(sorted, -6, |sorted|)
  }

  /** At most six months, in key order, drawn from the tally, and no month
      left out comes after a month kept. */
  lemma LastSixSpec(tally: seq<Bucket>)
    ensures |LastSix(tally)| == if |tally| < 6 then |tally| else 6
    ensures multiset(LastSix(tally)) <= multiset(tally)
    ensures SortedBy(LastSix(tally), ByText(BucketKey))
    ensures forall i, j :: 0 <= i < |tally| - |LastSix(tally)| && 0 <= j < |LastSix(tally)| ==>
      LexLe(Sort(tally, ByText(BucketKey))[i].key, LastSix(tally)[j].key)
  {
    var le := ByText(BucketKey);
    var sorted := Sort(tally, le);
    SortPermutes(tally, le);
    ByTextPreorder(BucketKey);
    SortSorted(tally, le);
    var start := if |sorted| < 6 then 0 else |sorted| - 6;
    var r := LastSix(tally);
    assert r == sorted[start..];
    assert sorted == sorted[..start] + r;
    assert multiset(sorted) == multiset(sorted[..start]) + multiset(r);
    forall i, j | 0 <= i < |tally| - |r| && 0 <= j < |r| ensures LexLe(sorted[i].key, r[j].key) {
      assert r[j] == sorted[start + j];
      assert le(sorted[i], sorted[start + j]) == LexLe(BucketKey(sorted[i]), BucketKey(sorted[start + j]));
    }
  }

  function UserWeight(): User -> int { (u: User) => 1 }

  /** Before the cut to six months, the per-month user counts add up to the
      number of users, and the months revenue is grouped by add up to the
      total revenue. */
  lemma {:induction false} MonthlySums<T>(data: seq<T>, month: T -> string, weight: T -> int)
    ensures Sum(TallyOf(MonthEntries(data, month, weight)), Amount) == Sum(data, weight)
  {
    TallyOfSpec(MonthEntries(data, month, weight));
    MonthEntriesWeight(data, month, weight);
  }

  lemma {:induction false} MonthEntriesWeight<T>(data: seq<T>, month: T -> string, weight: T -> int)
    ensures TotalWeight(MonthEntries(data, month, weight)) == Sum(data, weight)
  {
    if data != [] {
      var n := |data| - 1;
      var e := MonthEntries(data, month, weight);
      assert e[..n] == MonthEntries(data[..n], month, weight);
      MonthEntriesWeight(data[..n], month, weight);
      assert data == data[..n] + [data[n]];
      SumConcat(data[..n], [data[n]], weight);
      SumSingle(data[n], weight);
    }
  }

  lemma UserGrowthCounts(users: seq<User>, month: User -> string)
    ensures Sum(TallyOf(MonthEntries(users, month, UserWeight())), Amount) == |users|
  {
    MonthlySums(users, month, UserWeight());
    forall u | u in users ensures UserWeight()(u) >= 1 { }
    SumAtLeastLength(users, UserWeight());
    UserWeightSum(users);
  }

  lemma {:induction false} UserWeightSum(users: seq<User>)
    ensures Sum(users, UserWeight()) == |users|
  {
    if users != [] { UserWeightSum(users[1..]); }
  }

  // ---------------------------------------------------------------------
  // processAnalyticsData

  datatype Report = Report(
    totalRevenue: int, totalOrders: nat, totalUsers: nat, totalProducts: nat, averageOrderValue: real,
    popularCategories: seq<Popular>, recentOrders: seq<Order>, monthlyRevenue: seq<Bucket>, userGrowth: seq<Bucket>)

  /** `processAnalyticsData(orders, users, products, range)`: the clock gives
      the two window starts, and `calendar` reads a timestamp's year and
      month. The recent-orders sort reorders the filtered orders in place, so
      the monthly revenue is grouped from the sorted list. */
  method ProcessAnalyticsData(orders: seq<Order>, users: seq<User>, products: seq<Product>, range: string,
                              weekStart: int, monthStart: int, calendar: int -> Calendar)
    returns (report: Report)
    ensures var fo := ByTimeRange(orders, range, OrderStamp, weekStart, monthStart);
      report.totalRevenue == Sum(fo, OrderTotal) && report.totalOrders == |fo| &&
      report.averageOrderValue == AverageOrderValue(Sum(fo, OrderTotal), |fo|) &&
      report.popularCategories == PopularCategories(TallyOf(CategoryEntries(fo)), fo) &&
      report.recentOrders == Slice(Sort(fo, ByNumberDescending(OrderStamp)), 0, 5) &&
      report.monthlyRevenue == LastSix(TallyOf(MonthEntries(Sort(fo, ByNumberDescending(OrderStamp)),
        (o: Order) => MonthKey(calendar(OrderStamp(o))), OrderTotal)))
    ensures report.totalUsers == |ByTimeRange(users, range, UserStamp, weekStart, monthStart)|
    ensures report.totalProducts == |products|
    ensures report.userGrowth == LastSix(TallyOf(MonthEntries(users, (u: User) => MonthKey(calendar(UserStamp(u))), UserWeight())))
  {
    var fo := ByTimeRange(orders, range, OrderStamp, weekStart, monthStart);
    var fu := ByTimeRange(users, range, UserStamp, weekStart, monthStart);
    var revenue := Sum(fo, OrderTotal);
    var tally := CountCategories(fo);
    var sorted := SortCopy(fo, ByNumberDescending(OrderStamp));
    var months := GroupByMonth(sorted, (o: Order) => MonthKey(calendar(OrderStamp(o))), OrderTotal);
    var growth := GroupByMonth(users, (u: User) => MonthKey(calendar(UserStamp(u))), UserWeight());
    report := Report(revenue, |fo|, |fu|, |products|, AverageOrderValue(revenue, |fo|),
      PopularCategories(tally, fo), Slice(sorted, 0, 5), LastSix(months), LastSix(growth));
  }
}
