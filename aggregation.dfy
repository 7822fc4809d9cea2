// The figures both dashboards compute from the order list: the period filter,
// revenue, order count and average, revenue per category, and the best-selling
// products.
//
// `new Date()` and the calendar arithmetic of `setDate`/`setMonth` are not
// modelled: the three cutoff instants are supplied, in the same YYYYMMDDhhmm
// encoding as `createdAt`. The catalog is a parameter so that the figures can
// be stated for any product list; the pages pass the store's catalog.
//
// A JavaScript object used as a dictionary (`Record<string, ...>`) keeps its
// keys in insertion order; it is modelled as `Dict`: the keys in that order and
// a map from key to value.

module Aggregation {
  import opened Wrappers
  import opened Seqs
  import opened Orders
  import Catalog

  // ---------------------------------------------------------------------------
  // The period filter

  datatype Period = Week | Month | Quarter

  /** The instants a week, a month and three months before now. */
  datatype Cutoffs = Cutoffs(week: int, month: int, quarter: int)

  function CutoffOf(c: Cutoffs, p: Period): int
  {
    match p
    case Week => c.week
    case Month => c.month
    case Quarter => c.quarter
  }

  /** Staff `getFilteredOrders`: the orders created at or after the period's cutoff. */
  function FilteredOrders(orders: seq<Order>, c: Cutoffs, p: Period): seq<Order>
  {
    Filter(orders, (o: Order) => o.createdAt >= CutoffOf(c, p))
  }

  /** Club `getFilteredOrders`: the same, and only the orders of club `clubId`. */
  function ClubFilteredOrders(orders: seq<Order>, c: Cutoffs, p: Period, clubId: string): seq<Order>
  {
    Filter(orders, (o: Order) => o.createdAt >= CutoffOf(c, p) && o.clubId == clubId)
  }

  /** The staff filter keeps exactly the orders at or after the cutoff, every copy of each,
      in list order. */
  lemma FilteredOrdersMeaning(orders: seq<Order>, c: Cutoffs, p: Period)
    ensures IsSubsequence(FilteredOrders(orders, c, p), orders)
    ensures forall i :: 0 <= i < |FilteredOrders(orders, c, p)| ==>
              FilteredOrders(orders, c, p)[i].createdAt >= CutoffOf(c, p)
    ensures forall i :: 0 <= i < |orders| && orders[i].createdAt >= CutoffOf(c, p) ==>
              orders[i] in FilteredOrders(orders, c, p)
    ensures multiset(FilteredOrders(orders, c, p)) <= multiset(orders)
    ensures forall i :: 0 <= i < |orders| ==>
              multiset(FilteredOrders(orders, c, p))[orders[i]] ==
              if orders[i].createdAt >= CutoffOf(c, p) then multiset(orders)[orders[i]] else 0
  {
    FilterIsSubsequence(orders, (o: Order) => o.createdAt >= CutoffOf(c, p));
    FilterCounts(orders, (o: Order) => o.createdAt >= CutoffOf(c, p));
  }

  /** The club filter is the staff filter followed by a filter on the club. */
  lemma ClubFilterIsStaffThenClub(orders: seq<Order>, c: Cutoffs, p: Period, clubId: string)
    ensures ClubFilteredOrders(orders, c, p, clubId) ==
            Filter(FilteredOrders(orders, c, p), (o: Order) => o.clubId == clubId)
  {
    FilterTwice(orders, (o: Order) => o.createdAt >= CutoffOf(c, p), (o: Order) => o.clubId == clubId,
                (o: Order) => o.createdAt >= CutoffOf(c, p) && o.clubId == clubId);
  }

  /** When every order belongs to `clubId`, the club filter is the staff filter. */
  lemma OneClubFilterIsStaffFilter(orders: seq<Order>, c: Cutoffs, p: Period, clubId: string)
    requires forall i :: 0 <= i < |orders| ==> orders[i].clubId == clubId
    ensures ClubFilteredOrders(orders, c, p, clubId) == FilteredOrders(orders, c, p)
  {
    FilterExtensional(orders, (o: Order) => o.createdAt >= CutoffOf(c, p) && o.clubId == clubId,
                      (o: Order) => o.createdAt >= CutoffOf(c, p));
  }

  /** When the cutoffs lie in calendar order, a shorter period's orders are among a longer one's,
      in the same order. */
  lemma PeriodsNest(orders: seq<Order>, c: Cutoffs)
    requires c.quarter <= c.month <= c.week
    ensures IsSubsequence(FilteredOrders(orders, c, Week), FilteredOrders(orders, c, Month))
    ensures IsSubsequence(FilteredOrders(orders, c, Month), FilteredOrders(orders, c, Quarter))
  {
    FilterMonotone(orders, (o: Order) => o.createdAt >= c.week, (o: Order) => o.createdAt >= c.month);
    FilterMonotone(orders, (o: Order) => o.createdAt >= c.month, (o: Order) => o.createdAt >= c.quarter);
  }

  // ---------------------------------------------------------------------------
  // Revenue, count and average

  function OrderTotalOf(o: Order): int
  {
    o.total
  }

  /** `totalRevenue`: the sum of the order totals. */
  function TotalRevenue(orders: seq<Order>): int
  {
    Sum(orders, OrderTotalOf)
  }

  /** `Math.round(total / count)` for a positive count: the nearest integer, halves rounded up. */
  function RoundedAverage(total: int, count: int): (r: int)
    requires count > 0
    ensures 2 * count * r - count <= 2 * total < 2 * count * r + count
  {
    (2 * total + count) / (2 * count)
  }

  /** The "Snittorder" figure: an average only when there is an order, so never a division by
      zero; with no orders the card shows "0 kr". */
  function Average(total: int, count: int): (r: Option<int>)
    requires count >= 0
    ensures r.None? <==> count == 0
    ensures r.Some? ==> 2 * count * r.value - count <= 2 * total < 2 * count * r.value + count
  {
    if count == 0 then None else Some(RoundedAverage(total, count))
  }

  /** Revenue grows with the orders kept: adding an order adds its total. */
  lemma RevenueOfAppended(orders: seq<Order>, o: Order)
    ensures TotalRevenue(orders + [o]) == TotalRevenue(orders) + o.total
  {
    SumSnoc(orders, o, OrderTotalOf);
  }

  /** The revenue of orders with non-negative totals is non-negative, and an average of such
      orders is non-negative. */
  lemma RevenueNonNegative(orders: seq<Order>)
    requires forall i :: 0 <= i < |orders| ==> orders[i].total >= 0
    ensures TotalRevenue(orders) >= 0
    ensures |orders| > 0 ==> RoundedAverage(TotalRevenue(orders), |orders|) >= 0
  {
    forall x | x in orders
      ensures OrderTotalOf(x) >= 0
    {
      var i :| 0 <= i < |orders| && orders[i] == x;
    }
    SumNonNegative(orders, OrderTotalOf);
  }

  // ---------------------------------------------------------------------------
  // Dictionaries in insertion order

  datatype Dict<V> = Dict(keys: seq<string>, values: map<string, V>)

  const EmptyDict: Dict<int> := Dict([], map[])

  /** The keys are distinct and are exactly the map's domain. */
  predicate WellFormed<V>(d: Dict<V>)
  {
    NoDuplicates(d.keys) && (forall k :: k in d.values ==> k in d.keys) && (forall k :: k in d.keys ==> k in d.values)
  }

  /** `d[k] = v`: a new key goes to the end of the key order, an old one keeps its place, and
      assignment keeps the keys distinct and in step with the map. */
  function Put<V>(d: Dict<V>, k: string, v: V): (r: Dict<V>)
    ensures r.values == d.values[k := v]
    ensures k in d.values ==> r.keys == d.keys
    ensures k !in d.values ==> r.keys == d.keys + [k]
    ensures WellFormed(d) ==> WellFormed(r)
  {
    if k in d.values then Dict(d.keys, d.values[k := v])
    else
      assert WellFormed(d) ==> NoDuplicates(d.keys + [k]) by {
        if WellFormed(d) {
          AppendFreshKey(d.keys, k);
        }
      }
      Dict(d.keys + [k], d.values[k := v])
  }

  lemma AppendFreshKey(keys: seq<string>, k: string)
    requires NoDuplicates(keys) && k !in keys
    ensures NoDuplicates(keys + [k])
  {
    var all := keys + [k];
    forall i, j | 0 <= i < j < |all|
      ensures all[i] != all[j]
    {
      if j == |all| - 1 {
        assert all[i] in keys;
      }
    }
  }

  /** `Object.values(d)`, in key order. */
  function Values<V>(d: Dict<V>): (r: seq<V>)
    requires WellFormed(d)
    ensures |r| == |d.keys|
    ensures forall i :: 0 <= i < |r| ==> r[i] == d.values[d.keys[i]]
  {
    seq(|d.keys|, i requires 0 <= i < |d.keys| && WellFormed(d) => d.values[d.keys[i]])
  }

  /** `Object.values` lists every stored value, and nothing but stored values. */
  lemma ValuesListsTable<V>(d: Dict<V>)
    requires WellFormed(d)
    ensures forall k :: k in d.values ==> d.values[k] in Values(d)
    ensures forall x :: x in Values(d) ==> exists k :: k in d.values && d.values[k] == x
  {
    forall k | k in d.values
      ensures d.values[k] in Values(d)
    {
      var i :| 0 <= i < |d.keys| && d.keys[i] == k;
      assert Values(d)[i] == d.values[k];
    }
    forall x | x in Values(d)
      ensures exists k :: k in d.values && d.values[k] == x
    {
      var i :| 0 <= i < |Values(d)| && Values(d)[i] == x;
      assert d.keys[i] in d.values;
    }
  }

  // ---------------------------------------------------------------------------
  // Revenue by category

  /** The catalog category of the product a line names, if the catalog has that product. */
  function CategoryOf(catalog: seq<Catalog.Product>, item: OrderItem): Option<string>
  {
    var p := Catalog.FindProduct(catalog, item.productId);
    if p.Some? then Some(p.value.category) else None
  }

  /** One pass of the inner `forEach`: the line's revenue goes to its product's category; a
      line whose product is not in the catalog is skipped. */
  function AddCategoryLine(catalog: seq<Catalog.Product>, d: Dict<int>, item: OrderItem): Dict<int>
  {
    var cat := CategoryOf(catalog, item);
    if cat.None? then d
    else Put(d, cat.value, (if cat.value in d.values then d.values[cat.value] else 0) + LineTotal(item))
  }

  function AddCategoryLines(catalog: seq<Catalog.Product>, d: Dict<int>, items: seq<OrderItem>): Dict<int>
  {
    if items == [] then d
    else AddCategoryLine(catalog, AddCategoryLines(catalog, d, items[..|items| - 1]), items[|items| - 1])
  }

  /** The `categoryRevenue` object after the loops have run over `orders`. */
  function CategoryTable(catalog: seq<Catalog.Product>, orders: seq<Order>): Dict<int>
  {
    if orders == [] then EmptyDict
    else AddCategoryLines(catalog, CategoryTable(catalog, orders[..|orders| - 1]), orders[|orders| - 1].items)
  }

  /** The nested `forEach` loops that fill `categoryRevenue`. */
  method CategoryRevenue(catalog: seq<Catalog.Product>, orders: seq<Order>) returns (table: Dict<int>)
    ensures table == CategoryTable(catalog, orders)
  {
    table := EmptyDict;
    for i := 0 to |orders|
      invariant table == CategoryTable(catalog, orders[..i])
    {
      var items := orders[i].items;
      ghost var before := table;
      for j := 0 to |items|
        invariant table == AddCategoryLines(catalog, before, items[..j])
      {
        table := AddCategoryLine(catalog, table, items[j]);
        assert items[..j + 1][..j] == items[..j];
      }
      assert items[..|items|] == items;
      assert orders[..i + 1][..i] == orders[..i];
    }
    assert orders[..|orders|] == orders;
  }

  /** Every line of every order, in order. */
  function AllItems(orders: seq<Order>): seq<OrderItem>
  {
    if orders == [] then [] else AllItems(orders[..|orders| - 1]) + orders[|orders| - 1].items
  }

  /** The revenue of the lines whose product has category `cat`. */
  function CategorySum(catalog: seq<Catalog.Product>, items: seq<OrderItem>, cat: string): int
  {
    if items == [] then 0
    else
      CategorySum(catalog, items[..|items| - 1], cat) +
      (if CategoryOf(catalog, items[|items| - 1]) == Some(cat) then LineTotal(items[|items| - 1]) else 0)
  }

  /** Some line of `items` has a product of category `cat`. */
  predicate HasCategory(catalog: seq<Catalog.Product>, items: seq<OrderItem>, cat: string)
  {
    exists k :: 0 <= k < |items| && CategoryOf(catalog, items[k]) == Some(cat)
  }

  function Get(d: Dict<int>, k: string): int
  {
    if k in d.values then d.values[k] else 0
  }

  /** Adding lines keeps a category table well formed. */
  lemma {:induction false} AddCategoryLinesWellFormed(catalog: seq<Catalog.Product>, d: Dict<int>, items: seq<OrderItem>)
    requires WellFormed(d)
    ensures WellFormed(AddCategoryLines(catalog, d, items))
  {
    if items != [] {
      var mid := AddCategoryLines(catalog, d, items[..|items| - 1]);
      AddCategoryLinesWellFormed(catalog, d, items[..|items| - 1]);
      var x := items[|items| - 1];
      var cat := CategoryOf(catalog, x);
      if cat.Some? {
      }
    }
  }

  lemma HasCategorySnoc(catalog: seq<Catalog.Product>, items: seq<OrderItem>, cat: string)
    requires items != []
    ensures HasCategory(catalog, items, cat) <==>
            HasCategory(catalog, items[..|items| - 1], cat) || CategoryOf(catalog, items[|items| - 1]) == Some(cat)
  {
    var pre := items[..|items| - 1];
    if HasCategory(catalog, items, cat) {
      var k :| 0 <= k < |items| && CategoryOf(catalog, items[k]) == Some(cat);
      if k < |pre| {
        assert pre[k] == items[k];
      }
    }
    if HasCategory(catalog, pre, cat) {
      var k :| 0 <= k < |pre| && CategoryOf(catalog, pre[k]) == Some(cat);
      assert items[k] == pre[k];
    }
  }

  /** What adding lines does to one category: it gains exactly the revenue of its lines, and
      appears when one of its lines does. */
  lemma {:induction false} AddCategoryLinesAt(catalog: seq<Catalog.Product>, d: Dict<int>, items: seq<OrderItem>, cat: string)
    ensures cat in AddCategoryLines(catalog, d, items).values <==> cat in d.values || HasCategory(catalog, items, cat)
    ensures Get(AddCategoryLines(catalog, d, items), cat) == Get(d, cat) + CategorySum(catalog, items, cat)
  {
    if items != [] {
      AddCategoryLinesAt(catalog, d, items[..|items| - 1], cat);
      HasCategorySnoc(catalog, items, cat);
    }
  }

  /** `AllItems` of one more order is the earlier lines followed by that order's lines. */
  lemma {:induction false} AddCategoryLinesConcat(catalog: seq<Catalog.Product>, d: Dict<int>, a: seq<OrderItem>, b: seq<OrderItem>)
    ensures AddCategoryLines(catalog, d, a + b) == AddCategoryLines(catalog, AddCategoryLines(catalog, d, a), b)
  {
    if b == [] {
      assert a + b == a;
    } else {
      assert (a + b)[..|a + b| - 1] == a + b[..|b| - 1];
      AddCategoryLinesConcat(catalog, d, a, b[..|b| - 1]);
    }
  }

  lemma {:induction false} CategoryTableIsAllItems(catalog: seq<Catalog.Product>, orders: seq<Order>)
    ensures CategoryTable(catalog, orders) == AddCategoryLines(catalog, EmptyDict, AllItems(orders))
  {
    if orders != [] {
      CategoryTableIsAllItems(catalog, orders[..|orders| - 1]);
      AddCategoryLinesConcat(catalog, EmptyDict, AllItems(orders[..|orders| - 1]), orders[|orders| - 1].items);
    }
  }

  /** `categoryRevenue[cat]` is the revenue of all lines whose catalog product has category
      `cat`; a category is present exactly when such a line exists, so lines with an unknown
      product are skipped. */
  lemma CategoryTableMeaning(catalog: seq<Catalog.Product>, orders: seq<Order>)
    ensures WellFormed(CategoryTable(catalog, orders))
    ensures forall cat :: cat in CategoryTable(catalog, orders).values <==>
              HasCategory(catalog, AllItems(orders), cat)
    ensures forall cat :: cat in CategoryTable(catalog, orders).values ==>
              CategoryTable(catalog, orders).values[cat] == CategorySum(catalog, AllItems(orders), cat)
  {
    CategoryTableIsAllItems(catalog, orders);
    AddCategoryLinesWellFormed(catalog, EmptyDict, AllItems(orders));
    forall cat
      ensures cat in CategoryTable(catalog, orders).values <==> HasCategory(catalog, AllItems(orders), cat)
      ensures Get(CategoryTable(catalog, orders), cat) == CategorySum(catalog, AllItems(orders), cat)
    {
      AddCategoryLinesAt(catalog, EmptyDict, AllItems(orders), cat);
    }
  }

  // ---------------------------------------------------------------------------
  // The bar scale

  /** `Math.max(...values, floor)`. */
  function MaxWithFloor(values: seq<int>, floor: int): (r: int)
    ensures r >= floor
    ensures forall i :: 0 <= i < |values| ==> values[i] <= r
    ensures r == floor || exists i :: 0 <= i < |values| && values[i] == r
  {
    if values == [] then floor
    else
      var m := MaxWithFloor(values[1..], floor);
      assert forall i :: 1 <= i < |values| ==> values[i] == values[1..][i - 1];
      if values[0] >= m then values[0] else m
  }

  /** `maxCatRevenue`: at least 1, so the bar width `rev / maxCatRevenue` never divides by zero,
      and at least every category's revenue, so no bar is wider than 100%. */
  lemma MaxCategoryRevenueBounds(table: Dict<int>)
    requires WellFormed(table)
    ensures MaxWithFloor(Values(table), 1) >= 1
    ensures forall cat :: cat in table.values ==> table.values[cat] <= MaxWithFloor(Values(table), 1)
  {
    forall cat | cat in table.values
      ensures table.values[cat] <= MaxWithFloor(Values(table), 1)
    {
      var i :| 0 <= i < |table.keys| && table.keys[i] == cat;
      assert Values(table)[i] == table.values[cat];
    }
  }

  // ---------------------------------------------------------------------------
  // Sorting by a score, highest first (`Array.prototype.sort` is stable)

  /** Scores never increase along `s`. */
  predicate Descending<T>(s: seq<T>, score: T -> int)
  {
    forall i, j :: 0 <= i < j < |s| ==> score(s[i]) >= score(s[j])
  }

  /** Insert `x` after every element scoring at least as much, so earlier ties stay first. */
  function Insert<T>(sorted: seq<T>, x: T, score: T -> int): (r: seq<T>)
    ensures |r| == |sorted| + 1
    ensures multiset(r) == multiset(sorted) + multiset{x}
  {
    if sorted == [] then [x]
    else if score(sorted[0]) >= score(x) then
      assert sorted == [sorted[0]] + sorted[1..];
      [sorted[0]] + Insert(sorted[1..], x, score)
    else [x] + sorted
  }

  lemma {:induction false} InsertDescending<T>(sorted: seq<T>, x: T, score: T -> int)
    requires Descending(sorted, score)
    ensures Descending(Insert(sorted, x, score), score)
  {
    if sorted != [] && score(sorted[0]) >= score(x) {
      var tail := sorted[1..];
      assert Descending(tail, score) by {
        forall i, j | 0 <= i < j < |tail|
          ensures score(tail[i]) >= score(tail[j])
        {
          assert tail[i] == sorted[i + 1] && tail[j] == sorted[j + 1];
        }
      }
      InsertDescending(tail, x, score);
      var r := Insert(sorted, x, score);
      forall j | 1 <= j < |r|
        ensures score(r[0]) >= score(r[j])
      {
        var y := r[j];
        assert y in multiset(Insert(tail, x, score));
        assert y in multiset(tail) || y == x;
        if y in multiset(tail) {
          assert y in tail;
          var k :| 0 <= k < |tail| && tail[k] == y;
          assert sorted[k + 1] == y;
        }
      }
    }
  }

  /** The elements of `s` ordered by score, highest first. */
  function SortByScore<T>(s: seq<T>, score: T -> int): (r: seq<T>)
    ensures |r| == |s|
    ensures multiset(r) == multiset(s)
  {
    if s == [] then []
    else
      assert s == s[..|s| - 1] + [s[|s| - 1]];
      Insert(SortByScore(s[..|s| - 1], score), s[|s| - 1], score)
  }

  lemma {:induction false} SortByScoreDescending<T>(s: seq<T>, score: T -> int)
    ensures Descending(SortByScore(s, score), score)
  {
    if s != [] {
      SortByScoreDescending(s[..|s| - 1], score);
      InsertDescending(SortByScore(s[..|s| - 1], score), s[|s| - 1], score);
    }
  }

  /** In a descending list, nothing after position `n` scores more than anything before it. */
  lemma PrefixDominates<T>(sorted: seq<T>, n: nat, score: T -> int)
    requires Descending(sorted, score) && n <= |sorted|
    ensures forall p, q :: p in sorted[..n] && q in multiset(sorted[n..]) ==> score(q) <= score(p)
  {
    forall p, q | p in sorted[..n] && q in multiset(sorted[n..])
      ensures score(q) <= score(p)
    {
      var i :| 0 <= i < n && sorted[..n][i] == p;
      assert q in sorted[n..];
      var j :| 0 <= j < |sorted| - n && sorted[n..][j] == q;
      assert sorted[i] == p && sorted[n + j] == q;
    }
  }

  // ---------------------------------------------------------------------------
  // Product sales and the top list

  /** One value of `productSales`. */
  datatype ProductSale = ProductSale(name: string, qty: int, revenue: int)

  function RevenueOf(p: ProductSale): int
  {
    p.revenue
  }

  /** One pass of the inner `forEach`: the first line of a product creates its entry with that
      line's name; every line adds its quantity and revenue. */
  function AddSaleLine(d: Dict<ProductSale>, item: OrderItem): Dict<ProductSale>
  {
    var cur := if item.productId in d.values then d.values[item.productId] else ProductSale(item.productName, 0, 0);
    Put(d, item.productId, cur.(qty := cur.qty + item.quantity, revenue := cur.revenue + LineTotal(item)))
  }

  function AddSaleLines(d: Dict<ProductSale>, items: seq<OrderItem>): Dict<ProductSale>
  {
    if items == [] then d else AddSaleLine(AddSaleLines(d, items[..|items| - 1]), items[|items| - 1])
  }

  /** The `productSales` object after the loops have run over `orders`. */
  function SalesTable(orders: seq<Order>): Dict<ProductSale>
  {
    if orders == [] then Dict([], map[])
    else AddSaleLines(SalesTable(orders[..|orders| - 1]), orders[|orders| - 1].items)
  }

  /** The nested `forEach` loops that fill `productSales`. */
  method ProductSales(orders: seq<Order>) returns (table: Dict<ProductSale>)
    ensures table == SalesTable(orders)
  {
    table := Dict([], map[]);
    for i := 0 to |orders|
      invariant table == SalesTable(orders[..i])
    {
      var items := orders[i].items;
      ghost var before := table;
      for j := 0 to |items|
        invariant table == AddSaleLines(before, items[..j])
      {
        table := AddSaleLine(table, items[j]);
        assert items[..j + 1][..j] == items[..j];
      }
      assert items[..|items|] == items;
      assert orders[..i + 1][..i] == orders[..i];
    }
    assert orders[..|orders|] == orders;
  }

  /** The quantity and revenue of the lines of product `id`. */
  function QtySum(items: seq<OrderItem>, id: string): int
  {
    if items == [] then 0
    else QtySum(items[..|items| - 1], id) + (if items[|items| - 1].productId == id then items[|items| - 1].quantity else 0)
  }

  function RevenueSum(items: seq<OrderItem>, id: string): int
  {
    if items == [] then 0
    else RevenueSum(items[..|items| - 1], id) + (if items[|items| - 1].productId == id then LineTotal(items[|items| - 1]) else 0)
  }

  /** The first line of product `id`. */
  function FirstLine(items: seq<OrderItem>, id: string): (r: Option<OrderItem>)
    ensures r.None? <==> forall k :: 0 <= k < |items| ==> items[k].productId != id
    ensures r.Some? ==> r.value.productId == id
  {
    if items == [] then None
    else if items[0].productId == id then Some(items[0])
    else FirstLine(items[1..], id)
  }

  /** The line found is a line of the list, and no earlier line names the product: the entry's
      name comes from the first line seen. */
  lemma {:induction false} FirstLineIsFirst(items: seq<OrderItem>, id: string)
    ensures FirstLine(items, id).Some? ==>
              exists k :: 0 <= k < |items| && items[k] == FirstLine(items, id).value &&
                          forall j :: 0 <= j < k ==> items[j].productId != id
  {
    if items != [] && items[0].productId != id && FirstLine(items, id).Some? {
      var tail := items[1..];
      FirstLineIsFirst(tail, id);
      var k :| 0 <= k < |tail| && tail[k] == FirstLine(tail, id).value &&
               forall j :: 0 <= j < k ==> tail[j].productId != id;
      assert items[k + 1] == tail[k];
      assert forall j :: 0 <= j < k + 1 ==> items[j].productId != id by {
        forall j | 0 <= j < k + 1
          ensures items[j].productId != id
        {
          if j > 0 {
            assert items[j] == tail[j - 1];
          }
        }
      }
    }
  }

  lemma {:induction false} FirstLineSnoc(items: seq<OrderItem>, x: OrderItem, id: string)
    ensures FirstLine(items + [x], id) ==
            if FirstLine(items, id).Some? then FirstLine(items, id)
            else if x.productId == id then Some(x) else None
  {
    if items == [] {
      assert items + [x] == [x];
    } else {
      assert (items + [x])[1..] == items[1..] + [x];
      FirstLineSnoc(items[1..], x, id);
    }
  }

  /** Adding lines keeps a sales table well formed. */
  lemma {:induction false} AddSaleLinesWellFormed(d: Dict<ProductSale>, items: seq<OrderItem>)
    requires WellFormed(d)
    ensures WellFormed(AddSaleLines(d, items))
  {
    if items != [] {
      var mid := AddSaleLines(d, items[..|items| - 1]);
      AddSaleLinesWellFormed(d, items[..|items| - 1]);
      var x := items[|items| - 1];
    }
  }

  /** The entry a sales table holds for `id` after adding lines: the old entry, or a new one named
      after the first line of `id`, increased by the quantity and revenue of the lines of `id`. */
  function SaleAfter(d: Dict<ProductSale>, items: seq<OrderItem>, id: string): Option<ProductSale>
  {
    if id in d.values then
      Some(d.values[id].(qty := d.values[id].qty + QtySum(items, id), revenue := d.values[id].revenue + RevenueSum(items, id)))
    else if FirstLine(items, id).Some? then
      Some(ProductSale(FirstLine(items, id).value.productName, QtySum(items, id), RevenueSum(items, id)))
    else None
  }

  /** What adding lines does to one product's entry. */
  lemma {:induction false} AddSaleLinesAt(d: Dict<ProductSale>, items: seq<OrderItem>, id: string)
    ensures var r := AddSaleLines(d, items);
      (id in r.values <==> SaleAfter(d, items, id).Some?) &&
      (id in r.values ==> r.values[id] == SaleAfter(d, items, id).value)
  {
    if items != [] {
      var pre := items[..|items| - 1];
      var x := items[|items| - 1];
      assert items == pre + [x];
      AddSaleLinesAt(d, pre, id);
      FirstLineSnoc(pre, x, id);
      if id !in d.values && FirstLine(pre, id).None? {
        SumsWithoutLine(pre, id);
      }
    }
  }

  /** A product without lines sums to nothing. */
  lemma {:induction false} SumsWithoutLine(items: seq<OrderItem>, id: string)
    requires FirstLine(items, id).None?
    ensures QtySum(items, id) == 0 && RevenueSum(items, id) == 0
  {
    if items != [] {
      var pre := items[..|items| - 1];
      assert FirstLine(pre, id).None? by {
        forall k | 0 <= k < |pre|
          ensures pre[k].productId != id
        {
          assert pre[k] == items[k];
        }
      }
      SumsWithoutLine(pre, id);
    }
  }

  /** Each entry of `productSales` sums the quantity and revenue of all lines of its product and
      is named after the first such line; a product has an entry exactly when it has a line. */
  lemma {:induction false} SalesTableAt(orders: seq<Order>, id: string)
    ensures var t := SalesTable(orders);
      (id in t.values <==> FirstLine(AllItems(orders), id).Some?) &&
      (id in t.values ==>
         t.values[id] == ProductSale(FirstLine(AllItems(orders), id).value.productName,
                                     QtySum(AllItems(orders), id), RevenueSum(AllItems(orders), id)))
  {
    if orders != [] {
      var pre := orders[..|orders| - 1];
      var items := orders[|orders| - 1].items;
      var all := AllItems(pre);
      assert AllItems(orders) == all + items;
      var t0 := SalesTable(pre);
      assert SalesTable(orders) == AddSaleLines(t0, items);
      SalesTableAt(pre, id);
      AddSaleLinesAt(t0, items, id);
      FirstLineConcat(all, items, id);
      SumsConcat(all, items, id);
      if id in t0.values {
        assert FirstLine(all + items, id) == FirstLine(all, id);
      } else {
        SumsWithoutLine(all, id);
        assert FirstLine(all + items, id) == FirstLine(items, id);
      }
    }
  }

  lemma {:induction false} SalesTableWellFormed(orders: seq<Order>)
    ensures WellFormed(SalesTable(orders))
  {
    if orders != [] {
      SalesTableWellFormed(orders[..|orders| - 1]);
      AddSaleLinesWellFormed(SalesTable(orders[..|orders| - 1]), orders[|orders| - 1].items);
    }
  }

  lemma SalesTableMeaning(orders: seq<Order>)
    ensures var t := SalesTable(orders);
      WellFormed(t) &&
      (forall id :: id in t.values <==> FirstLine(AllItems(orders), id).Some?) &&
      (forall id :: id in t.values ==>
         t.values[id] == ProductSale(FirstLine(AllItems(orders), id).value.productName,
                                     QtySum(AllItems(orders), id), RevenueSum(AllItems(orders), id)))
  {
    SalesTableWellFormed(orders);
    forall id
      ensures var t := SalesTable(orders);
        (id in t.values <==> FirstLine(AllItems(orders), id).Some?) &&
        (id in t.values ==>
           t.values[id] == ProductSale(FirstLine(AllItems(orders), id).value.productName,
                                       QtySum(AllItems(orders), id), RevenueSum(AllItems(orders), id)))
    {
      SalesTableAt(orders, id);
    }
  }

  lemma {:induction false} FirstLineConcat(a: seq<OrderItem>, b: seq<OrderItem>, id: string)
    ensures FirstLine(a + b, id) == if FirstLine(a, id).Some? then FirstLine(a, id) else FirstLine(b, id)
  {
    if a == [] {
      assert a + b == b;
    } else {
      assert (a + b)[1..] == a[1..] + b;
      FirstLineConcat(a[1..], b, id);
    }
  }

  lemma {:induction false} SumsConcat(a: seq<OrderItem>, b: seq<OrderItem>, id: string)
    ensures QtySum(a + b, id) == QtySum(a, id) + QtySum(b, id)
    ensures RevenueSum(a + b, id) == RevenueSum(a, id) + RevenueSum(b, id)
  {
    if b == [] {
      assert a + b == a;
    } else {
      assert (a + b)[..|a + b| - 1] == a + b[..|b| - 1];
      SumsConcat(a, b[..|b| - 1], id);
    }
  }

  /** `topProducts`: the sales entries by revenue, highest first, cut to five. */
  function TopProducts(t: Dict<ProductSale>): (r: seq<ProductSale>)
    requires WellFormed(t)
    ensures |r| <= 5
  {
    var sorted := SortByScore(Values(t), RevenueOf);
    if |sorted| <= 5 then sorted else sorted[..5]
  }

  /** The top list is in non-increasing revenue, holds entries of the table only, and no entry
      left out earns more than any entry shown. */
  lemma TopProductsMeaning(t: Dict<ProductSale>)
    requires WellFormed(t)
    ensures Descending(TopProducts(t), RevenueOf)
    ensures multiset(TopProducts(t)) <= multiset(Values(t))
    ensures |TopProducts(t)| == if |t.keys| < 5 then |t.keys| else 5
    ensures forall p, q :: p in TopProducts(t) && q in multiset(Values(t)) - multiset(TopProducts(t)) ==>
              q.revenue <= p.revenue
  {
    var sorted := SortByScore(Values(t), RevenueOf);
    SortByScoreDescending(Values(t), RevenueOf);
    var n := if |sorted| <= 5 then |sorted| else 5;
    assert TopProducts(t) == sorted[..n];
    assert sorted == sorted[..n] + sorted[n..];
    assert multiset(sorted) == multiset(sorted[..n]) + multiset(sorted[n..]);
    PrefixDominates(sorted, n, RevenueOf);
    assert Descending(sorted[..n], RevenueOf) by {
      forall i, j | 0 <= i < j < n
        ensures RevenueOf(sorted[..n][i]) >= RevenueOf(sorted[..n][j])
      {
        assert sorted[..n][i] == sorted[i] && sorted[..n][j] == sorted[j];
      }
    }
  }

  /** The category list of the overview, `Object.entries(categoryRevenue)` by revenue,
      highest first. */
  function EntryValue(e: (string, int)): int
  {
    e.1
  }

  /** `Object.entries(d)`, in key order. */
  function Entries(t: Dict<int>): (r: seq<(string, int)>)
    requires WellFormed(t)
    ensures |r| == |t.keys|
    ensures forall i :: 0 <= i < |r| ==> r[i] == (t.keys[i], t.values[t.keys[i]])
  {
    seq(|t.keys|, i requires 0 <= i < |t.keys| && WellFormed(t) => (t.keys[i], t.values[t.keys[i]]))
  }

  /** `Object.entries` pairs every key with its value, holds nothing else, and lists each key
      once. */
  lemma EntriesListTable(t: Dict<int>)
    requires WellFormed(t)
    ensures forall k :: k in t.values ==> (k, t.values[k]) in Entries(t)
    ensures forall e :: e in Entries(t) ==> e.0 in t.values && t.values[e.0] == e.1
    ensures forall i, j :: 0 <= i < j < |Entries(t)| ==> Entries(t)[i].0 != Entries(t)[j].0
  {
    forall k | k in t.values
      ensures (k, t.values[k]) in Entries(t)
    {
      var i :| 0 <= i < |t.keys| && t.keys[i] == k;
      assert Entries(t)[i] == (k, t.values[k]);
    }
  }

  function CategoryBars(t: Dict<int>): (r: seq<(string, int)>)
    requires WellFormed(t)
    ensures multiset(r) == multiset(Entries(t))
  {
    SortByScore(Entries(t), EntryValue)
  }

  lemma CategoryBarsDescending(t: Dict<int>)
    requires WellFormed(t)
    ensures Descending(CategoryBars(t), EntryValue)
  {
    SortByScoreDescending(Entries(t), EntryValue);
  }

  /** No bar is longer than the scale: every entry's revenue is at most `maxCatRevenue`. */
  lemma CategoryBarsWithinScale(t: Dict<int>)
    requires WellFormed(t)
    ensures forall i :: 0 <= i < |CategoryBars(t)| ==> CategoryBars(t)[i].1 <= MaxWithFloor(Values(t), 1)
  {
    var bars := CategoryBars(t);
    forall i | 0 <= i < |bars|
      ensures bars[i].1 <= MaxWithFloor(Values(t), 1)
    {
      assert bars[i] in multiset(Entries(t));
      var k :| 0 <= k < |Entries(t)| && Entries(t)[k] == bars[i];
      assert Values(t)[k] == bars[i].1;
    }
  }
}
