// The shopping cart (`CartProvider`): a list of lines, at most one per
// (product, size, variant), replaced as a whole by each operation, with the
// two totals derived from it by summing.
//
// Every operation builds its new list with `find`/`map`/`filter`/spread; those
// list computations are the functions below, and the `Cart` class assigns
// their results to its `items` field as `setItems` does. Loading from and
// saving to localStorage is not modelled.

module CartContext {
  import opened Wrappers
  import opened Seqs

  /** One cart line. `price`, `productName`, `variantColor` and `image` are copied from the
      product when the line is first added. */
  datatype CartItem = CartItem(
    productId: string,
    productName: string,
    size: string,
    variant: string,
    variantColor: string,
    quantity: int,
    price: int,
    image: string)

  /** The three fields that identify a line. */
  datatype LineKey = LineKey(productId: string, size: string, variant: string)

  function KeyOf(i: CartItem): LineKey
  {
    LineKey(i.productId, i.size, i.variant)
  }

  /** At most one line per key. */
  predicate UniqueKeys(items: seq<CartItem>)
  {
    forall i, j :: 0 <= i < j < |items| ==> KeyOf(items[i]) != KeyOf(items[j])
  }

  /** Every line has a quantity of at least one. */
  predicate PositiveQuantities(items: seq<CartItem>)
  {
    forall i :: 0 <= i < |items| ==> items[i].quantity >= 1
  }

  /** `prev.find(...)`: the first line with key `key`. */
  function FindLine(items: seq<CartItem>, key: LineKey): (r: Option<CartItem>)
    ensures r.None? <==> forall i :: 0 <= i < |items| ==> KeyOf(items[i]) != key
    ensures r.Some? ==> r.value in items && KeyOf(r.value) == key
  {
    if items == [] then None
    else if KeyOf(items[0]) == key then Some(items[0])
    else FindLine(items[1..], key)
  }

  /** `items` with the quantity of every line with key `KeyOf(item)` raised by `item.quantity`. */
  function Merged(items: seq<CartItem>, item: CartItem): (r: seq<CartItem>)
    ensures |r| == |items|
  {
    seq(|items|, k requires 0 <= k < |items| =>
      if KeyOf(items[k]) == KeyOf(item) then items[k].(quantity := items[k].quantity + item.quantity)
      else items[k])
  }

  /** The list `addItem(item)` leaves: merged into an existing line, or appended. */
  function Added(items: seq<CartItem>, item: CartItem): seq<CartItem>
  {
    if FindLine(items, KeyOf(item)).Some? then Merged(items, item) else items + [item]
  }

  /** The list `removeItem` leaves: every line except those with key `key`. */
  function Removed(items: seq<CartItem>, key: LineKey): seq<CartItem>
  {
    Filter(items, (i: CartItem) => KeyOf(i) != key)
  }

  /** `items` with the quantity of every line with key `key` set to `quantity`. */
  function WithQuantity(items: seq<CartItem>, key: LineKey, quantity: int): (r: seq<CartItem>)
    ensures |r| == |items|
  {
    seq(|items|, k requires 0 <= k < |items| =>
      if KeyOf(items[k]) == key then items[k].(quantity := quantity) else items[k])
  }

  /** The list `updateQuantity` leaves: a quantity of zero or less removes the line. */
  function Updated(items: seq<CartItem>, key: LineKey, quantity: int): seq<CartItem>
  {
    if quantity <= 0 then Removed(items, key) else WithQuantity(items, key, quantity)
  }

  function LineQuantity(i: CartItem): int
  {
    i.quantity
  }

  function LinePrice(i: CartItem): int
  {
    i.price * i.quantity
  }

  /** `totalItems`: the sum of the quantities. */
  function QuantitySum(items: seq<CartItem>): int
  {
    Sum(items, LineQuantity)
  }

  /** `totalPrice`: the sum of price times quantity. */
  function PriceSum(items: seq<CartItem>): int
  {
    Sum(items, LinePrice)
  }

  /** The cart state of `CartProvider`. */
  class Cart {
    var items: seq<CartItem>

    /** At most one line per key: every operation keeps this. */
    predicate Valid()
      reads this
    {
      UniqueKeys(items)
    }

    /** The provider starts with an empty list. */
    constructor()
      ensures items == [] && Valid()
    {
      items := [];
    }

    function TotalItems(): int
      reads this
    {
      QuantitySum(items)
    }

    function TotalPrice(): int
      reads this
    {
      PriceSum(items)
    }

    method AddItem(item: CartItem)
      requires Valid()
      modifies this
      ensures items == Added(old(items), item)
      ensures Valid()
      ensures PositiveQuantities(old(items)) && item.quantity >= 1 ==> PositiveQuantities(items)
    {
      AddedKeepsInvariants(items, item);
      items := Added(items, item);
    }

    method RemoveItem(productId: string, size: string, variant: string)
      requires Valid()
      modifies this
      ensures items == Removed(old(items), LineKey(productId, size, variant))
      ensures Valid()
      ensures PositiveQuantities(old(items)) ==> PositiveQuantities(items)
    {
      RemovedKeepsInvariants(items, LineKey(productId, size, variant));
      items := Removed(items, LineKey(productId, size, variant));
    }

    method UpdateQuantity(productId: string, size: string, variant: string, quantity: int)
      requires Valid()
      modifies this
      ensures items == Updated(old(items), LineKey(productId, size, variant), quantity)
      ensures Valid()
      ensures PositiveQuantities(old(items)) ==> PositiveQuantities(items)
    {
      if quantity <= 0 {
        RemoveItem(productId, size, variant);
        return;
      }
      UpdatedKeepsInvariants(items, LineKey(productId, size, variant), quantity);
      items := WithQuantity(items, LineKey(productId, size, variant), quantity);
    }

    method ClearCart()
      modifies this
      ensures items == [] && Valid()
      ensures TotalItems() == 0 && TotalPrice() == 0
    {
      items := [];
    }
  }

  // ---------------------------------------------------------------------------
  // Adding

  /** The line a merge produces from the existing line `line`. */
  function MergedLine(line: CartItem, item: CartItem): CartItem
  {
    line.(quantity := line.quantity + item.quantity)
  }

  /** With unique keys, merging touches exactly the one line with the item's key. */
  lemma MergedIsUpdateAt(items: seq<CartItem>, item: CartItem, k: nat)
    requires UniqueKeys(items) && k < |items| && KeyOf(items[k]) == KeyOf(item)
    ensures Merged(items, item) == items[k := MergedLine(items[k], item)]
  {
  }

  /** Adding an item whose key is present raises that line's quantity by `item.quantity`, keeps the
      line's own name, price, colour and image, and leaves the length and every other line alone. */
  lemma AddExistingMerges(items: seq<CartItem>, item: CartItem, k: nat)
    requires UniqueKeys(items) && k < |items| && KeyOf(items[k]) == KeyOf(item)
    ensures var r := Added(items, item);
      |r| == |items| &&
      r[k].quantity == items[k].quantity + item.quantity &&
      r[k].productName == items[k].productName && r[k].price == items[k].price &&
      r[k].variantColor == items[k].variantColor && r[k].image == items[k].image &&
      KeyOf(r[k]) == KeyOf(items[k]) &&
      forall j :: 0 <= j < |items| && j != k ==> r[j] == items[j]
  {
    assert FindLine(items, KeyOf(item)).Some?;
    MergedIsUpdateAt(items, item, k);
  }

  /** Adding an item with a fresh key appends it at the end and leaves the rest alone. */
  lemma AddFreshAppends(items: seq<CartItem>, item: CartItem)
    requires forall i :: 0 <= i < |items| ==> KeyOf(items[i]) != KeyOf(item)
    ensures Added(items, item) == items + [item]
    ensures |Added(items, item)| == |items| + 1
  {
  }

  /** `addItem` keeps one line per key, and keeps quantities positive when the item's is. */
  lemma AddedKeepsInvariants(items: seq<CartItem>, item: CartItem)
    requires UniqueKeys(items)
    ensures UniqueKeys(Added(items, item))
    ensures PositiveQuantities(items) && item.quantity >= 1 ==> PositiveQuantities(Added(items, item))
  {
    var r := Added(items, item);
    if FindLine(items, KeyOf(item)).Some? {
      assert forall i :: 0 <= i < |items| ==> KeyOf(r[i]) == KeyOf(items[i]);
    } else {
      assert forall i :: 0 <= i < |items| ==> r[i] == items[i];
    }
  }

  /** The count grows by the item's quantity; the price total grows by that many at the price of
      the line it lands on: the existing line's price, or the item's own for a fresh key. */
  lemma AddedTotals(items: seq<CartItem>, item: CartItem)
    requires UniqueKeys(items)
    ensures QuantitySum(Added(items, item)) == QuantitySum(items) + item.quantity
    ensures var line := FindLine(items, KeyOf(item));
      PriceSum(Added(items, item)) ==
        PriceSum(items) + (if line.Some? then line.value.price else item.price) * item.quantity
  {
    var line := FindLine(items, KeyOf(item));
    if line.Some? {
      var k :| 0 <= k < |items| && items[k] == line.value;
      MergedIsUpdateAt(items, item, k);
      SumUpdate(items, k, MergedLine(items[k], item), LineQuantity);
      SumUpdate(items, k, MergedLine(items[k], item), LinePrice);
      assert LinePrice(MergedLine(items[k], item)) == LinePrice(items[k]) + items[k].price * item.quantity;
    } else {
      SumSnoc(items, item, LineQuantity);
      SumSnoc(items, item, LinePrice);
    }
  }

  /** Adding two items with the same fresh key gives a single appended line, the first item with
      the two quantities summed. */
  lemma AddTwiceMerges(items: seq<CartItem>, a: CartItem, b: CartItem)
    requires UniqueKeys(items) && KeyOf(a) == KeyOf(b)
    requires forall i :: 0 <= i < |items| ==> KeyOf(items[i]) != KeyOf(a)
    ensures Added(Added(items, a), b) == items + [MergedLine(a, b)]
  {
    var once := items + [a];
    AddFreshAppends(items, a);
    assert once[|items|] == a;
    AddedKeepsInvariants(items, a);
    MergedIsUpdateAt(once, b, |items|);
    assert FindLine(once, KeyOf(b)).Some?;
  }

  /** Calling `addItem` once per element of `adds`, in order. */
  function AddAll(items: seq<CartItem>, adds: seq<CartItem>): seq<CartItem>
    decreases |adds|
  {
    if adds == [] then items else AddAll(Added(items, adds[0]), adds[1..])
  }

  /** However many items with the same fresh key are added, the cart ends with a single line for
      that key, appended at the end: the first item, carrying the sum of all the quantities. */
  lemma {:induction false} AddAllSameKey(items: seq<CartItem>, adds: seq<CartItem>)
    requires UniqueKeys(items) && adds != []
    requires forall i :: 0 <= i < |adds| ==> KeyOf(adds[i]) == KeyOf(adds[0])
    requires forall i :: 0 <= i < |items| ==> KeyOf(items[i]) != KeyOf(adds[0])
    ensures AddAll(items, adds) == items + [adds[0].(quantity := QuantitySum(adds))]
    ensures forall i :: 0 <= i < |AddAll(items, adds)| && KeyOf(AddAll(items, adds)[i]) == KeyOf(adds[0]) ==>
              i == |items|
  {
    var first := adds[0];
    var rest := adds[1..];
    var cart := items + [first];
    AddFreshAppends(items, first);
    AddedKeepsInvariants(items, first);
    assert AddAll(items, adds) == AddAll(cart, rest);
    assert cart[|items|] == first;
    SameKeyTail(adds, KeyOf(first));
    AddAllOnto(cart, |items|, rest);
    assert QuantitySum(adds) == first.quantity + QuantitySum(rest);
    var r := items + [first.(quantity := QuantitySum(adds))];
    assert cart[|items| := first.(quantity := QuantitySum(adds))] == r;
    assert forall i :: 0 <= i < |items| ==> r[i] == items[i];
  }

  /** Adding items with the key of line `k` onto a cart with unique keys raises that line's
      quantity by their sum and changes nothing else. */
  lemma {:induction false} AddAllOnto(cart: seq<CartItem>, k: nat, adds: seq<CartItem>)
    requires UniqueKeys(cart) && k < |cart|
    requires forall i :: 0 <= i < |adds| ==> KeyOf(adds[i]) == KeyOf(cart[k])
    ensures AddAll(cart, adds) == cart[k := cart[k].(quantity := cart[k].quantity + QuantitySum(adds))]
    decreases |adds|
  {
    if adds == [] {
      assert cart[k].(quantity := cart[k].quantity + 0) == cart[k];
    } else {
      var rest := adds[1..];
      var next := cart[k := MergedLine(cart[k], adds[0])];
      AddAllStep(cart, k, adds);
      SameKeyTail(adds, KeyOf(cart[k]));
      AddAllOnto(next, k, rest);
      var last := cart[k].(quantity := cart[k].quantity + QuantitySum(adds));
      assert QuantitySum(adds) == adds[0].quantity + QuantitySum(rest);
      assert next[k].(quantity := next[k].quantity + QuantitySum(rest)) == last;
      assert next[k := last] == cart[k := last];
    }
  }

  /** The first of the added items merges into line `k`; the keys stay unique. */
  lemma AddAllStep(cart: seq<CartItem>, k: nat, adds: seq<CartItem>)
    requires UniqueKeys(cart) && k < |cart| && adds != [] && KeyOf(adds[0]) == KeyOf(cart[k])
    ensures var next := cart[k := MergedLine(cart[k], adds[0])];
      AddAll(cart, adds) == AddAll(next, adds[1..]) && UniqueKeys(next) && KeyOf(next[k]) == KeyOf(cart[k])
  {
    var next := cart[k := MergedLine(cart[k], adds[0])];
    assert FindLine(cart, KeyOf(adds[0])).Some?;
    MergedIsUpdateAt(cart, adds[0], k);
    assert forall i :: 0 <= i < |cart| ==> KeyOf(next[i]) == KeyOf(cart[i]);
  }

  lemma SameKeyTail(adds: seq<CartItem>, key: LineKey)
    requires adds != [] && forall i :: 0 <= i < |adds| ==> KeyOf(adds[i]) == key
    ensures forall i :: 0 <= i < |adds[1..]| ==> KeyOf(adds[1..][i]) == key
  {
    forall i | 0 <= i < |adds[1..]|
      ensures KeyOf(adds[1..][i]) == key
    {
      assert adds[1..][i] == adds[i + 1];
    }
  }

  // ---------------------------------------------------------------------------
  // Removing

  /** `removeItem` drops exactly the lines with the key and keeps the others in their order. */
  lemma RemovedMeaning(items: seq<CartItem>, key: LineKey)
    ensures IsSubsequence(Removed(items, key), items)
    ensures forall i :: 0 <= i < |Removed(items, key)| ==> KeyOf(Removed(items, key)[i]) != key
    ensures forall i :: 0 <= i < |items| && KeyOf(items[i]) != key ==> items[i] in Removed(items, key)
    ensures multiset(Removed(items, key)) <= multiset(items)
    ensures forall i :: 0 <= i < |items| ==>
              multiset(Removed(items, key))[items[i]] ==
              if KeyOf(items[i]) != key then multiset(items)[items[i]] else 0
  {
    FilterIsSubsequence(items, (i: CartItem) => KeyOf(i) != key);
    FilterCounts(items, (i: CartItem) => KeyOf(i) != key);
  }

  /** Removing a key no line has changes nothing. */
  lemma RemoveAbsentIsNoOp(items: seq<CartItem>, key: LineKey)
    requires FindLine(items, key).None?
    ensures Removed(items, key) == items
  {
    FilterAll(items, (i: CartItem) => KeyOf(i) != key);
  }

  lemma {:induction false} RemovedKeepsUniqueKeys(items: seq<CartItem>, key: LineKey)
    requires UniqueKeys(items)
    ensures UniqueKeys(Removed(items, key))
  {
    if items != [] {
      var tail := Removed(items[1..], key);
      assert UniqueKeys(items[1..]) by {
        forall i, j | 0 <= i < j < |items[1..]|
          ensures KeyOf(items[1..][i]) != KeyOf(items[1..][j])
        {
          assert items[1..][i] == items[i + 1] && items[1..][j] == items[j + 1];
        }
      }
      RemovedKeepsUniqueKeys(items[1..], key);
      if KeyOf(items[0]) != key {
        assert Removed(items, key) == [items[0]] + tail;
        forall j | 0 <= j < |tail|
          ensures KeyOf(items[0]) != KeyOf(tail[j])
        {
          var m :| 0 <= m < |items[1..]| && items[1..][m] == tail[j];
          assert items[m + 1] == tail[j];
        }
      } else {
        assert Removed(items, key) == tail;
      }
    }
  }

  /** `removeItem` keeps one line per key and keeps quantities positive. */
  lemma RemovedKeepsInvariants(items: seq<CartItem>, key: LineKey)
    requires UniqueKeys(items)
    ensures UniqueKeys(Removed(items, key))
    ensures PositiveQuantities(items) ==> PositiveQuantities(Removed(items, key))
  {
    RemovedKeepsUniqueKeys(items, key);
    var r := Removed(items, key);
    if PositiveQuantities(items) {
      forall i | 0 <= i < |r|
        ensures r[i].quantity >= 1
      {
        var m :| 0 <= m < |items| && items[m] == r[i];
      }
    }
  }

  // ---------------------------------------------------------------------------
  // Setting a quantity

  /** `updateQuantity` with a quantity of zero or less is `removeItem`; so the minus button on a
      line of quantity 1 deletes that line. */
  lemma UpdateNonPositiveRemoves(items: seq<CartItem>, line: CartItem, quantity: int)
    requires quantity <= 0
    ensures Updated(items, KeyOf(line), quantity) == Removed(items, KeyOf(line))
    ensures line.quantity == 1 ==> Updated(items, KeyOf(line), line.quantity - 1) == Removed(items, KeyOf(line))
  {
  }

  /** A positive quantity is set on exactly the lines with the key; it never adds a line, and a
      key no line has leaves the list as it is. */
  lemma UpdatePositiveSets(items: seq<CartItem>, key: LineKey, quantity: int)
    requires quantity > 0
    ensures var r := Updated(items, key, quantity);
      |r| == |items| &&
      (forall i :: 0 <= i < |items| ==> KeyOf(r[i]) == KeyOf(items[i])) &&
      (forall i :: 0 <= i < |items| && KeyOf(items[i]) == key ==> r[i] == items[i].(quantity := quantity)) &&
      (forall i :: 0 <= i < |items| && KeyOf(items[i]) != key ==> r[i] == items[i])
    ensures FindLine(items, key).None? ==> Updated(items, key, quantity) == items
  {
  }

  /** `updateQuantity` keeps one line per key and keeps quantities positive. */
  lemma UpdatedKeepsInvariants(items: seq<CartItem>, key: LineKey, quantity: int)
    requires UniqueKeys(items)
    ensures UniqueKeys(Updated(items, key, quantity))
    ensures PositiveQuantities(items) ==> PositiveQuantities(Updated(items, key, quantity))
  {
    if quantity <= 0 {
      RemovedKeepsInvariants(items, key);
    } else {
      UpdatePositiveSets(items, key, quantity);
    }
  }

  // ---------------------------------------------------------------------------
  // Totals

  /** An empty cart has no items and costs nothing; the totals are never negative while the
      quantities are positive and the prices are not negative. */
  lemma TotalsOfEmptyAndPositive(items: seq<CartItem>)
    ensures QuantitySum([]) == 0 && PriceSum([]) == 0
    ensures PositiveQuantities(items) ==> QuantitySum(items) >= |items|
    ensures PositiveQuantities(items) && (forall i :: 0 <= i < |items| ==> items[i].price >= 0) ==>
              PriceSum(items) >= 0
  {
    if PositiveQuantities(items) {
      QuantityAtLeastLength(items);
      if forall i :: 0 <= i < |items| ==> items[i].price >= 0 {
        forall x | x in items
          ensures LinePrice(x) >= 0
        {
          var i :| 0 <= i < |items| && items[i] == x;
        }
        SumNonNegative(items, LinePrice);
      }
    }
  }

  lemma {:induction false} QuantityAtLeastLength(items: seq<CartItem>)
    requires PositiveQuantities(items)
    ensures QuantitySum(items) >= |items|
  {
    if items != [] {
      assert PositiveQuantities(items[1..]) by {
        forall i | 0 <= i < |items[1..]|
          ensures items[1..][i].quantity >= 1
        {
          assert items[1..][i] == items[i + 1];
        }
      }
      QuantityAtLeastLength(items[1..]);
    }
  }

  /** Two Basic-T at 249 and one Basic Hoodie at 599: three items costing 1097. */
  lemma TotalsExample()
    ensures var items := [
        CartItem("tshirt-basic", "Basic-T", "L", "navy", "#1a3a6b", 2, 249, "/images/tshirt-basic.jpg"),
        CartItem("hoodie-basic", "Basic Hoodie", "L", "navy", "#1a3a6b", 1, 599, "/images/hoodie-basic.jpg") ];
      QuantitySum(items) == 3 && PriceSum(items) == 1097
  {
  }
}
