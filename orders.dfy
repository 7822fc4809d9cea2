// The mock order list the dashboards aggregate (`OrderItem`, `Order`, `mockOrders`)
// and the consistency facts that hold of it.
//
// `createdAt` is an ISO-8601 UTC timestamp in the source; here it is the integer
// YYYYMMDDhhmm read off the same string (every timestamp has zero seconds), which
// orders instants exactly as the date comparison does.

module Orders {
  import opened Wrappers
  import opened Seqs
  import Catalog

  datatype OrderItem = OrderItem(
    productId: string,
    productName: string,
    size: string,
    variant: string,
    quantity: int,
    price: int)

  datatype DeliveryType = Home | ClubPickup

  datatype PaymentMethod = Swish | Klarna

  datatype OrderStatus = Pending | Processing | Shipped | Delivered

  datatype Order = Order(
    id: string,
    clubId: string,
    customerName: string,
    customerEmail: string,
    items: seq<OrderItem>,
    total: int,
    deliveryType: DeliveryType,
    address: Option<string>,
    status: OrderStatus,
    createdAt: int,
    paymentMethod: PaymentMethod)

  const MockOrders: seq<Order> := [
    Order(
      "ORD-2024-001", "uif", "Erik Andersson", "erik.andersson@email.com",
      [ OrderItem("tshirt-basic", "Basic-T", "L", "Navy", 2, 249),
        OrderItem("hoodie-basic", "Basic Hoodie", "L", "Navy", 1, 599) ],
      1097, Home, Some("Storgatan 12, 245 31 Staffanstorp"), Delivered,
      202411011023, Swish),
    Order(
      "ORD-2024-002", "uif", "Maria Svensson", "maria.svensson@email.com",
      [ OrderItem("polo-classic", "Classic Polo", "M", "Navy", 1, 399),
        OrderItem("acc-cap", "Club Cap", "One Size", "Navy", 1, 199) ],
      598, ClubPickup, None, Delivered,
      202411031410, Klarna),
    Order(
      "ORD-2024-003", "uif", "Lars Nilsson", "lars.nilsson@email.com",
      [ OrderItem("jacket-softshell", "Softshell Jacket", "XL", "Navy", 1, 899),
        OrderItem("pants-sweatpants", "Sweatpants", "XL", "Navy", 1, 449) ],
      1348, Home, Some("Parkvägen 8, 245 45 Hjärup"), Shipped,
      202411080945, Klarna),
    Order(
      "ORD-2024-004", "uif", "Anna Johansson", "anna.johansson@email.com",
      [ OrderItem("tshirt-premium", "Premium-T", "S", "Yellow", 1, 349),
        OrderItem("acc-beanie", "Club Beanie", "One Size", "Navy", 1, 149) ],
      498, ClubPickup, None, Delivered,
      202411101630, Swish),
    Order(
      "ORD-2024-005", "uif", "Peter Gustafsson", "peter.gustafsson@email.com",
      [ OrderItem("hoodie-halfzip", "Half-Zip Hoodie", "M", "Navy", 1, 699),
        OrderItem("polo-premium", "Premium Polo", "M", "Navy", 1, 499) ],
      1198, Home, Some("Idrottsvägen 3, 245 32 Staffanstorp"), Processing,
      202411151120, Klarna),
    Order(
      "ORD-2024-006", "uif", "Sofia Lindqvist", "sofia.lindqvist@email.com",
      [ OrderItem("acc-scarf", "Club Scarf", "One Size", "Navy/Yellow", 2, 179),
        OrderItem("acc-cap", "Club Cap", "One Size", "Navy", 1, 199) ],
      557, ClubPickup, None, Delivered,
      202411181355, Swish),
    Order(
      "ORD-2024-007", "uif", "Mikael Persson", "mikael.persson@email.com",
      [ OrderItem("jacket-padded", "Padded Jacket", "L", "Navy", 1, 1099) ],
      1099, Home, Some("Bollgatan 5, 245 33 Staffanstorp"), Shipped,
      202411220830, Klarna),
    Order(
      "ORD-2024-008", "uif", "Emma Carlsson", "emma.carlsson@email.com",
      [ OrderItem("tshirt-basic", "Basic-T", "XS", "White", 3, 249),
        OrderItem("pants-shorts", "Training Shorts", "S", "Navy", 1, 299) ],
      1046, ClubPickup, None, Delivered,
      202411251540, Swish),
    Order(
      "ORD-2024-009", "uif", "Johan Magnusson", "johan.magnusson@email.com",
      [ OrderItem("polo-classic", "Classic Polo", "XL", "Navy", 1, 399),
        OrderItem("hoodie-basic", "Basic Hoodie", "XL", "Black", 1, 599),
        OrderItem("acc-beanie", "Club Beanie", "One Size", "Yellow", 1, 149) ],
      1147, Home, Some("Skolvägen 14, 245 41 Staffanstorp"), Delivered,
      202412011010, Klarna),
    Order(
      "ORD-2024-010", "uif", "Karin Eriksson", "karin.eriksson@email.com",
      [ OrderItem("tshirt-premium", "Premium-T", "M", "Navy", 2, 349) ],
      698, ClubPickup, None, Processing,
      202412031200, Swish),
    Order(
      "ORD-2024-011", "uif", "Anders Bergström", "anders.bergstrom@email.com",
      [ OrderItem("jacket-softshell", "Softshell Jacket", "M", "Black", 1, 899),
        OrderItem("pants-sweatpants", "Sweatpants", "M", "Black", 1, 449),
        OrderItem("acc-cap", "Club Cap", "One Size", "Black", 1, 199) ],
      1547, Home, Some("Furugatan 22, 245 34 Staffanstorp"), Pending,
      202412050915, Klarna),
    Order(
      "ORD-2024-012", "uif", "Lina Olsson", "lina.olsson@email.com",
      [ OrderItem("hoodie-halfzip", "Half-Zip Hoodie", "S", "Yellow", 1, 699),
        OrderItem("acc-scarf", "Club Scarf", "One Size", "Navy/Yellow", 1, 179) ],
      878, ClubPickup, None, Processing,
      202412061425, Swish),
    Order(
      "ORD-2024-013", "uif", "Tobias Hansson", "tobias.hansson@email.com",
      [ OrderItem("polo-premium", "Premium Polo", "L", "Yellow", 1, 499),
        OrderItem("pants-shorts", "Training Shorts", "L", "Black", 2, 299) ],
      1097, Home, Some("Ljungvägen 7, 245 45 Hjärup"), Pending,
      202412071650, Klarna),
    Order(
      "ORD-2024-014", "uif", "Helena Ström", "helena.strom@email.com",
      [ OrderItem("tshirt-basic", "Basic-T", "M", "Black", 1, 249),
        OrderItem("acc-beanie", "Club Beanie", "One Size", "Black", 1, 149),
        OrderItem("acc-cap", "Club Cap", "One Size", "Navy", 1, 199) ],
      597, ClubPickup, None, Pending,
      202412081105, Swish),
    Order(
      "ORD-2024-015", "uif", "Oskar Lindgren", "oskar.lindgren@email.com",
      [ OrderItem("jacket-padded", "Padded Jacket", "M", "Black", 1, 1099),
        OrderItem("hoodie-basic", "Basic Hoodie", "M", "Grey", 1, 599) ],
      1698, Home, Some("Ekvägen 19, 245 32 Staffanstorp"), Pending,
      202412081730, Klarna)
  ]

  /** What one item line is worth: unit price times quantity. */
  function LineTotal(item: OrderItem): int
  {
    item.price * item.quantity
  }

  /** The sum of the item lines of an order. */
  function ItemsTotal(items: seq<OrderItem>): int
  {
    Sum(items, LineTotal)
  }

  /** The first mock order, two Basic-T at 249 and one Basic Hoodie at 599, totals 1097. */
  lemma FirstOrderTotal()
    ensures MockOrders[0].id == "ORD-2024-001"
    ensures ItemsTotal(MockOrders[0].items) == 2 * 249 + 599 == 1097 == MockOrders[0].total
  {
  }

  /** Every order total is the sum of its lines; no shipping is added, not even for home delivery. */
  lemma MockOrderTotalsAreItemSums()
    ensures forall i :: 0 <= i < |MockOrders| ==> MockOrders[i].total == ItemsTotal(MockOrders[i].items)
  {
  }

  /** Every line of `items` names a catalog product and carries that product's catalog price. */
  predicate LinesMatchCatalog(items: seq<OrderItem>)
  {
    forall k :: 0 <= k < |items| ==>
      var p := Catalog.GetProductById(items[k].productId);
      p.Some? && p.value.price == items[k].price
  }

  /** Line `k` of `items` is the catalog product at position `at[k]`, at its catalog price. */
  predicate LinesAt(items: seq<OrderItem>, at: seq<nat>)
  {
    |at| == |items| &&
    forall k :: 0 <= k < |at| ==>
      at[k] < |Catalog.Products| &&
      items[k].productId == Catalog.Products[at[k]].id &&
      items[k].price == Catalog.Products[at[k]].price
  }

  /** Lines found at catalog positions match the catalog under `getProductById`. */
  lemma LinesAtMatchCatalog(items: seq<OrderItem>, at: seq<nat>)
    requires LinesAt(items, at)
    ensures LinesMatchCatalog(items)
  {
    forall k | 0 <= k < |at|
      ensures Catalog.GetProductById(items[k].productId) == Some(Catalog.Products[at[k]])
    {
      Catalog.GetProductByIdFindsEach(Catalog.Products[at[k]]);
    }
  }

  /** Where the lines of each mock order sit in the catalog. */
  const CatalogPositions: seq<seq<nat>> := [
    [0, 4], [2, 10], [6, 8], [1, 11], [5, 3], [12, 10], [7], [0, 9],
    [2, 4, 11], [1], [6, 8, 10], [5, 12], [3, 9], [0, 11, 10], [7, 4] ]

  lemma MockOrderLinesAt01To03()
    ensures |CatalogPositions| == |MockOrders|
    ensures forall i :: 0 <= i < 3 ==> LinesAt(MockOrders[i].items, CatalogPositions[i])
  {
  }

  lemma MockOrderLinesAt04To06()
    ensures |CatalogPositions| == |MockOrders|
    ensures forall i :: 3 <= i < 6 ==> LinesAt(MockOrders[i].items, CatalogPositions[i])
  {
  }

  lemma MockOrderLinesAt07To09()
    ensures |CatalogPositions| == |MockOrders|
    ensures forall i :: 6 <= i < 9 ==> LinesAt(MockOrders[i].items, CatalogPositions[i])
  {
  }

  lemma MockOrderLinesAt10To12()
    ensures |CatalogPositions| == |MockOrders|
    ensures forall i :: 9 <= i < 12 ==> LinesAt(MockOrders[i].items, CatalogPositions[i])
  {
  }

  lemma MockOrderLinesAt13To15()
    ensures |CatalogPositions| == |MockOrders|
    ensures forall i :: 12 <= i < 15 ==> LinesAt(MockOrders[i].items, CatalogPositions[i])
  {
  }

  /** Every item of every mock order names a catalog product and carries its catalog price. */
  lemma MockOrderItemsMatchCatalog()
    ensures forall i :: 0 <= i < |MockOrders| ==> LinesMatchCatalog(MockOrders[i].items)
  {
    MockOrderLinesAt01To03();
    MockOrderLinesAt04To06();
    MockOrderLinesAt07To09();
    MockOrderLinesAt10To12();
    MockOrderLinesAt13To15();
    forall i | 0 <= i < |MockOrders|
      ensures LinesMatchCatalog(MockOrders[i].items)
    {
      LinesAtMatchCatalog(MockOrders[i].items, CatalogPositions[i]);
    }
  }

  /** The two-digit serial at the end of an id such as "ORD-2024-007". */
  function Serial(id: string): int
    requires |id| == 12
  {
    (id[10] as int - '0' as int) * 10 + (id[11] as int - '0' as int)
  }

  /** The mock orders are numbered "ORD-2024-001" to "ORD-2024-015" in list order. */
  lemma MockOrderSerials()
    ensures forall i :: 0 <= i < |MockOrders| ==>
              |MockOrders[i].id| == 12 && MockOrders[i].id[..9] == "ORD-2024-" && Serial(MockOrders[i].id) == i + 1
  {
  }

  /** Order ids are distinct. */
  lemma MockOrderIdsDistinct()
    ensures forall i, j :: 0 <= i < j < |MockOrders| ==> MockOrders[i].id != MockOrders[j].id
  {
    MockOrderSerials();
  }

  /** Home-delivery orders carry an address and club-pickup orders carry none. */
  lemma MockOrderAddressIffHome()
    ensures forall i :: 0 <= i < |MockOrders| ==>
              (MockOrders[i].address.Some? <==> MockOrders[i].deliveryType == Home)
  {
  }

  /** The list is in creation order. */
  lemma MockOrdersChronological()
    ensures forall i, j :: 0 <= i < j < |MockOrders| ==> MockOrders[i].createdAt <= MockOrders[j].createdAt
  {
  }

  /** Every quantity is at least 1 and every order belongs to the club "uif". */
  lemma MockOrdersPositiveAndUif()
    ensures forall i :: 0 <= i < |MockOrders| ==> MockOrders[i].clubId == "uif"
    ensures forall i, k :: 0 <= i < |MockOrders| && 0 <= k < |MockOrders[i].items| ==>
              MockOrders[i].items[k].quantity >= 1
  {
  }
}
