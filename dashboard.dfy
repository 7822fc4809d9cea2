// The two dashboard pages: the staff overview of every order (`DashboardPage`)
// and a club's own view (`ClubDashboardPage`).
//
// Each page is a method from the signed-in user, the `mounted` flag, the chosen
// period, the period cutoffs and the browser origin to what it renders: nothing,
// a redirect, or the figures and QR-code targets. The QR encoder itself is not
// modelled; only the URL each code carries is.

module Dashboard {
  import opened Wrappers
  import opened Seqs
  import opened Aggregation
  import Orders
  import Catalog
  import C = Clubs
  import Auth

  /** The figures of the overview, computed from the orders of the chosen period. */
  datatype Figures = Figures(
    orders: seq<Orders.Order>,
    revenue: int,
    orderCount: int,
    average: Option<int>,
    categoryBars: seq<(string, int)>,
    maxCategoryRevenue: int,
    topProducts: seq<ProductSale>)

  /** The figures the page derives from `orders`. */
  function FiguresOf(catalog: seq<Catalog.Product>, orders: seq<Orders.Order>): Figures
  {
    CategoryTableMeaning(catalog, orders);
    SalesTableMeaning(orders);
    var categories := CategoryTable(catalog, orders);
    Figures(orders, TotalRevenue(orders), |orders|, Average(TotalRevenue(orders), |orders|),
            CategoryBars(categories), MaxWithFloor(Values(categories), 1), TopProducts(SalesTable(orders)))
  }

  /** The body of the page computing its figures, with the two dictionary loops. */
  method ComputeFigures(catalog: seq<Catalog.Product>, orders: seq<Orders.Order>) returns (f: Figures)
    ensures f == FiguresOf(catalog, orders)
  {
    var totalRevenue := TotalRevenue(orders);
    var orderCount := |orders|;
    var categoryRevenue := CategoryRevenue(catalog, orders);
    CategoryTableMeaning(catalog, orders);
    var maxCatRevenue := MaxWithFloor(Values(categoryRevenue), 1);
    var productSales := ProductSales(orders);
    SalesTableMeaning(orders);
    var topProducts := TopProducts(productSales);
    f := Figures(orders, totalRevenue, orderCount, Average(totalRevenue, orderCount),
                 CategoryBars(categoryRevenue), maxCatRevenue, topProducts);
  }

  /** The figures keep the promises of the overview cards, bars and top list. */
  lemma FiguresMeaning(catalog: seq<Catalog.Product>, orders: seq<Orders.Order>)
    ensures var f := FiguresOf(catalog, orders);
      f.revenue == TotalRevenue(orders) && f.orderCount == |orders| &&
      (f.average.None? <==> f.orderCount == 0) &&
      f.maxCategoryRevenue >= 1 &&
      (forall i :: 0 <= i < |f.categoryBars| ==> f.categoryBars[i].1 <= f.maxCategoryRevenue) &&
      Descending(f.categoryBars, EntryValue) &&
      |f.topProducts| <= 5 && Descending(f.topProducts, RevenueOf)
  {
    var t := CategoryTable(catalog, orders);
    CategoryTableMeaning(catalog, orders);
    SalesTableMeaning(orders);
    CategoryBarsDescending(t);
    CategoryBarsWithinScale(t);
    TopProductsMeaning(SalesTable(orders));
  }

  /** What a dashboard page produces. The staff page computes `storeUrl` but renders no code
      for it; it is kept here as the value the page computes. */
  datatype Outcome =
    | Nothing
    | RedirectTo(route: string)
    | StaffOverview(figures: Figures, clubCount: int, storeUrl: string, clubQrUrls: seq<string>)
    | ClubOverview(club: C.Club, figures: Figures, storeQrUrl: string, productQrUrls: seq<string>)

  /** The address a store QR code carries. */
  function StoreUrl(base: string, slug: string): string
  {
    base + "/store/" + slug
  }

  /** The address a product QR code carries. */
  function ProductUrl(base: string, slug: string, productId: string): string
  {
    StoreUrl(base, slug) + "/product/" + productId
  }

  /** The product a product address names, read back off the address. */
  function ProductIdOf(url: string, base: string, slug: string): Option<string>
  {
    var prefix := StoreUrl(base, slug) + "/product/";
    if |prefix| <= |url| && url[..|prefix|] == prefix then Some(url[|prefix|..]) else None
  }

  lemma ProductUrlRoundTrip(base: string, slug: string, productId: string)
    ensures ProductIdOf(ProductUrl(base, slug, productId), base, slug) == Some(productId)
  {
    var prefix := StoreUrl(base, slug) + "/product/";
    assert ProductUrl(base, slug, productId) == prefix + productId;
  }

  /** One product address per product, in the given order. */
  function ProductUrls(base: string, slug: string, products: seq<Catalog.Product>): (r: seq<string>)
    ensures |r| == |products|
    ensures forall i :: 0 <= i < |r| ==> ProductIdOf(r[i], base, slug) == Some(products[i].id)
  {
    var r := seq(|products|, i requires 0 <= i < |products| => ProductUrl(base, slug, products[i].id));
    forall i | 0 <= i < |r|
      ensures ProductIdOf(r[i], base, slug) == Some(products[i].id)
    {
      ProductUrlRoundTrip(base, slug, products[i].id);
    }
    r
  }

  /** One store address per club, in club order. */
  function ClubUrls(base: string, clubs: seq<C.Club>): (r: seq<string>)
    ensures |r| == |clubs|
  {
    seq(|clubs|, i requires 0 <= i < |clubs| => StoreUrl(base, clubs[i].slug))
  }

  /** `DashboardPage`. Before mounting it renders nothing; without a user it renders nothing and
      sends the browser to the login page; a user who is not staff is sent to the club view. */
  method StaffDashboard(user: Option<Auth.AuthUser>, mounted: bool, period: Period, cutoffs: Cutoffs, origin: string)
    returns (out: Outcome)
    ensures !mounted ==> out == Nothing
    ensures mounted && user.None? ==> out == RedirectTo("/login")
    ensures mounted && user.Some? && user.value.role != Auth.AzStaff ==> out == RedirectTo("/dashboard/club")
    ensures mounted && user.Some? && user.value.role == Auth.AzStaff ==>
      out == StaffOverview(FiguresOf(Catalog.Products, FilteredOrders(Orders.MockOrders, cutoffs, period)), |C.Clubs|,
                           StoreUrl(origin, "uppakra-if"), ClubUrls(origin, C.Clubs))
  {
    if !mounted {
      return Nothing;
    }
    if user.None? {
      return RedirectTo("/login");
    }
    if user.value.role != Auth.AzStaff {
      return RedirectTo("/dashboard/club");
    }
    var filtered := FilteredOrders(Orders.MockOrders, cutoffs, period);
    var figures := ComputeFigures(Catalog.Products, filtered);
    out := StaffOverview(figures, |C.Clubs|, StoreUrl(origin, "uppakra-if"), ClubUrls(origin, C.Clubs));
  }

  /** `user.clubId || 'uif'`: the user's club, or "uif" when it is absent or empty. */
  function ClubIdFor(user: Auth.AuthUser): string
  {
    if user.clubId.Some? && user.clubId.value != "" then user.clubId.value else "uif"
  }

  /** The club id is never blank: it is the user's own non-empty club id or the fallback "uif". */
  lemma ClubIdFallback(user: Auth.AuthUser)
    ensures ClubIdFor(user) != ""
    ensures ClubIdFor(user) == "uif" || user.clubId == Some(ClubIdFor(user))
    ensures user.clubId.None? || user.clubId == Some("") ==> ClubIdFor(user) == "uif"
  {
  }

  /** `ClubDashboardPage`. Any signed-in user gets the view of their club, with no role check;
      without a user it redirects to login; a club id no club has renders nothing. */
  method ClubDashboard(user: Option<Auth.AuthUser>, mounted: bool, period: Period, cutoffs: Cutoffs, origin: string)
    returns (out: Outcome)
    ensures !mounted ==> out == Nothing
    ensures mounted && user.None? ==> out == RedirectTo("/login")
    ensures mounted && user.Some? && C.FindById(C.Clubs, ClubIdFor(user.value)).None? ==> out == Nothing
    ensures mounted && user.Some? && C.FindById(C.Clubs, ClubIdFor(user.value)).Some? ==>
      var club := C.FindById(C.Clubs, ClubIdFor(user.value)).value;
      out == ClubOverview(club, FiguresOf(Catalog.Products, ClubFilteredOrders(Orders.MockOrders, cutoffs, period, club.id)),
                          StoreUrl(origin, club.slug),
                          ProductUrls(origin, club.slug, Catalog.GetProductsByIds(club.activeProductIds)))
  {
    if !mounted {
      return Nothing;
    }
    if user.None? {
      return RedirectTo("/login");
    }
    var clubId := ClubIdFor(user.value);
    var found := C.FindById(C.Clubs, clubId);
    if found.None? {
      return Nothing;
    }
    var club := found.value;
    var filtered := ClubFilteredOrders(Orders.MockOrders, cutoffs, period, clubId);
    var figures := ComputeFigures(Catalog.Products, filtered);
    var clubProducts := Catalog.GetProductsByIds(club.activeProductIds);
    out := ClubOverview(club, figures, StoreUrl(origin, club.slug), ProductUrls(origin, club.slug, clubProducts));
  }

  // ---------------------------------------------------------------------------
  // The pages on the store's own data

  /** Staff and the uif administrator land on the same club: the staff user has no club id. */
  lemma StaffLandsOnUif()
    ensures ClubIdFor(Auth.AuthUser("admin", Auth.AzStaff, None)) == "uif"
    ensures ClubIdFor(Auth.AuthUser("uif-admin", Auth.ClubAdmin, Some("uif"))) == "uif"
    ensures C.FindById(C.Clubs, "uif") == Some(C.Clubs[0])
  {
  }

  /** Only "uif", or a blank or missing club id, finds a club; any other id renders nothing. */
  lemma UnknownClubFindsNothing(clubId: string)
    requires clubId != "uif"
    ensures C.FindById(C.Clubs, clubId).None?
  {
  }

  /** Every mock order belongs to "uif", so the uif club view sees the same orders, and the same
      figures, as the staff view. */
  lemma ClubViewMatchesStaffOnMockData(c: Cutoffs, p: Period)
    ensures ClubFilteredOrders(Orders.MockOrders, c, p, "uif") == FilteredOrders(Orders.MockOrders, c, p)
  {
    Orders.MockOrdersPositiveAndUif();
    OneClubFilterIsStaffFilter(Orders.MockOrders, c, p, "uif");
  }

  /** The uif view shows one product code per catalog product, in catalog order. */
  lemma UifProductCodes(origin: string)
    ensures var urls := ProductUrls(origin, "uppakra-if", Catalog.GetProductsByIds(C.Clubs[0].activeProductIds));
      |urls| == |Catalog.Products| &&
      forall i :: 0 <= i < |urls| ==> ProductIdOf(urls[i], origin, "uppakra-if") == Some(Catalog.Products[i].id)
  {
    C.ClubStorefrontIsWholeCatalog();
  }
}
