# Club storefront and dashboards, modelled in Dafny

This project models the logic of a small sports-club web shop. The shop has five parts:

- **Catalog and clubs.** A constant product table with lookups by id, by category and by id list. A constant club table with a lookup by slug.
- **Cart store.** `CartProvider` holds the cart lines and offers add, remove, set-quantity and clear, plus the two totals.
- **Checkout wizard.** A three-step page: delivery, payment, review. It shows the shipping cost and the order total and finishes by clearing the cart.
- **Sign-in store.** `AuthProvider` checks logins against a fixed table of two accounts and keeps a session copy of the user.
- **Dashboards.** A staff overview and a club view. Both pick the mock orders of a period and show:
  - revenue, order count and average order;
  - revenue per category as bars on a scale;
  - the five best-selling products;
  - the addresses carried by the QR codes.

The price label (`formatPrice`), the order-number generator (`generateOrderId`) and the class-name joiner (`cn`) are modelled too.

Modules, one per file:

| file | module | models |
|---|---|---|
| `common.dfy` | `Wrappers`, `Seqs` | `undefined`/`null`; `filter`, `find`, summing `reduce` |
| `catalog.dfy` | `Catalog` | `src/data/products.ts` |
| `clubs.dfy` | `Clubs` | `src/data/clubs.ts` |
| `orders.dfy` | `Orders` | `src/data/orders.ts` |
| `utils.dfy` | `Utils` | `src/lib/utils.ts` |
| `cart.dfy` | `CartContext` | `src/context/CartContext.tsx` |
| `checkout.dfy` | `Checkout` | `src/app/checkout/page.tsx` |
| `auth.dfy` | `Auth` | `src/context/AuthContext.tsx` |
| `aggregation.dfy` | `Aggregation` | the computations both dashboard pages share |
| `dashboard.dfy` | `Dashboard` | `src/app/dashboard/page.tsx`, `src/app/dashboard/club/page.tsx` |

How the source is modelled:

- The three stateful objects are classes: the cart (`CartContext.Cart`), the sign-in store (`Auth.AuthStore`) and the checkout page (`Checkout.CheckoutPage`).
- Each method states its new state as a pure function of the old one. The lemmas prove the promised properties about those functions.
- The dashboards' nested `forEach` loops that fill the `categoryRevenue` and `productSales` records are methods with loops. Each is proved equal to an end-recursive specification function. Separate lemmas state what each dictionary entry holds.
- A JavaScript object used as a dictionary is a `Dict`: a list of keys in insertion order plus a map. For keys that are neither array indices (such as "7") nor names of `Object.prototype` members (such as "constructor"), this is the order in which `Object.values` and `Object.entries` list them. Every product id and category in the data is such a key.

Encodings:

- A timestamp is the integer YYYYMMDDhhmm of its UTC ISO string. Every timestamp in the data has zero seconds, so comparing these integers orders instants exactly as comparing the `Date` values does.
- Prices are whole kronor, as in the source.

Three behaviours of the code that a reader might not expect; the model states each as the code has it:

- **No role check on the club dashboard.** One would expect a club administrator to see only their own club and staff to be kept to the staff view. The club page (`src/app/dashboard/club/page.tsx:54-58`) checks only that someone is signed in: any signed-in user sees the club of their `clubId`, or "uif" when they have none. The staff overview also reads every order of every club. `Dashboard.ClubDashboard` and `Dashboard.StaffLandsOnUif` state this.
- **The address form is not required.** One would expect home delivery to need a postal address before payment. The button leaving step 1 (`src/app/checkout/page.tsx:152-153`) performs no check. `Checkout.ContinueIsUnconditional` states this.
- **Order totals exclude shipping.** One would expect a home-delivered order's total to include the 49 kr fee the checkout charges. The totals in `src/data/orders.ts` are the sums of their lines, with no fee. `Orders.MockOrderTotalsAreItemSums` states this.

## Model

| member | source | states |
|---|---|---|
| Seqs.Filter | src/data/products.ts:227-233 | the filtered list has only elements of the input satisfying the predicate, and every such element appears in it |
| Seqs.FilterCounts | src/data/products.ts:231-233 | filtering keeps every copy of a kept element: an element satisfying the predicate occurs as often as in the input, any other not at all |
| Seqs.FilterIsSubsequence | src/data/products.ts:231-233 | filtering keeps the original relative order, as `Array.prototype.filter` does |
| Seqs.FilterExtensional | src/data/products.ts:231-233 | two predicates that agree on every element filter to the same list |
| Seqs.FilterTwice | src/app/dashboard/club/page.tsx:20 | filtering by `p` then `q` is filtering by `p && q` |
| Seqs.FilterMonotone | src/app/dashboard/page.tsx:20 | a stronger predicate keeps a subsequence of what a weaker one keeps |
| Seqs.SumUpdate | src/context/CartContext.tsx:81-82 | replacing one element changes a sum by the difference of the two terms |
| Catalog.FindProduct | src/data/products.ts:223-225 | `find` by id: none exactly when no product has the id; otherwise the first product with it |
| Catalog.GetProductById | src/data/products.ts:223-225 | the result is a catalog product with the id, and none means no catalog product has it |
| Catalog.GetProductsByCategory | src/data/products.ts:227-229 | exactly the products of the category, in catalog order |
| Catalog.GetProductsByIds | src/data/products.ts:231-233 | exactly the catalog products whose id is listed, in catalog order rather than argument order |
| Catalog.ProductsByIdsIgnoresOrder | src/data/products.ts:231-233 | only the set of listed ids matters: order and repetition change nothing |
| Catalog.ProductsByIdsExtraId | src/data/products.ts:231-233 | a repeated id, or an id of no product, adds nothing |
| Catalog.ProductIdsDistinct | src/data/products.ts:19-221 | no two catalog products share an id |
| Catalog.GetProductByIdFindsEach | src/data/products.ts:223-225 | every catalog product is found by its own id |
| Catalog.CategoriesCoverProducts | src/data/products.ts:235-243 | the first category is "all", no product has category "all", and every product's category is listed after it |
| Catalog.ProductsByAllCategoryEmpty | src/data/products.ts:227-229 | `getProductsByCategory('all')` is empty |
| Catalog.ProductsWellFormed | src/data/products.ts:19-221 | every product has a positive price, at least one size and at least one variant |
| Clubs.FindBySlug | src/data/clubs.ts:41-43 | `find` by slug: none exactly when no club has the slug; otherwise a club with it |
| Clubs.FindById | src/app/dashboard/club/page.tsx:57 | `find` by id: none exactly when no club has the id; otherwise a club with it |
| Clubs.GetClubBySlug | src/data/clubs.ts:41-43 | the store's slug lookup over the club table |
| Clubs.UppakraIsUif | src/data/clubs.ts:13-39 | the slug "uppakra-if" finds the club with id "uif" |
| Clubs.ActiveProductsMatchCatalog | src/data/clubs.ts:23-37 | the club's 13 active ids are distinct, each names a catalog product, and every catalog product is listed |
| Clubs.ClubStorefrontIsWholeCatalog | src/data/clubs.ts:23-37 | the club's storefront, `getProductsByIds(activeProductIds)`, is the whole catalog in catalog order |
| Orders.FirstOrderTotal | src/data/orders.ts:25-40 | the first order has two Basic-T at 249 and one Basic Hoodie at 599, and its total 1097 is its line sum |
| Orders.MockOrderTotalsAreItemSums | src/data/orders.ts:24-259 | every mock order's total is the sum of price × quantity over its lines, with no shipping added |
| Orders.LinesAtMatchCatalog | src/data/orders.ts:24-259 | lines that sit at known catalog positions are found by `getProductById`, at their catalog price |
| Orders.MockOrderItemsMatchCatalog | src/data/orders.ts:24-259 | every line of every mock order names a catalog product and carries that product's catalog price |
| Orders.MockOrderSerials | src/data/orders.ts:24-259 | the orders are numbered ORD-2024-001 to ORD-2024-015 in list order |
| Orders.MockOrderIdsDistinct | src/data/orders.ts:24-259 | order ids are distinct |
| Orders.MockOrderAddressIffHome | src/data/orders.ts:24-259 | an order carries an address exactly when it is a home delivery |
| Orders.MockOrdersChronological | src/data/orders.ts:24-259 | the list is in creation order |
| Orders.MockOrdersPositiveAndUif | src/data/orders.ts:24-259 | every order belongs to club "uif" and every quantity is at least 1 |
| Utils.Digits | src/lib/utils.ts:1-3 | the digits of a number form a non-empty string of decimal digits |
| Utils.FormatPrice | src/lib/utils.ts:1-3 | the label ends in " kr" |
| Utils.GroupedValue | src/lib/utils.ts:1-3 | without the no-break-space separators the grouped form is the plain digits of the number, which read back as the number |
| Utils.FormatPriceRoundTrip | src/lib/utils.ts:1-3 | reading a price label back gives the price: `ParsePrice(FormatPrice(p)) == p` |
| Utils.FormatPriceExamples | src/lib/utils.ts:1-3 | 49 is "49 kr"; 1097 is "1 097 kr" with a no-break space |
| Utils.OrderIdFor | src/lib/utils.ts:5-12 | the number is "ORD-" followed by the drawn character at each position |
| Utils.GenerateOrderId | src/lib/utils.ts:5-12 | the loop builds a 12-character number starting "ORD-" that spells the eight drawn positions |
| Utils.OrderIdForIsOrderId | src/lib/utils.ts:5-12 | every generated number is the prefix and eight characters of the 36-character alphabet |
| Utils.OrderIdForInjective | src/lib/utils.ts:5-12 | two numbers are equal exactly when the drawn positions are equal |
| Utils.TruthyStrings | src/lib/utils.ts:14-16 | the kept strings are non-empty and each comes from an argument |
| Utils.Cn | src/lib/utils.ts:14-16 | the result is "" exactly when no argument is truthy |
| Utils.SplitJoin | src/lib/utils.ts:14-16 | splitting a space-joined list of space-free words gives the words back |
| Utils.CnRoundTrip | src/lib/utils.ts:14-16 | when no class string holds a space, splitting `cn(...)` at spaces gives exactly the truthy arguments, in order |
| Utils.TruthyStringsConcat | src/lib/utils.ts:14-16 | the truthy strings of a concatenation are the concatenation of the truthy strings |
| Utils.CnIgnoresFalsy | src/lib/utils.ts:14-16 | a falsy argument, wherever it stands, does not change the result |
| Utils.CnExamples | src/lib/utils.ts:14-16 | `cn()` is ""; strings mixed with `undefined`, `false`, `null` and "" join to "px-4 font-bold" |
| CartContext.FindLine | src/context/CartContext.tsx:45-47 | `find` by product, size and variant: none exactly when no line has that key; otherwise a line with it |
| CartContext.Merged | src/context/CartContext.tsx:49-53 | merging keeps the number of lines |
| CartContext.Cart.constructor | src/context/CartContext.tsx:28 | the provider starts with an empty cart |
| CartContext.Cart.AddItem | src/context/CartContext.tsx:43-57 | the new list is the old list with the item merged into its line or appended; keys stay unique; quantities stay positive when the item's is |
| CartContext.Cart.RemoveItem | src/context/CartContext.tsx:59-63 | the new list is the old list without the lines of the key; keys stay unique and quantities positive |
| CartContext.Cart.UpdateQuantity | src/context/CartContext.tsx:65-77 | the new list has the quantity set, or the line removed when the quantity is at most 0; keys stay unique and quantities positive |
| CartContext.Cart.ClearCart | src/context/CartContext.tsx:79 | the cart is empty and both totals are 0 |
| CartContext.MergedIsUpdateAt | src/context/CartContext.tsx:49-53 | with unique keys, merging changes exactly the one line with the item's key |
| CartContext.AddExistingMerges | src/context/CartContext.tsx:43-57 | a present key raises that line's quantity and keeps its name, price, colour and image; the other lines and the length are unchanged |
| CartContext.AddFreshAppends | src/context/CartContext.tsx:43-57 | a fresh key appends the item at the end |
| CartContext.AddedKeepsInvariants | src/context/CartContext.tsx:43-57 | adding keeps one line per key, and positive quantities when the item's quantity is positive |
| CartContext.AddedTotals | src/context/CartContext.tsx:43-57 | adding raises the item count by the item's quantity, and the price total by that quantity at the price of the line it lands on |
| CartContext.AddTwiceMerges | src/context/CartContext.tsx:43-57 | adding two items with the same fresh key gives one appended line with the quantities summed |
| CartContext.AddAllSameKey | src/context/CartContext.tsx:43-57 | any number of `addItem` calls with the same fresh key leave exactly one line with that key, appended at the end: the first item with the sum of all the quantities |
| CartContext.RemovedMeaning | src/context/CartContext.tsx:59-63 | removal drops every line of the key and keeps every copy of each other line, in order |
| CartContext.RemoveAbsentIsNoOp | src/context/CartContext.tsx:59-63 | removing a key no line has changes nothing |
| CartContext.RemovedKeepsUniqueKeys | src/context/CartContext.tsx:59-63 | removal keeps one line per key |
| CartContext.RemovedKeepsInvariants | src/context/CartContext.tsx:59-63 | removal keeps one line per key and positive quantities |
| CartContext.WithQuantity | src/context/CartContext.tsx:70-76 | setting a quantity keeps the number of lines |
| CartContext.UpdateNonPositiveRemoves | src/context/CartContext.tsx:65-69 | a quantity of 0 or less is `removeItem`, so decrementing a line of quantity 1 deletes it |
| CartContext.UpdatePositiveSets | src/context/CartContext.tsx:70-76 | a positive quantity is set on exactly the lines of the key; nothing else changes and no line is added |
| CartContext.UpdatedKeepsInvariants | src/context/CartContext.tsx:65-77 | updating keeps one line per key and positive quantities |
| CartContext.TotalsOfEmptyAndPositive | src/context/CartContext.tsx:81-82 | an empty cart totals 0; with positive quantities the item count is at least the number of lines, and the price total is non-negative for non-negative prices |
| CartContext.QuantityAtLeastLength | src/context/CartContext.tsx:81 | with positive quantities, `totalItems` is at least the number of lines |
| CartContext.TotalsExample | src/context/CartContext.tsx:81-82 | 2 × 249 plus 1 × 599 gives 3 items costing 1097 |
| Checkout.ShippingCost | src/app/checkout/page.tsx:32 | shipping is non-negative, and zero exactly for club pickup |
| Checkout.OrderTotal | src/app/checkout/page.tsx:33 | the order total is never below the cart total, equals it exactly for club pickup, and is at most 49 kr above it |
| Checkout.Render | src/app/checkout/page.tsx:21-33 | an empty cart shows only the message; a non-empty one the wizard at the current step, with the delivery type's shipping cost, the cart total plus that cost, and Confirm enabled exactly when Confirm is offered |
| Checkout.CheckoutPage.constructor | src/app/checkout/page.tsx:15-19 | the page starts at step 1 with home delivery, Swish, an empty form and nothing processing |
| Checkout.CheckoutPage.Press | src/app/checkout/page.tsx:86-293 | pressing a control moves the page state as the transition function says |
| Checkout.CheckoutPage.FinishConfirm | src/app/checkout/page.tsx:38-40 | after the delay the cart is empty, the page state unchanged, and the route is "/confirmation" |
| Checkout.InitialDefaults | src/app/checkout/page.tsx:15-19 | the initial state is step 1, home delivery, Swish, not processing, shipping 49 |
| Checkout.EmptyCartShowsNoStep | src/app/checkout/page.tsx:21-30 | with an empty cart the page shows the link back to the store and no action does anything |
| Checkout.StepMovesByOne | src/app/checkout/page.tsx:153-285 | every press moves the step by at most one, along 1→2, 2→1, 2→3, 3→2 only |
| Checkout.ContinueIsUnconditional | src/app/checkout/page.tsx:152-153 | from step 1 "continue" always reaches step 2, whatever the form holds |
| Checkout.ConfirmOnlyAtReview | src/app/checkout/page.tsx:238-293 | Confirm is offered exactly on step 3 of a non-empty cart while nothing is processing, and it sets `isProcessing` |
| Checkout.ProcessingOnlyRises | src/app/checkout/page.tsx:35-41 | `isProcessing` never falls, and only Confirm on step 3 raises it |
| Checkout.NextKeepsReachable | src/app/checkout/page.tsx:35-41 | every press keeps `isProcessing` confined to step 3 |
| Checkout.ProcessingFreezesPage | src/app/checkout/page.tsx:287-293 | while processing on step 3 every press is ignored, so a second confirmation cannot start |
| Checkout.ShippingAndTotal | src/app/checkout/page.tsx:32-33 | shipping is 49 for home and 0 for pickup, and the order total adds it to the cart total |
| Checkout.ConfirmFlow | src/app/checkout/page.tsx:35-41 | confirming on the review step ends with isProcessing still set, with an empty cart showing the empty-cart message, on route "/confirmation" |
| Auth.FindCredential | src/context/AuthContext.tsx:34 | none exactly when no row matches both username and password; otherwise a matching row |
| Auth.UserOf | src/context/AuthContext.tsx:36 | the user keeps the row's username, role and club id; for a row of the table it has a club exactly when it is a club administrator, and its username with the row's password finds that row again |
| Auth.AuthStore.constructor | src/context/AuthContext.tsx:24-31 | on mount the user is the saved session copy |
| Auth.AuthStore.Login | src/context/AuthContext.tsx:33-44 | the result is whether a row matched; the new state is the one the login function describes |
| Auth.AuthStore.Logout | src/context/AuthContext.tsx:46-51 | the new state is `AfterLogout` of the old one: neither a user nor a session copy is left, whatever the session was |
| Auth.LoginSucceedsIff | src/context/AuthContext.tsx:33-44 | login succeeds exactly when some row matches both the username and the password |
| Auth.KnownAccounts | src/context/AuthContext.tsx:16-19 | "admin"/"admin123" signs in staff without a club; "uif-admin"/"uif123" signs in the administrator of "uif"; wrong passwords fail |
| Auth.ClubIdIffClubAdmin | src/context/AuthContext.tsx:16-19 | a signed-in user has a club id exactly when they are a club administrator |
| Auth.SuccessStoresUser | src/context/AuthContext.tsx:35-41 | on success the session copy equals the new user, and it carries the username given |
| Auth.FailureKeepsSession | src/context/AuthContext.tsx:43 | a failed login changes nothing, so it signs nobody out |
| Auth.LoginIdempotent | src/context/AuthContext.tsx:33-44 | logging in twice with the same credentials is logging in once |
| Auth.LogoutClears | src/context/AuthContext.tsx:46-51 | logout clears both the user and the copy, and logging out again changes nothing |
| Auth.SignInAttempt | src/context/AuthContext.tsx:24-44 | a fresh store with no saved copy and a wrong password stays signed out |
| Aggregation.FilteredOrdersMeaning | src/app/dashboard/page.tsx:14-21 | the period filter keeps exactly the orders at or after the cutoff, every copy of each, in list order |
| Aggregation.ClubFilterIsStaffThenClub | src/app/dashboard/club/page.tsx:14-21 | the club filter is the staff filter followed by a filter on the club id |
| Aggregation.OneClubFilterIsStaffFilter | src/app/dashboard/club/page.tsx:20 | when every order belongs to the club, the club filter equals the staff filter |
| Aggregation.PeriodsNest | src/app/dashboard/page.tsx:17-20 | with ordered cutoffs, the week's orders are among the month's, and the month's among the quarter's |
| Aggregation.RoundedAverage | src/app/dashboard/page.tsx:165 | `Math.round(total / count)`: the integer nearest the quotient, halves up |
| Aggregation.Average | src/app/dashboard/page.tsx:165 | no average exactly when there are no orders; otherwise the rounded quotient |
| Aggregation.RevenueOfAppended | src/app/dashboard/page.tsx:62 | revenue is additive: one more order adds its total |
| Aggregation.RevenueNonNegative | src/app/dashboard/page.tsx:62 | orders with non-negative totals give non-negative revenue and a non-negative average |
| Aggregation.Put | src/app/dashboard/page.tsx:72-83 | assigning a key updates its value, a new key goes last in key order and an old one keeps its place, and a well-formed dictionary (distinct keys, in step with the map) stays well formed |
| Aggregation.ValuesListsTable | src/app/dashboard/page.tsx:76 | `Object.values` lists every stored value, and only stored values, one per key in key order |
| Aggregation.CategoryRevenue | src/app/dashboard/page.tsx:66-75 | the nested loops compute the category table |
| Aggregation.CategoryTableMeaning | src/app/dashboard/page.tsx:66-75 | a category is present exactly when some line's product has it, and its value is the revenue of all such lines; lines of unknown products are skipped |
| Aggregation.MaxWithFloor | src/app/dashboard/page.tsx:76 | `Math.max(...values, floor)`: at least the floor and every value, and equal to one of them |
| Aggregation.MaxCategoryRevenueBounds | src/app/dashboard/page.tsx:76 | the scale is at least 1 and at least every category's revenue, so no bar exceeds 100% and nothing divides by zero |
| Aggregation.Insert | src/app/dashboard/page.tsx:89 | insertion adds exactly the one element |
| Aggregation.InsertDescending | src/app/dashboard/page.tsx:89 | inserting into a descending list keeps it descending |
| Aggregation.SortByScore | src/app/dashboard/page.tsx:89 | sorting is a permutation |
| Aggregation.SortByScoreDescending | src/app/dashboard/page.tsx:89 | sorting puts the scores in non-increasing order |
| Aggregation.PrefixDominates | src/app/dashboard/page.tsx:89 | in a descending list nothing after a cut scores more than anything before it |
| Aggregation.ProductSales | src/app/dashboard/page.tsx:79-88 | the nested loops compute the sales table |
| Aggregation.FirstLine | src/app/dashboard/page.tsx:82-84 | none exactly when no line has the product; otherwise a line with the product |
| Aggregation.FirstLineIsFirst | src/app/dashboard/page.tsx:82-84 | the line found is a line of the list before which no line names the product, so the entry's name comes from the first line seen |
| Aggregation.SalesTableMeaning | src/app/dashboard/page.tsx:79-88 | a product is present exactly when some line names it, with the name of its first line and the summed quantity and revenue of all its lines |
| Aggregation.TopProducts | src/app/dashboard/page.tsx:89 | at most five entries |
| Aggregation.TopProductsMeaning | src/app/dashboard/page.tsx:89 | the top list is by revenue, highest first; it holds min(5, number of products) table entries; no entry left out earns more than one shown |
| Aggregation.EntriesListTable | src/app/dashboard/page.tsx:180 | `Object.entries` pairs every key with its value, every pair is a key and its value, and no key appears twice |
| Aggregation.CategoryBars | src/app/dashboard/page.tsx:180-182 | the bars are a permutation of the entries |
| Aggregation.CategoryBarsDescending | src/app/dashboard/page.tsx:180-182 | the bars are listed by revenue, highest first |
| Aggregation.CategoryBarsWithinScale | src/app/dashboard/page.tsx:76 | no bar's revenue exceeds the scale |
| Dashboard.ComputeFigures | src/app/dashboard/page.tsx:61-89 | the page's computation yields the figures of the filtered orders |
| Dashboard.FiguresMeaning | src/app/dashboard/page.tsx:61-89 | revenue and count are those of the orders; the average is absent exactly when there are none; the scale is at least 1 and every bar; bars and top list are highest first with at most five products |
| Dashboard.ProductUrlRoundTrip | src/app/dashboard/club/page.tsx:296 | the product id can be read back off a product QR address |
| Dashboard.ProductUrls | src/app/dashboard/club/page.tsx:293-296 | one address per product, in order, each naming its product |
| Dashboard.ClubUrls | src/app/dashboard/page.tsx:260-263 | one store address per club |
| Dashboard.StaffDashboard | src/app/dashboard/page.tsx:48-91 | nothing before mounting; "/login" without a user; "/dashboard/club" for a non-staff user; otherwise the figures of the period, the club count and the store addresses |
| Dashboard.ClubIdFallback | src/app/dashboard/club/page.tsx:56 | the club id is never blank: the user's own non-empty id, or "uif" when it is absent or "" |
| Dashboard.ClubDashboard | src/app/dashboard/club/page.tsx:48-91 | nothing before mounting; "/login" without a user; nothing for an unknown club id; otherwise the club's figures, store address and product addresses, with no role check |
| Dashboard.StaffLandsOnUif | src/app/dashboard/club/page.tsx:56-57 | both demo accounts land on club "uif": the staff user through the fallback |
| Dashboard.UnknownClubFindsNothing | src/app/dashboard/club/page.tsx:57-58 | any club id other than "uif" finds no club, so the page renders nothing |
| Dashboard.ClubViewMatchesStaffOnMockData | src/app/dashboard/club/page.tsx:14-21 | on the mock data the "uif" view sees exactly the staff view's orders |
| Dashboard.UifProductCodes | src/app/dashboard/club/page.tsx:293-296 | the "uif" view shows one product code per catalog product, in catalog order |

## Left out

- Persistence is not modelled: the `localStorage` cart copy, the `sessionStorage` session copy and their JSON encoding, including the cart's storage round trip. The session copy is a field; the saved value is the constructor argument.
- The login page's 500 ms delay and the checkout's 1.5 s `setTimeout` are not modelled. `handleConfirm` is split into the part before the delay (`Press(Confirm)`) and the part after it (`FinishConfirm`).
- `Date`, "now" and the calendar arithmetic of the period filter are not modelled. The three cutoffs arrive as a parameter.
- `Math.random` is not modelled: `GenerateOrderId` receives the eight drawn positions.
- `window.location.origin` is not modelled; the dashboards receive the origin as a parameter.
- The QR encoder is not modelled, only the address each code carries.
- Routing is reduced to the route string a page pushes or links to.
- All markup, styling, tabs and the club colours are not modelled, nor the context files outside the core: the store, product and category pages, the cart page, the login page and the navigation components.
- `useCart`'s and `useAuth`'s error when used outside their provider is not modelled: every call happens inside one.
- The order list tab, the status labels and the status colours are not modelled: they only display.
- Catalog: each product's `description` text is not modelled. It is display text that no logic reads.
- The credit-card payment option is not modelled: it is rendered disabled and cannot be chosen.
- Aggregation.SortByScore: stable for equal revenues, as `Array.prototype.sort` is, but only the order by revenue and the permutation are proved, not the order of ties.
- Utils.FormatPrice: models whole non-negative prices only, which every price in the store is. No decimals or negative amounts. The Swedish locale data is not modelled; it is stood in for by a no-break space between groups of three digits.
- Utils.ParsePrice: reads a label back only for the round trip and is not part of the source.
- Utils.Split: JavaScript's `split(' ')`, used only to state the round trip of `cn`; the source never splits a class string.
- Dictionary keys that are array indices or `Object.prototype` member names are not modelled. JavaScript lists integer-like keys first, in numeric order, and `!productSales[id]` or `categoryRevenue[cat] || 0` would read an inherited member for a key such as "constructor". No id or category in the data is such a key.
- Dashboard.ClubUrls: states only that there is one address per club, not what each address spells.
- Integers are unbounded. Every amount in the store is a small whole number, so JavaScript's floating-point numbers never round here.
