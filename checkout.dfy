// The checkout wizard (`CheckoutPage`): three steps, delivery, payment and
// review, over the shared cart.
//
// The page's controls are modelled as actions. An action is `Offered` when its
// button or input is rendered and enabled in the current state; pressing one
// that is not offered is impossible in the page, and here it changes nothing.
// `handleConfirm` is split at its `await`: `Press(Confirm)` is the part before
// the 1.5 second delay, `FinishConfirm` the part after it. Routing is reduced
// to the route string the page pushes or links to.

module Checkout {
  import opened CartContext
  import Orders

  type DeliveryType = Orders.DeliveryType
  type PaymentMethod = Orders.PaymentMethod

  /** The wizard's step indicator value. */
  type Step = s: int | 1 <= s <= 3 witness 1

  /** The contact and address form. */
  datatype Address = Address(name: string, street: string, city: string, zip: string, email: string)

  datatype AddressField = Name | Email | Street | Zip | City

  /** The page's `useState` fields. */
  datatype PageState = PageState(
    step: Step,
    deliveryType: DeliveryType,
    address: Address,
    paymentMethod: PaymentMethod,
    isProcessing: bool)

  /** What a user can do on the page. There is no action for the card option: it is shown
      greyed out and cannot be chosen. */
  datatype Action =
    | ChooseDelivery(delivery: DeliveryType)
    | EditField(field: AddressField, value: string)
    | ContinueToPayment
    | ChoosePayment(choice: PaymentMethod)
    | BackToDelivery
    | ReviewOrder
    | BackToPayment
    | Confirm

  /** The state of a freshly mounted page: step 1, home delivery, Swish, an empty form. */
  const Initial: PageState :=
    PageState(1, Orders.Home, Address("", "", "", "", ""), Orders.Swish, false)

  /** Home delivery asks for the full address; club pickup only for name and e-mail. */
  predicate FieldShown(delivery: DeliveryType, f: AddressField)
  {
    delivery == Orders.Home || f == Name || f == Email
  }

  /** `setAddress((a) => ({ ...a, [field]: value }))`. */
  function WithField(a: Address, f: AddressField, v: string): Address
  {
    match f
    case Name => a.(name := v)
    case Email => a.(email := v)
    case Street => a.(street := v)
    case Zip => a.(zip := v)
    case City => a.(city := v)
  }

  /** The control for `a` is rendered and enabled. With an empty cart the page renders only the
      empty-cart message, so nothing is offered. */
  predicate Offered(a: Action, cartEmpty: bool, s: PageState)
  {
    !cartEmpty &&
    match a
    case ChooseDelivery(_) => s.step == 1
    case EditField(f, _) => s.step == 1 && FieldShown(s.deliveryType, f)
    case ContinueToPayment => s.step == 1
    case ChoosePayment(_) => s.step == 2
    case BackToDelivery => s.step == 2
    case ReviewOrder => s.step == 2
    case BackToPayment => s.step == 3 && !s.isProcessing
    case Confirm => s.step == 3 && !s.isProcessing
  }

  /** The state after pressing `a`: the handler's effect if `a` is offered, else no change. */
  function Next(s: PageState, a: Action, cartEmpty: bool): PageState
  {
    if !Offered(a, cartEmpty, s) then s
    else match a
      case ChooseDelivery(d) => s.(deliveryType := d)
      case EditField(f, v) => s.(address := WithField(s.address, f, v))
      case ContinueToPayment => s.(step := 2)
      case ChoosePayment(m) => s.(paymentMethod := m)
      case BackToDelivery => s.(step := 1)
      case ReviewOrder => s.(step := 3)
      case BackToPayment => s.(step := 2)
      case Confirm => s.(isProcessing := true)
  }

  /** `shippingCost`: 49 kr for home delivery, free pickup at the club. */
  function ShippingCost(delivery: DeliveryType): (r: int)
    ensures r >= 0
    ensures r == 0 <==> delivery.ClubPickup?
  {
    if delivery.Home? then 49 else 0
  }

  /** `orderTotal`: the cart's price total plus shipping. The customer never pays less than
      the goods, pays nothing extra exactly for club pickup, and pays at most 49 kr on top. */
  function OrderTotal(items: seq<CartItem>, delivery: DeliveryType): (r: int)
    ensures r >= PriceSum(items)
    ensures r == PriceSum(items) <==> delivery.ClubPickup?
    ensures r <= PriceSum(items) + 49
  {
    PriceSum(items) + ShippingCost(delivery)
  }

  /** What the page shows. */
  datatype Screen =
    | EmptyCartMessage(storeLink: string)
    | Wizard(step: Step, shippingCost: int, orderTotal: int, confirmEnabled: bool)

  /** What the page renders from the cart lines and its state. */
  function Render(items: seq<CartItem>, s: PageState): (r: Screen)
    ensures r.EmptyCartMessage? <==> items == []
    ensures r.Wizard? ==> r.step == s.step && r.orderTotal == PriceSum(items) + r.shippingCost
    ensures r.Wizard? ==> r.shippingCost == ShippingCost(s.deliveryType)
    ensures r.Wizard? ==> (r.confirmEnabled <==> Offered(Confirm, false, s))
  {
    if |items| == 0 then EmptyCartMessage("/store/uppakra-if")
    else Wizard(s.step, ShippingCost(s.deliveryType), OrderTotal(items, s.deliveryType),
                s.step == 3 && !s.isProcessing)
  }

  /** The route `handleConfirm` pushes once the cart is cleared. */
  const ConfirmationRoute: string := "/confirmation"

  class CheckoutPage {
    /** The cart of the surrounding `CartProvider`. */
    const cart: Cart
    var step: Step
    var deliveryType: DeliveryType
    var address: Address
    var paymentMethod: PaymentMethod
    var isProcessing: bool

    function State(): PageState
      reads this
    {
      PageState(step, deliveryType, address, paymentMethod, isProcessing)
    }

    constructor(cart: Cart)
      ensures this.cart == cart && State() == Initial
    {
      this.cart := cart;
      step := 1;
      deliveryType := Orders.Home;
      address := Address("", "", "", "", "");
      paymentMethod := Orders.Swish;
      isProcessing := false;
    }

    function Screen(): Screen
      reads this, cart
    {
      Render(cart.items, State())
    }

    /** The user presses the control for `a`. */
    method Press(a: Action)
      modifies this
      ensures State() == Next(old(State()), a, cart.items == [])
    {
      if !Offered(a, |cart.items| == 0, State()) {
        return;
      }
      match a
      case ChooseDelivery(d) => deliveryType := d;
      case EditField(f, v) => address := WithField(address, f, v);
      case ContinueToPayment => step := 2;
      case ChoosePayment(m) => paymentMethod := m;
      case BackToDelivery => step := 1;
      case ReviewOrder => step := 3;
      case BackToPayment => step := 2;
      case Confirm => isProcessing := true;
    }

    /** The rest of `handleConfirm`, after the delay: empty the cart, go to the confirmation page.
        Nothing resets `isProcessing`. */
    method FinishConfirm() returns (route: string)
      requires isProcessing
      modifies cart
      ensures cart.items == [] && cart.Valid()
      ensures State() == old(State()) && isProcessing
      ensures route == ConfirmationRoute
    {
      cart.ClearCart();
      route := ConfirmationRoute;
    }
  }

  // ---------------------------------------------------------------------------
  // Properties of the wizard

  /** The page opens at step 1 with home delivery and Swish selected and nothing processing. */
  lemma InitialDefaults()
    ensures Initial.step == 1 && Initial.deliveryType == Orders.Home
    ensures Initial.paymentMethod == Orders.Swish && !Initial.isProcessing
    ensures ShippingCost(Initial.deliveryType) == 49
  {
  }

  /** With an empty cart only the message is shown and no control of any step is offered. */
  lemma EmptyCartShowsNoStep(s: PageState, a: Action)
    ensures Render([], s) == EmptyCartMessage("/store/uppakra-if")
    ensures !Offered(a, true, s) && Next(s, a, true) == s
  {
  }

  /** Every press moves the step by at most one: the only moves are 1→2, 2→1, 2→3 and 3→2. */
  lemma StepMovesByOne(s: PageState, a: Action, cartEmpty: bool)
    ensures var t := Next(s, a, cartEmpty).step;
      t == s.step || (s.step, t) in {(1, 2), (2, 1), (2, 3), (3, 2)}
    ensures Next(s, a, cartEmpty).step - s.step in {-1, 0, 1}
  {
  }

  /** Leaving step 1 needs nothing of the form: any address, even an empty one, continues. */
  lemma ContinueIsUnconditional(s: PageState)
    requires s.step == 1
    ensures Next(s, ContinueToPayment, false).step == 2
    ensures Next(s, ContinueToPayment, false) == s.(step := 2)
  {
  }

  /** Confirm is offered exactly on step 3 of a non-empty cart while nothing is processing. */
  lemma ConfirmOnlyAtReview(s: PageState, cartEmpty: bool)
    ensures Offered(Confirm, cartEmpty, s) <==> !cartEmpty && s.step == 3 && !s.isProcessing
    ensures Offered(Confirm, cartEmpty, s) ==> Next(s, Confirm, cartEmpty) == s.(isProcessing := true)
  {
  }

  /** `isProcessing` is only ever raised, and only by Confirm on step 3. */
  lemma ProcessingOnlyRises(s: PageState, a: Action, cartEmpty: bool)
    ensures s.isProcessing ==> Next(s, a, cartEmpty).isProcessing
    ensures !s.isProcessing && Next(s, a, cartEmpty).isProcessing ==> a == Confirm && s.step == 3
  {
  }

  /** Processing only ever happens on step 3. */
  predicate Reachable(s: PageState)
  {
    s.isProcessing ==> s.step == 3
  }

  lemma NextKeepsReachable(s: PageState, a: Action, cartEmpty: bool)
    requires Reachable(s)
    ensures Reachable(Next(s, a, cartEmpty))
  {
  }

  /** While processing on step 3, Back and Confirm are disabled, so every press is ignored. */
  lemma ProcessingFreezesPage(s: PageState, a: Action, cartEmpty: bool)
    requires s.isProcessing && s.step == 3
    ensures Next(s, a, cartEmpty) == s
  {
  }

  /** The shipping cost is 49 for home delivery and 0 for club pickup, and the order total
      adds it to the cart's price total. */
  lemma ShippingAndTotal(items: seq<CartItem>)
    ensures ShippingCost(Orders.Home) == 49 && ShippingCost(Orders.ClubPickup) == 0
    ensures OrderTotal(items, Orders.Home) == PriceSum(items) + 49
    ensures OrderTotal(items, Orders.ClubPickup) == PriceSum(items)
  {
  }

  /** Confirming: pressing Confirm on the review step raises `isProcessing`; when the delay is
      over the cart is empty, the state keeps `isProcessing`, and the page would show only the
      empty-cart message if it stayed. */
  method ConfirmFlow(page: CheckoutPage) returns (route: string)
    requires page.step == 3 && !page.isProcessing && page.cart.items != []
    modifies page, page.cart
    ensures page.isProcessing && page.step == 3
    ensures page.cart.items == [] && page.Screen().EmptyCartMessage?
    ensures route == ConfirmationRoute
  {
    page.Press(Confirm);
    route := page.FinishConfirm();
  }
}
