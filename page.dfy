/**
 * The page: which screen shows (loading, landing, storefront), the open/closed
 * flags of the cart sheet and the dialogs, the selected category and search
 * query, and the checkout snapshot carried from checkout to payment to the
 * order dialog. Handlers wired to buttons and inputs exist only while the
 * storefront renders, so they require it; the timer callbacks of the payment
 * and order dialogs do not.
 */
module Page {

  import opened Wrappers
  import opened CartUtils
  import opened CartHook
  import opened Checkout
  import opened Auth
  import opened FoodGrid
  import opened Payment
  import opened OrderProgress

  datatype Screen = Loading | Landing | Storefront

  const DEFAULT_CATEGORY: string := "popular"

  /** Loading wins; then a missing user shows the landing screen; otherwise the storefront. */
  function ScreenFor(isLoading: bool, user: Option<User>): (s: Screen)
    ensures s == Loading <==> isLoading
    ensures s == Landing <==> !isLoading && user.None?
    ensures s == Storefront <==> !isLoading && user.Some?
  {
    if isLoading then Loading else if user.None? then Landing else Storefront
  }

  /** The total the order dialog shows: the snapshot's when it is set and non-zero, the live cart total otherwise. */
  function ShownTotal(checkoutData: Option<CheckoutData>, cartTotal: real): (t: real)
    ensures checkoutData.Some? && checkoutData.value.total != 0.0 ==> t == checkoutData.value.total
    ensures checkoutData.None? || checkoutData.value.total == 0.0 ==> t == cartTotal
  {
    if checkoutData.Some? && checkoutData.value.total != 0.0 then checkoutData.value.total else cartTotal
  }

  /**
   * A snapshot of a cart with a positive subtotal has a positive total, so the
   * order dialog shows the snapshot's total and never falls back to the cart's.
   */
  lemma SnapshotTotalIsShown(t: DeliveryType, m: PaymentMethod, info: DeliveryInfo, props: CheckoutProps, cartTotal: real)
    requires props.subtotal > 0.0 && props.deliveryFee >= 0.0
    ensures Snapshot(t, m, info, props).total > 0.0
    ensures ShownTotal(Some(Snapshot(t, m, info, props)), cartTotal) == Snapshot(t, m, info, props).total
  {
  }

  /** The cart's own totals are never zero, so the fallback also shows a positive amount. */
  lemma CartTotalPositive(items: seq<CartItem>)
    requires forall i :: 0 <= i < |items| ==> items[i].item.price >= 0.0 && items[i].quantity >= 0
    ensures var s := CalculateSubtotal(items);
      CalculateTotal(s, CalculateDeliveryFee(s), CalculateTax(s)) > 0.0
  {
    SubtotalNonNegative(items);
  }

  /** The page's own state variables, as one value, so that a handler can say which of them it changes. */
  datatype PageState = PageState(
    authDialogOpen: bool,
    selectedCategory: string,
    isCartOpen: bool,
    checkoutDialogOpen: bool,
    paymentDialogOpen: bool,
    orderDialogOpen: bool,
    searchQuery: string,
    isProfileOpen: bool,
    checkoutData: Option<CheckoutData>)

  class App {

    const auth: AuthStore
    const cart: Cart
    /** The dialogs of the storefront that keep state of their own. */
    const checkout: CheckoutDialog
    const paymentForm: PaymentForm
    const orderDialog: OrderDialog

    var authDialogOpen: bool
    var selectedCategory: string
    var isCartOpen: bool
    var checkoutDialogOpen: bool
    var paymentDialogOpen: bool
    var orderDialogOpen: bool
    var searchQuery: string
    var isProfileOpen: bool
    var checkoutData: Option<CheckoutData>

    /** The session, the cart, the payment form and the order dialog keep their own invariants. */
    ghost predicate Valid()
      reads this, auth, cart, paymentForm, orderDialog
    {
      && auth.Valid()
      && cart.Valid()
      && paymentForm.Valid()
      && orderDialog.Valid()
    }

    function State(): PageState
      reads this
    {
      PageState(authDialogOpen, selectedCategory, isCartOpen, checkoutDialogOpen, paymentDialogOpen,
        orderDialogOpen, searchQuery, isProfileOpen, checkoutData)
    }

    function CurrentScreen(): Screen
      reads this, auth
    {
      ScreenFor(auth.isLoading, auth.user)
    }

    /**
     * Everything closed, category "popular", empty search, no snapshot; the
     * session is still loading. The dialogs start from their own initial state;
     * the payment form is created while there is no snapshot, so its billing
     * address starts empty.
     */
    constructor (saved: Storage)
      ensures Valid() && fresh(auth) && fresh(cart) && fresh(checkout) && fresh(paymentForm) && fresh(orderDialog)
      ensures CurrentScreen() == Loading && !auth.restored && auth.storage == saved
      ensures cart.items == []
      ensures State() == PageState(false, DEFAULT_CATEGORY, false, false, false, false, "", false, None)
      ensures checkout.deliveryType == Delivery && checkout.paymentMethod == Card
      ensures checkout.deliveryInfo == DEFAULT_DELIVERY_INFO
      ensures paymentForm.cardNumber == "" && paymentForm.expiryMonth == "" && paymentForm.expiryYear == ""
      ensures paymentForm.cvv == "" && paymentForm.cardholderName == ""
      ensures !paymentForm.isProcessing && paymentForm.billingAddress == ""
      ensures orderDialog.orderStatus == Ordering && orderDialog.progress == 0 && orderDialog.timer == Idle
    {
      auth := new AuthStore(saved);
      cart := new Cart();
      checkout := new CheckoutDialog();
      paymentForm := new PaymentForm(None);
      orderDialog := new OrderDialog();
      authDialogOpen, isCartOpen, checkoutDialogOpen, paymentDialogOpen := false, false, false, false;
      orderDialogOpen, isProfileOpen := false, false;
      selectedCategory, searchQuery, checkoutData := DEFAULT_CATEGORY, "", None;
    }

    /** The session store's startup effect: a saved session opens the storefront, none the landing screen. */
    method Startup()
      requires Valid() && !auth.restored
      modifies auth
      ensures Valid() && auth.restored
      ensures CurrentScreen() == (if STORAGE_KEY in auth.storage then Storefront else Landing)
      ensures auth.storage == old(auth.storage)
      ensures State() == old(State())
    {
      auth.RestoreSession();
    }

    // -------------------------------------------------------------------------
    // The landing screen

    /** "Get Started" opens the sign-in dialog. */
    method OpenAuthDialog()
      requires Valid() && CurrentScreen() == Landing
      modifies this
      ensures Valid() && CurrentScreen() == Landing
      ensures State() == old(State()).(authDialogOpen := true)
    {
      authDialogOpen := true;
    }

    method CloseAuthDialog()
      requires Valid() && CurrentScreen() == Landing
      modifies this
      ensures Valid() && CurrentScreen() == Landing
      ensures State() == old(State()).(authDialogOpen := false)
    {
      authDialogOpen := false;
    }

    /** Signing in from the dialog: accepted credentials sign the mock user in and open the storefront; refused ones change nothing. */
    method SubmitLogin(email: string, password: string) returns (ok: bool)
      requires Valid() && CurrentScreen() == Landing && authDialogOpen
      modifies auth
      ensures Valid()
      ensures ok == LoginAccepted(email, password)
      ensures CurrentScreen() == (if ok then Storefront else Landing)
      ensures ok ==> auth.user == Some(LoginUser(email)) && auth.storage == old(auth.storage)[STORAGE_KEY := LoginUser(email)]
      ensures !ok ==> auth.user == old(auth.user) && auth.storage == old(auth.storage)
      ensures State() == old(State())
    {
      auth.BeginRequest();
      ok := auth.CompleteLogin(email, password);
    }

    method SubmitSignup(name: string, email: string, password: string) returns (ok: bool)
      requires Valid() && CurrentScreen() == Landing && authDialogOpen
      modifies auth
      ensures Valid()
      ensures ok == SignupAccepted(name, email, password)
      ensures CurrentScreen() == (if ok then Storefront else Landing)
      ensures ok ==> auth.user == Some(User(MOCK_USER_ID, name, email))
      ensures ok ==> auth.storage == old(auth.storage)[STORAGE_KEY := User(MOCK_USER_ID, name, email)]
      ensures !ok ==> auth.user == old(auth.user) && auth.storage == old(auth.storage)
      ensures State() == old(State())
    {
      auth.BeginRequest();
      ok := auth.CompleteSignup(name, email, password);
    }

    // -------------------------------------------------------------------------
    // The storefront: header, catalog and cart sheet

    /** The grid under the tabs: the selected category filtered by the header's search query. */
    function ShownItems(catalog: Catalog): (r: seq<FoodItem>)
      reads this
      ensures forall x :: x in r <==> x in CategoryItems(catalog, selectedCategory) && Matches(x, searchQuery)
    {
      FilteredItems(catalog, selectedCategory, searchQuery)
    }

    method SetCategory(category: string)
      requires Valid() && CurrentScreen() == Storefront
      modifies this
      ensures Valid()
      ensures State() == old(State()).(selectedCategory := category)
    {
      selectedCategory := category;
    }

    method SetSearchQuery(query: string)
      requires Valid() && CurrentScreen() == Storefront
      modifies this
      ensures Valid()
      ensures State() == old(State()).(searchQuery := query)
    {
      searchQuery := query;
    }

    /** A catalog card's "add" goes straight to the cart holder. */
    method AddToCart(item: FoodItem)
      requires Valid() && CurrentScreen() == Storefront
      modifies cart
      ensures Valid() && CurrentScreen() == Storefront
      ensures cart.items == AddItemToCart(old(cart.items), item)
      ensures State() == old(State())
    {
      cart.AddItem(item);
    }

    method OpenCart()
      requires Valid() && CurrentScreen() == Storefront
      modifies this
      ensures Valid()
      ensures State() == old(State()).(isCartOpen := true)
    {
      isCartOpen := true;
    }

    method CloseCart()
      requires Valid() && CurrentScreen() == Storefront
      modifies this
      ensures Valid()
      ensures State() == old(State()).(isCartOpen := false)
    {
      isCartOpen := false;
    }

    /** The sheet's quantity buttons and remove button act on the cart holder. */
    method CartUpdateQuantity(itemId: string, quantity: int)
      requires Valid() && CurrentScreen() == Storefront && isCartOpen
      modifies cart
      ensures Valid() && CurrentScreen() == Storefront
      ensures cart.items == UpdateItemQuantity(old(cart.items), itemId, quantity)
      ensures State() == old(State())
    {
      cart.UpdateQuantity(itemId, quantity);
    }

    method CartRemoveItem(itemId: string)
      requires Valid() && CurrentScreen() == Storefront && isCartOpen
      modifies cart
      ensures Valid() && CurrentScreen() == Storefront
      ensures cart.items == RemoveItemFromCart(old(cart.items), itemId)
      ensures State() == old(State())
    {
      cart.RemoveItem(itemId);
    }

    /** The sheet shows "checkout" only for a non-empty cart: the sheet closes and the checkout dialog opens. */
    method CartCheckout()
      requires Valid() && CurrentScreen() == Storefront && isCartOpen && cart.items != []
      modifies this
      ensures Valid()
      ensures State() == old(State()).(isCartOpen := false, checkoutDialogOpen := true)
    {
      isCartOpen := false;
      checkoutDialogOpen := true;
    }

    // -------------------------------------------------------------------------
    // Checkout, payment, order

    /** What the checkout dialog receives: the live lines and totals of the cart. */
    function CartProps(): (p: CheckoutProps)
      reads this, cart
      ensures p.items == cart.items && p.subtotal == cart.Subtotal() && p.deliveryFee == cart.DeliveryFee()
      ensures p.tax == cart.Tax() && p.total == cart.Total()
    {
      CheckoutProps(cart.items, cart.Subtotal(), cart.DeliveryFee(), cart.Tax(), cart.Total())
    }

    method CloseCheckout()
      requires Valid() && CurrentScreen() == Storefront
      modifies this
      ensures Valid()
      ensures State() == old(State()).(checkoutDialogOpen := false)
    {
      checkoutDialogOpen := false;
    }

    /** The snapshot is kept and checkout closes; card opens payment, cash the order dialog. */
    method HandleProceedToPayment(data: CheckoutData)
      requires Valid() && CurrentScreen() == Storefront && checkoutDialogOpen
      modifies this
      ensures Valid()
      ensures State() == if data.paymentMethod == Card
        then old(State()).(checkoutData := Some(data), checkoutDialogOpen := false, paymentDialogOpen := true)
        else old(State()).(checkoutData := Some(data), checkoutDialogOpen := false, orderDialogOpen := true)
    {
      checkoutData := Some(data);
      checkoutDialogOpen := false;
      if data.paymentMethod == Card {
        paymentDialogOpen := true;
      } else {
        orderDialogOpen := true;
      }
    }

    /** "Proceed" in the checkout dialog: the dialog's snapshot of the live cart is handed to the page. */
    method ProceedFromCheckout()
      requires Valid() && CurrentScreen() == Storefront && checkoutDialogOpen
      modifies this
      ensures Valid()
      ensures var data := Snapshot(checkout.deliveryType, checkout.paymentMethod, checkout.deliveryInfo, CartProps());
        State() == if data.paymentMethod == Card
          then old(State()).(checkoutData := Some(data), checkoutDialogOpen := false, paymentDialogOpen := true)
          else old(State()).(checkoutData := Some(data), checkoutDialogOpen := false, orderDialogOpen := true)
    {
      var data := checkout.HandleProceed(CartProps());
      HandleProceedToPayment(data);
    }

    method ClosePayment()
      requires Valid() && CurrentScreen() == Storefront
      modifies this
      ensures Valid()
      ensures State() == old(State()).(paymentDialogOpen := false)
    {
      paymentDialogOpen := false;
    }

    /** "Pay" exists while the payment dialog shows a snapshot and no payment is processing. */
    method Pay()
      requires Valid() && CurrentScreen() == Storefront && paymentDialogOpen && checkoutData.Some?
      requires !paymentForm.isProcessing
      modifies paymentForm
      ensures Valid() && paymentForm.isProcessing
      ensures paymentForm.cardNumber == old(paymentForm.cardNumber) && paymentForm.cvv == old(paymentForm.cvv)
      ensures paymentForm.expiryMonth == old(paymentForm.expiryMonth) && paymentForm.expiryYear == old(paymentForm.expiryYear)
      ensures paymentForm.cardholderName == old(paymentForm.cardholderName)
      ensures paymentForm.billingAddress == old(paymentForm.billingAddress)
      ensures State() == old(State())
    {
      paymentForm.HandlePayment();
    }

    /** Completion swaps payment for the order dialog; the snapshot stays. */
    method HandlePaymentComplete()
      requires Valid()
      modifies this
      ensures Valid()
      ensures State() == old(State()).(paymentDialogOpen := false, orderDialogOpen := true)
    {
      paymentDialogOpen := false;
      orderDialogOpen := true;
    }

    /** The payment delay ends: the form unlocks, then it reports the payment complete to the page. */
    method PaymentDelayEnds()
      requires Valid() && paymentForm.isProcessing
      modifies this, paymentForm
      ensures Valid() && !paymentForm.isProcessing
      ensures paymentForm.cardNumber == old(paymentForm.cardNumber) && paymentForm.cvv == old(paymentForm.cvv)
      ensures paymentForm.expiryMonth == old(paymentForm.expiryMonth) && paymentForm.expiryYear == old(paymentForm.expiryYear)
      ensures paymentForm.cardholderName == old(paymentForm.cardholderName)
      ensures paymentForm.billingAddress == old(paymentForm.billingAddress)
      ensures CurrentScreen() == old(CurrentScreen())
      ensures State() == old(State()).(paymentDialogOpen := false, orderDialogOpen := true)
    {
      paymentForm.ProcessingDone();
      HandlePaymentComplete();
    }

    function OrderDialogTotal(): real
      reads this, cart
    {
      ShownTotal(checkoutData, cart.Total())
    }

    method CloseOrderDialog()
      requires Valid() && CurrentScreen() == Storefront
      modifies this
      ensures Valid()
      ensures State() == old(State()).(orderDialogOpen := false)
    {
      orderDialogOpen := false;
    }

    /** "Place Order" shows in the open order dialog while it is still ordering. */
    method PlaceOrder()
      requires Valid() && CurrentScreen() == Storefront && orderDialogOpen && orderDialog.orderStatus == Ordering
      modifies orderDialog
      ensures Valid()
      ensures orderDialog.orderStatus == Confirmed && orderDialog.timer == ConfirmDelay
      ensures State() == old(State())
    {
      orderDialog.PlaceOrder();
    }

    method OrderConfirmDelayEnds()
      requires Valid() && orderDialog.timer == ConfirmDelay
      modifies orderDialog
      ensures Valid()
      ensures orderDialog.orderStatus == Preparing && orderDialog.timer == ProgressInterval && orderDialog.progress == 0
      ensures State() == old(State())
    {
      orderDialog.ConfirmDelayEnds();
    }

    method OrderTick()
      requires Valid() && orderDialog.timer == ProgressInterval
      modifies orderDialog
      ensures Valid()
      ensures orderDialog.progress == old(orderDialog.progress) + PROGRESS_STEP
      ensures orderDialog.timer == (if orderDialog.progress >= PROGRESS_DONE then CompleteDelay else ProgressInterval)
      ensures State() == old(State())
    {
      orderDialog.Tick();
    }

    /** Order completion empties the cart, closes the order dialog and drops the snapshot. */
    method HandleOrderComplete()
      requires Valid()
      modifies this, cart
      ensures Valid() && CurrentScreen() == old(CurrentScreen())
      ensures cart.items == [] && cart.Total() == 2.99
      ensures State() == old(State()).(orderDialogOpen := false, checkoutData := None)
    {
      cart.ClearCart();
      orderDialogOpen := false;
      checkoutData := None;
    }

    /** The order dialog's last delay ends: it reports the order complete to the page, then resets itself. */
    method OrderCompleteDelayEnds()
      requires Valid() && orderDialog.timer == CompleteDelay
      modifies this, cart, orderDialog
      ensures Valid() && CurrentScreen() == old(CurrentScreen())
      ensures cart.items == []
      ensures State() == old(State()).(orderDialogOpen := false, checkoutData := None)
      ensures orderDialog.orderStatus == Ordering && orderDialog.progress == 0 && orderDialog.timer == Idle
    {
      HandleOrderComplete();
      orderDialog.CompleteDelayEnds();
    }

    // -------------------------------------------------------------------------
    // Profile

    method OpenProfile()
      requires Valid() && CurrentScreen() == Storefront
      modifies this
      ensures Valid()
      ensures State() == old(State()).(isProfileOpen := true)
    {
      isProfileOpen := true;
    }

    method CloseProfile()
      requires Valid() && CurrentScreen() == Storefront
      modifies this
      ensures Valid()
      ensures State() == old(State()).(isProfileOpen := false)
    {
      isProfileOpen := false;
    }

    /** The profile's "Logout": the session ends, the dialog closes, and the landing screen shows. */
    method ProfileLogout()
      requires Valid() && CurrentScreen() == Storefront && isProfileOpen
      modifies this, auth
      ensures Valid() && CurrentScreen() == Landing
      ensures auth.user == None && auth.storage == old(auth.storage) - {STORAGE_KEY}
      ensures State() == old(State()).(isProfileOpen := false)
    {
      auth.Logout();
      isProfileOpen := false;
    }
  }

  /** From a saved session to the checkout dialog, with one unit of `item` in the cart. */
  method ShoppingScenario(saved: Storage, item: FoodItem) returns (app: App)
    requires STORAGE_KEY in saved
    ensures fresh(app) && fresh(app.auth) && fresh(app.cart) && fresh(app.checkout)
    ensures fresh(app.paymentForm) && fresh(app.orderDialog)
    ensures app.Valid() && app.CurrentScreen() == Storefront && app.checkoutDialogOpen
    ensures app.cart.items == [CartItem(item, 1)] && app.cart.Subtotal() == item.price
    ensures app.checkout.deliveryType == Delivery
    ensures !app.paymentForm.isProcessing && app.orderDialog.orderStatus == Ordering
  {
    app := new App(saved);
    app.Startup();
    app.AddToCart(item);
    FirstAddSubtotal(item);
    app.OpenCart();
    app.CartCheckout();
  }

  /**
   * On to the open order dialog with the given payment method (card goes
   * through the payment dialog and its delay first); the order dialog shows the
   * snapshot's total.
   */
  method CheckoutScenario(saved: Storage, item: FoodItem, payment: PaymentMethod) returns (app: App)
    requires STORAGE_KEY in saved
    requires item.price > 0.0
    ensures fresh(app) && fresh(app.auth) && fresh(app.cart) && fresh(app.orderDialog)
    ensures app.Valid() && app.CurrentScreen() == Storefront
    ensures app.orderDialogOpen && app.orderDialog.orderStatus == Ordering
    ensures app.OrderDialogTotal() == (item.price + CalculateDeliveryFee(item.price)) * 1.08
  {
    app := ShoppingScenario(saved, item);
    app.checkout.SetPaymentMethod(payment);
    app.ProceedFromCheckout();
    SnapshotTotalIsShown(Delivery, payment, app.checkout.deliveryInfo, app.CartProps(), app.cart.Total());
    if payment == Card {
      app.Pay();
      app.PaymentDelayEnds();
    }
  }

  /**
   * "Place Order" and the order dialog's timers, run to the end: the interval
   * ticks ten times and stops at 100, the cart is empty, the snapshot is
   * dropped and the dialog is back to "ordering".
   */
  method RunOrderDialog(app: App) returns (ticks: nat)
    requires app.Valid() && app.CurrentScreen() == Storefront
    requires app.orderDialogOpen && app.orderDialog.orderStatus == Ordering
    modifies app, app.cart, app.orderDialog
    ensures ticks == 10
    ensures app.Valid()
    ensures app.cart.items == [] && app.checkoutData == None && !app.orderDialogOpen
    ensures app.orderDialog.orderStatus == Ordering && app.orderDialog.progress == 0
  {
    app.PlaceOrder();
    app.OrderConfirmDelayEnds();
    ticks := 0;
    while app.orderDialog.timer == ProgressInterval
      invariant app.Valid()
      invariant app.orderDialog.timer == ProgressInterval || app.orderDialog.timer == CompleteDelay
      invariant app.orderDialog.progress == PROGRESS_STEP * ticks
      decreases PROGRESS_DONE - app.orderDialog.progress
    {
      app.OrderTick();
      ticks := ticks + 1;
    }
    assert app.orderDialog.progress == PROGRESS_DONE;
    app.OrderCompleteDelayEnds();
  }

  /** A whole order: the order dialog opens on the snapshot's total, and completion empties the cart and drops the snapshot. */
  method OrderScenario(saved: Storage, item: FoodItem, payment: PaymentMethod)
    returns (orderOpen: bool, shown: real, itemsAfter: seq<CartItem>, snapshotAfter: Option<CheckoutData>)
    requires STORAGE_KEY in saved
    requires item.price > 0.0
    ensures orderOpen
    ensures shown == (item.price + CalculateDeliveryFee(item.price)) * 1.08
    ensures itemsAfter == [] && snapshotAfter == None
  {
    var app := CheckoutScenario(saved, item, payment);
    orderOpen := app.orderDialogOpen;
    shown := app.OrderDialogTotal();
    var ticks := RunOrderDialog(app);
    itemsAfter := app.cart.items;
    snapshotAfter := app.checkoutData;
  }
}
