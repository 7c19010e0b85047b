/** The cart page: the checkout gate, the per-line plus/minus buttons and
    stock warning, the free-delivery hint, and the `updatingItems` set that
    marks lines whose quantity change is still being awaited. */
module CartPage {
  import opened Common
  import opened CartContext

  datatype Navigation = Stay | NavigateTo(path: string, from: Option<string>)

  /** handleCheckout: guests go to the login page (remembering the checkout),
      an invalid cart keeps the user here, otherwise on to checkout. */
  function HandleCheckout(isAuthenticated: bool, cart: seq<LineItem>): Navigation {
    if !isAuthenticated then NavigateTo("/login", Some("/checkout"))
    else if ValidationErrors(cart) != [] then Stay
    else NavigateTo("/checkout", None)
  }

  /** The checkout button is disabled while validateCart reports invalid. */
  predicate CheckoutDisabled(cart: seq<LineItem>) {
    ValidationErrors(cart) != []
  }

  lemma CheckoutGate(isAuthenticated: bool, cart: seq<LineItem>)
    ensures HandleCheckout(isAuthenticated, cart) == NavigateTo("/checkout", None)
      <==> isAuthenticated && cart != [] && InStock(cart)
    ensures !isAuthenticated ==> HandleCheckout(isAuthenticated, cart) == NavigateTo("/login", Some("/checkout"))
    ensures isAuthenticated && (cart == [] || !InStock(cart)) ==> HandleCheckout(isAuthenticated, cart) == Stay
    ensures CheckoutDisabled(cart) <==> cart == [] || !InStock(cart)
  {
    ValidIff(cart);
  }

  /** The quantity the minus button asks for. */
  function MinusTarget(item: LineItem): int {
    item.quantity - 1
  }

  /** The quantity the plus button asks for. */
  function PlusTarget(item: LineItem): int {
    item.quantity + 1
  }

  predicate MinusDisabled(item: LineItem, updatingItems: set<string>) {
    item.product in updatingItems
  }

  predicate PlusDisabled(item: LineItem, updatingItems: set<string>) {
    item.product in updatingItems || item.quantity >= item.stock
  }

  /** "Maximum available quantity reached" */
  predicate StockWarning(item: LineItem) {
    item.quantity >= item.stock
  }

  /** The warning explains a disabled plus button: it is shown exactly when
      plus is disabled for stock, so on a line with no update in flight plus
      is disabled exactly when the warning is shown. */
  lemma WarningExplainsPlus(item: LineItem, updatingItems: set<string>)
    ensures StockWarning(item) ==> PlusDisabled(item, updatingItems)
    ensures item.product !in updatingItems ==> (PlusDisabled(item, updatingItems) <==> StockWarning(item))
  {
  }

  /** "Add Rs. N more for free delivery", shown below the threshold. */
  function FreeDeliveryShortfall(subtotal: int): Option<int> {
    if subtotal < FreeDeliveryThreshold then Some(FreeDeliveryThreshold - subtotal) else None
  }

  /** Minus on a line at quantity 1 asks for 0, which removes the line. */
  lemma MinusAtOneRemovesLine(cart: seq<LineItem>, k: nat)
    requires UniqueKeys(cart) && k < |cart| && cart[k].quantity == 1
    ensures UpdateStep(cart, cart[k].product, MinusTarget(cart[k]))
      == Change(cart[..k] + cart[k + 1..], LineRemoved)
  {
    IndexOfUnique(cart, k);
    RemoveLinesAt(cart, k);
  }

  /** An enabled plus button is never refused for stock: the line goes up by
      one and nothing else changes. */
  lemma PlusEnabledIsAccepted(cart: seq<LineItem>, k: nat, updatingItems: set<string>)
    requires UniqueKeys(cart) && k < |cart| && 0 <= cart[k].quantity
    requires !PlusDisabled(cart[k], updatingItems)
    ensures UpdateStep(cart, cart[k].product, PlusTarget(cart[k]))
      == Change(cart[k := cart[k].(quantity := cart[k].quantity + 1)], QuantitySet)
  {
    IndexOfUnique(cart, k);
    UpdateStepCases(cart, cart[k].product, PlusTarget(cart[k]));
  }

  /** The hint appears exactly when delivery is charged, and the amount it
      names brings the subtotal to the threshold. */
  lemma ShortfallMatchesDelivery(cart: seq<LineItem>)
    ensures var hint := FreeDeliveryShortfall(Subtotal(cart));
      && (hint.Some? <==> CartTotals(cart).deliveryCharges == DeliveryFee)
      && (hint.Some? ==> hint.value > 0 && Subtotal(cart) + hint.value == FreeDeliveryThreshold)
  {
  }

  class CartPageState {
    var updatingItems: set<string>
    var showClearConfirm: bool

    constructor()
      ensures updatingItems == {} && !showClearConfirm
    {
      updatingItems := {};
      showClearConfirm := false;
    }

    /** handleQuantityChange up to its `await`: the line is marked as
        updating and the cart's updateQuantity runs. */
    method BeginQuantityChange(cart: CartStore, id: string, newQuantity: int) returns (outcome: UpdateOutcome)
      modifies this, cart
      ensures Change(cart.items, outcome) == UpdateStep(old(cart.items), id, newQuantity)
      ensures updatingItems == old(updatingItems) + {id}
      ensures showClearConfirm == old(showClearConfirm)
    {
      updatingItems := updatingItems + {id};
      outcome := cart.UpdateQuantity(id, newQuantity);
    }

    /** The `finally` of handleQuantityChange: the mark is dropped, other
        marks stay. */
    method EndQuantityChange(id: string)
      modifies this
      ensures updatingItems == old(updatingItems) - {id}
      ensures showClearConfirm == old(showClearConfirm)
    {
      updatingItems := updatingItems - {id};
    }

    method HandleRemoveItem(cart: CartStore, id: string)
      modifies cart
      ensures cart.items == RemoveLines(old(cart.items), id)
    {
      var _ := cart.RemoveFromCart(id);
    }

    method OpenClearConfirm()
      modifies this
      ensures showClearConfirm && updatingItems == old(updatingItems)
    {
      showClearConfirm := true;
    }

    /** The dialog's cancel and backdrop buttons. */
    method CloseClearConfirm()
      modifies this
      ensures !showClearConfirm && updatingItems == old(updatingItems)
    {
      showClearConfirm := false;
    }

    method HandleClearCart(cart: CartStore)
      modifies this, cart
      ensures cart.items == [] && !showClearConfirm && updatingItems == old(updatingItems)
    {
      cart.ClearCart();
      showClearConfirm := false;
    }
  }
}
