/** The checkout page: a four-step flow (1 delivery address, 2 payment method,
    3 review, 4 order complete) whose `step`, `loading` and `formData` are page
    state. At step 3 the Next button places the order; the order-creation call
    is split into the moment it is sent (`PlaceOrder`) and the moment its reply
    arrives (`FinishPlaceOrder`), so that the in-flight window is visible. */
module Checkout {
  import opened Common
  import opened CartContext

  const CashOnDelivery: string := "cash_on_delivery"

  datatype Address = Address(street: string, city: string, area: string)
  datatype AddressField = Street | City | Area
  datatype InputField = PaymentMethod | SpecialInstructions

  /** The file picked for the prescription upload. */
  datatype Attachment = Attachment(name: string, size: nat)

  datatype FormData = FormData(
    deliveryAddress: Address,
    paymentMethod: string,
    specialInstructions: string,
    prescription: Option<Attachment>)

  /** One entry of the order payload's `items`. */
  datatype OrderItem = OrderItem(product: string, name: string, price: int, quantity: int)

  /** The multipart body sent to order creation: the JSON `data` part and the
      optional `prescription` file part. */
  datatype OrderRequest = OrderRequest(
    items: seq<OrderItem>,
    deliveryAddress: Address,
    paymentMethod: string,
    specialInstructions: string,
    prescription: Option<Attachment>)

  datatype NavClick = PreviousClick | NextClick

  /** What the page renders. */
  datatype View =
    | EmptyCartView
    | StepView(step: int, navigation: bool, previousDisabled: bool, nextDisabled: bool, nextLabel: string)

  /** The initial form: the user's saved address or blank fields, cash on
      delivery, no instructions, no file. */
  function InitialForm(userAddress: Option<Address>): FormData {
    FormData(if userAddress.Some? then userAddress.value else Address("", "", ""),
             CashOnDelivery, "", None)
  }

  /** Only cash on delivery can be chosen; the online option is disabled. */
  predicate PaymentOptionEnabled(option: string) {
    option == CashOnDelivery
  }

  /** The form starts on the one enabled payment option, and an order placed
      with an enabled option is always sent as cash on delivery. */
  lemma PaymentIsCashOnDelivery(userAddress: Option<Address>, cart: seq<LineItem>, form: FormData)
    ensures PaymentOptionEnabled(InitialForm(userAddress).paymentMethod)
    ensures PaymentOptionEnabled(form.paymentMethod) && cart != [] ==>
      Submission(cart, form).Some? && Submission(cart, form).value.paymentMethod == CashOnDelivery
  {
  }

  /** `cart.map(item => ({ product, name, price, quantity }))` */
  function OrderItems(cart: seq<LineItem>): (items: seq<OrderItem>)
    ensures |items| == |cart|
    ensures forall i :: 0 <= i < |cart| ==>
      items[i] == OrderItem(cart[i].product, cart[i].name, cart[i].price, cart[i].quantity)
  {
    if cart == [] then []
    else
      assert forall i :: 1 <= i < |cart| ==> cart[i] == cart[1..][i - 1];
      [OrderItem(cart[0].product, cart[0].name, cart[0].price, cart[0].quantity)] + OrderItems(cart[1..])
  }

  /** What handlePlaceOrder sends for this cart and form; nothing for an empty
      cart, which is refused before any call. */
  function Submission(cart: seq<LineItem>, form: FormData): (r: Option<OrderRequest>)
    ensures r.None? <==> cart == []
  {
    if cart == [] then None
    else Some(OrderRequest(OrderItems(cart), form.deliveryAddress, form.paymentMethod,
                           form.specialInstructions, form.prescription))
  }

  /** The step after a click on Previous or Next. The buttons exist only below
      step 4, Previous is disabled at step 1, Next is disabled while loading,
      and at step 3 Next places the order instead of moving. */
  function StepAfterClick(step: int, loading: bool, click: NavClick): int {
    if step >= 4 then step
    else match click
      case PreviousClick => if step == 1 then step else step - 1
      case NextClick => if loading || step == 3 then step else step + 1
  }

  /** A click that calls handlePlaceOrder. */
  predicate SubmitsOrder(step: int, loading: bool, click: NavClick) {
    step == 3 && !loading && click == NextClick
  }

  /** The step after a run of clicks while no order is in flight. */
  function StepAfterClicks(step: int, clicks: seq<NavClick>): int
    decreases |clicks|
  {
    if clicks == [] then step else StepAfterClicks(StepAfterClick(step, false, clicks[0]), clicks[1..])
  }

  /** The manual moves are 1 <-> 2 <-> 3, one step at a time: clicks alone
      never leave steps 1..3; the step becomes 4 only through the reply to a
      successful order (`FinishPlaceOrder`), which also empties the cart. */
  lemma {:induction false} ClicksStayBeforeCompletion(step: int, clicks: seq<NavClick>)
    requires 1 <= step <= 3
    ensures 1 <= StepAfterClicks(step, clicks) <= 3
    decreases |clicks|
  {
    if clicks != [] {
      ClicksStayBeforeCompletion(StepAfterClick(step, false, clicks[0]), clicks[1..]);
    }
  }

  /** Each click moves at most one step, and step 4 is terminal. */
  lemma ClickMovesOneStep(step: int, loading: bool, click: NavClick)
    ensures step - 1 <= StepAfterClick(step, loading, click) <= step + 1
    ensures step >= 4 ==> StepAfterClick(step, loading, click) == step
    ensures step == 3 ==> StepAfterClick(step, loading, NextClick) == 3
  {
  }

  /** The page: the empty-cart screen whenever the cart is empty, otherwise
      the current step with its navigation bar below step 4. */
  function CheckoutView(cart: seq<LineItem>, step: int, loading: bool): (v: View)
    ensures v.EmptyCartView? <==> cart == []
    ensures v.StepView? ==> (v.navigation <==> step < 4) && (v.nextDisabled <==> loading)
  {
    if cart == [] then EmptyCartView
    else StepView(step, step < 4, step == 1, loading,
                  if loading then "Placing Order..." else if step == 3 then "Place Order" else "Next")
  }

  class CheckoutPage {
    var step: int
    var loading: bool
    var formData: FormData

    ghost predicate Valid()
      reads this
    {
      1 <= step <= 4
    }

    constructor(userAddress: Option<Address>)
      ensures Valid() && step == 1 && !loading && formData == InitialForm(userAddress)
    {
      step := 1;
      loading := false;
      formData := InitialForm(userAddress);
    }

    method HandleInputChange(field: InputField, value: string)
      modifies this
      ensures step == old(step) && loading == old(loading)
      ensures formData == match field
        case PaymentMethod => old(formData).(paymentMethod := value)
        case SpecialInstructions => old(formData).(specialInstructions := value)
    {
      match field
      case PaymentMethod => formData := formData.(paymentMethod := value);
      case SpecialInstructions => formData := formData.(specialInstructions := value);
    }

    method HandleAddressChange(field: AddressField, value: string)
      modifies this
      ensures step == old(step) && loading == old(loading)
      ensures formData == old(formData).(deliveryAddress := match field
        case Street => old(formData).deliveryAddress.(street := value)
        case City => old(formData).deliveryAddress.(city := value)
        case Area => old(formData).deliveryAddress.(area := value))
    {
      var a := formData.deliveryAddress;
      match field {
        case Street => a := a.(street := value);
        case City => a := a.(city := value);
        case Area => a := a.(area := value);
      }
      formData := formData.(deliveryAddress := a);
    }

    /** A picked file replaces the prescription; an empty pick changes nothing. */
    method HandleFileChange(file: Option<Attachment>)
      modifies this
      ensures step == old(step) && loading == old(loading)
      ensures formData == if file.Some? then old(formData).(prescription := file) else old(formData)
    {
      if file.Some? {
        formData := formData.(prescription := file);
      }
    }

    /** Previous. The buttons exist only on a non-empty cart: the empty-cart
        screen has none. */
    method ClickPrevious(cart: CartStore)
      requires Valid() && cart.items != []
      modifies this
      ensures Valid()
      ensures step == StepAfterClick(old(step), old(loading), PreviousClick)
      ensures loading == old(loading) && formData == old(formData)
    {
      if step < 4 && step != 1 {
        step := step - 1;
      }
    }

    /** Next: moves forward at steps 1 and 2, places the order at step 3, and
        does nothing while an order is in flight or at step 4. */
    method ClickNext(cart: CartStore) returns (request: Option<OrderRequest>)
      requires Valid() && cart.items != []
      modifies this
      ensures Valid()
      ensures step == StepAfterClick(old(step), old(loading), NextClick)
      ensures formData == old(formData)
      ensures SubmitsOrder(old(step), old(loading), NextClick) ==>
        request == Submission(cart.items, formData) && loading == request.Some?
      ensures !SubmitsOrder(old(step), old(loading), NextClick) ==>
        request.None? && loading == old(loading)
    {
      request := None;
      if step < 4 && !loading {
        if step == 3 {
          request := PlaceOrder(cart);
        } else {
          step := step + 1;
        }
      }
    }

    /** The synchronous part of handlePlaceOrder: `loading` goes up, an empty
        cart is refused (and `loading` drops again), otherwise the request is
        built from the current cart and sent. */
    method PlaceOrder(cart: CartStore) returns (request: Option<OrderRequest>)
      modifies this
      ensures step == old(step) && formData == old(formData)
      ensures request == Submission(cart.items, formData)
      ensures loading == request.Some?
    {
      loading := true;
      if cart.items == [] {
        loading := false;
        return None;
      }
      request := Some(OrderRequest(OrderItems(cart.items), formData.deliveryAddress,
                                   formData.paymentMethod, formData.specialInstructions,
                                   formData.prescription));
    }

    /** The reply of order creation: on success the cart is cleared and the
        `step` state becomes 4 (from whatever step the page is on by then);
        with the cart empty the page then renders the empty-cart screen, not
        the order-complete step (`SuccessShowsEmptyCart`). On a reply with
        `success` false or a thrown error nothing changes. In every case
        `loading` ends false. */
    method FinishPlaceOrder(cart: CartStore, reply: Reply<()>)
      requires Valid()
      modifies this, cart
      ensures Valid() && !loading && formData == old(formData)
      ensures reply.Reply? && reply.success ==> cart.items == [] && step == 4
      ensures !(reply.Reply? && reply.success) ==> cart.items == old(cart.items) && step == old(step)
    {
      if reply.Reply? && reply.success {
        cart.ClearCart();
        step := 4;
      }
      loading := false;
    }
  }

  /** A successful order empties the cart in the same update that sets step
      4, and the empty-cart screen is checked before any step is rendered, so
      the order-complete screen never appears: the page shows the empty-cart
      screen instead. */
  method SuccessShowsEmptyCart(page: CheckoutPage, cart: CartStore) returns (view: View)
    requires page.Valid()
    modifies page, cart
    ensures page.step == 4 && !page.loading
    ensures view == CheckoutView(cart.items, page.step, page.loading)
    ensures view == EmptyCartView
  {
    page.FinishPlaceOrder(cart, Reply(true, ()));
    view := CheckoutView(cart.items, page.step, page.loading);
  }

  /** Previous stays enabled while the order is in flight, so the reply can
      find the page on step 2 and still complete it. */
  method PreviousDuringSubmission(line: LineItem) returns (stepAtReply: int, finalStep: int, cartAfter: seq<LineItem>)
    ensures stepAtReply == 2 && finalStep == 4 && cartAfter == []
  {
    var cart := new CartStore();
    cart.items := [line];
    var page := new CheckoutPage(None);
    var r := page.ClickNext(cart);
    r := page.ClickNext(cart);
    assert page.step == 3;
    r := page.ClickNext(cart);
    assert r.Some? && r.value.items == [OrderItem(line.product, line.name, line.price, line.quantity)];
    assert page.loading;
    r := page.ClickNext(cart);
    assert r.None?;
    page.ClickPrevious(cart);
    stepAtReply := page.step;
    page.FinishPlaceOrder(cart, Reply(true, ()));
    finalStep := page.step;
    cartAfter := cart.items;
  }
}
