/** The customer's order list: which orders may be cancelled, the two modals
    a cancel click opens, the reason that a cancellation must carry, the
    status styling, and the page buttons. */
module OrdersPage {
  import opened Common
  import opened Catalog

  const Pending: string := "pending"
  const Confirmed: string := "confirmed"
  const Preparing: string := "preparing"
  const ReadyForDelivery: string := "ready_for_delivery"
  const Delivered: string := "delivered"
  const Cancelled: string := "cancelled"

  const OrdersPageSize: int := 10

  // ---------------------------------------------------------------------------
  // String.prototype.trim

  /** The string without its leading white space. */
  function TrimStart(s: string): (r: string)
    ensures |r| <= |s| && r == s[|s| - |r|..]
    ensures forall i :: 0 <= i < |s| - |r| ==> IsJsWhitespace(s[i])
    ensures r != [] ==> !IsJsWhitespace(r[0])
  {
    if s == [] then []
    else if IsJsWhitespace(s[0]) then TrimStart(s[1..])
    else s
  }

  /** The string without its trailing white space. */
  function TrimEnd(s: string): (r: string)
    ensures |r| <= |s| && r == s[..|r|]
    ensures forall i :: |r| <= i < |s| ==> IsJsWhitespace(s[i])
    ensures r != [] ==> !IsJsWhitespace(r[|r| - 1])
  {
    if s == [] then []
    else if IsJsWhitespace(s[|s| - 1]) then TrimEnd(s[..|s| - 1])
    else s
  }

  function Trim(s: string): string {
    TrimEnd(TrimStart(s))
  }

  /** `!s.trim()` */
  predicate IsBlank(s: string) {
    Trim(s) == ""
  }

  /** A string trims to nothing exactly when every character is white space;
      a non-blank string keeps its first and last visible characters. */
  lemma BlankIffAllWhitespace(s: string)
    ensures IsBlank(s) <==> forall i :: 0 <= i < |s| ==> IsJsWhitespace(s[i])
    ensures !IsBlank(s) ==> !IsJsWhitespace(Trim(s)[0]) && !IsJsWhitespace(Trim(s)[|Trim(s)| - 1])
  {
    var t := TrimStart(s);
    if t != [] {
      assert !IsJsWhitespace(t[0]);
      assert !IsJsWhitespace(s[|s| - |t|]);
    }
  }

  // ---------------------------------------------------------------------------
  // Cancellation rule and status styling

  /** canCancelOrder: the status is pending or confirmed, and not preparing
      or ready for delivery. */
  predicate CanCancelOrder(status: string) {
    status in [Pending, Confirmed] && !(status in [Preparing, ReadyForDelivery])
  }

  /** Only pending and confirmed orders can be cancelled; the exclusion of
      preparing and ready-for-delivery adds nothing. */
  lemma CancelRule(status: string)
    ensures CanCancelOrder(status) <==> status == Pending || status == Confirmed
    ensures CanCancelOrder(status) <==> status in [Pending, Confirmed]
  {
  }

  /** The word the cannot-cancel modal uses for an order's state. */
  function CannotCancelWording(status: string): (w: string)
    ensures status == Preparing ==> w == "prepared"
    ensures status == ReadyForDelivery ==> w == "dispatched"
    ensures status != Preparing && status != ReadyForDelivery ==> w == "processed"
  {
    if status == Preparing then "prepared"
    else if status == ReadyForDelivery then "dispatched"
    else "processed"
  }

  datatype Icon = ClockIcon | CheckCircleIcon | TruckIcon | XCircleIcon

  datatype StatusInfo = StatusInfo(icon: Icon, color: string, bgColor: string)

  const UnknownStatusInfo: StatusInfo := StatusInfo(ClockIcon, "bg-gray-100 text-gray-800", "bg-gray-50")

  const KnownStatuses: seq<string> := [Pending, Confirmed, Preparing, ReadyForDelivery, Delivered, Cancelled]

  /** getStatusInfo: a style per known status and a grey default. */
  function GetStatusInfo(status: string): StatusInfo {
    if status == Pending then StatusInfo(ClockIcon, "bg-yellow-100 text-yellow-800", "bg-yellow-50")
    else if status == Confirmed then StatusInfo(CheckCircleIcon, "bg-blue-100 text-blue-800", "bg-blue-50")
    else if status == Preparing then StatusInfo(TruckIcon, "bg-purple-100 text-purple-800", "bg-purple-50")
    else if status == ReadyForDelivery then StatusInfo(TruckIcon, "bg-orange-100 text-orange-800", "bg-orange-50")
    else if status == Delivered then StatusInfo(CheckCircleIcon, "bg-green-100 text-green-800", "bg-green-50")
    else if status == Cancelled then StatusInfo(XCircleIcon, "bg-red-100 text-red-800", "bg-red-50")
    else UnknownStatusInfo
  }

  /** Every status gets a style; the grey default is used exactly for the
      statuses outside the six known ones, and the known ones are told apart
      by their colour. */
  lemma StatusInfoTotal(status: string, other: string)
    ensures GetStatusInfo(status) == UnknownStatusInfo <==> status !in KnownStatuses
    ensures status in KnownStatuses && other in KnownStatuses && status != other
      ==> GetStatusInfo(status).color != GetStatusInfo(other).color
  {
    StatusInfoDefault(status);
    if status in KnownStatuses && other in KnownStatuses && status != other {
      StatusColoursDistinct(status, other);
    }
  }

  lemma StatusInfoDefault(status: string)
    ensures GetStatusInfo(status) == UnknownStatusInfo <==> status !in KnownStatuses
  {
  }

  lemma StatusColoursDistinct(status: string, other: string)
    requires status in KnownStatuses && other in KnownStatuses && status != other
    ensures GetStatusInfo(status).color != GetStatusInfo(other).color
  {
  }

  // ---------------------------------------------------------------------------
  // Page controls

  /** The page redirects to login once the session is known to be absent. */
  predicate RedirectsToLogin(authLoading: bool, isAuthenticated: bool) {
    !authLoading && !isAuthenticated
  }

  /** Orders are fetched once the session is known to be present. */
  predicate FetchesOrders(authLoading: bool, isAuthenticated: bool) {
    isAuthenticated && !authLoading
  }

  /** While the session is loading the page neither redirects nor fetches;
      afterwards it does exactly one of the two. */
  lemma RedirectOrFetch(authLoading: bool, isAuthenticated: bool)
    ensures !(RedirectsToLogin(authLoading, isAuthenticated) && FetchesOrders(authLoading, isAuthenticated))
    ensures !authLoading ==> RedirectsToLogin(authLoading, isAuthenticated) || FetchesOrders(authLoading, isAuthenticated)
    ensures authLoading ==> !RedirectsToLogin(authLoading, isAuthenticated) && !FetchesOrders(authLoading, isAuthenticated)
  {
  }

  predicate PreviousPageDisabled(currentPage: int) {
    currentPage == 1
  }

  predicate NextPageDisabled(currentPage: int, totalPages: int) {
    currentPage == totalPages
  }

  /** The page bar is rendered only for more than one page. */
  predicate PagingShown(totalPages: int) {
    totalPages > 1
  }

  /** When the page bar is shown on a page in range, at least one of
      Previous and Next is enabled. */
  lemma PagingOffersAMove(currentPage: int, totalPages: int)
    requires 1 <= currentPage <= totalPages
    ensures PagingShown(totalPages) <==> !PreviousPageDisabled(currentPage) || !NextPageDisabled(currentPage, totalPages)
  {
  }

  /** On a page in range, an enabled Previous or Next button asks for a page
      that is in range too. */
  lemma PageButtonsStayInRange(currentPage: int, totalPages: int)
    requires 1 <= currentPage <= totalPages
    ensures !PreviousPageDisabled(currentPage) ==> 1 <= currentPage - 1 <= totalPages
    ensures !NextPageDisabled(currentPage, totalPages) ==> 1 <= currentPage + 1 <= totalPages
  {
  }

  /** The confirm button of the cancel modal. */
  predicate ConfirmCancelDisabled(cancelReason: string, cancelling: bool) {
    IsBlank(cancelReason) || cancelling
  }

  /** What handleCancelOrder sends: the order's id and the reason as typed. */
  datatype CancelRequest = CancelRequest(orderId: string, reason: string)

  class OrdersPageState {
    var orders: seq<Order>
    var currentPage: int
    var totalPages: int
    var totalOrders: int
    var showCancelModal: bool
    var showCannotCancelModal: bool
    var orderToCancel: Option<Order>
    var cancelReason: string
    var cancelling: bool

    constructor()
      ensures orders == [] && currentPage == 1 && totalPages == 1 && totalOrders == 0
      ensures !showCancelModal && !showCannotCancelModal && orderToCancel.None?
      ensures cancelReason == "" && !cancelling
    {
      orders := [];
      currentPage := 1;
      totalPages := 1;
      totalOrders := 0;
      showCancelModal := false;
      showCannotCancelModal := false;
      orderToCancel := None;
      cancelReason := "";
      cancelling := false;
    }

    /** The cancel modal is rendered only with an order selected. */
    predicate CancelModalVisible()
      reads this
    {
      showCancelModal && orderToCancel.Some?
    }

    predicate CannotCancelModalVisible()
      reads this
    {
      showCannotCancelModal && orderToCancel.Some?
    }

    /** A successful fetch of one page of the user's orders; a reply without
        `success` changes nothing. */
    method ApplyOrdersResponse(reply: Reply<(seq<Order>, int, int, int)>)
      modifies this
      ensures reply.Reply? && reply.success ==>
        orders == reply.data.0 && currentPage == reply.data.1
        && totalPages == reply.data.2 && totalOrders == reply.data.3
      ensures !(reply.Reply? && reply.success) ==>
        orders == old(orders) && currentPage == old(currentPage)
        && totalPages == old(totalPages) && totalOrders == old(totalOrders)
      ensures showCancelModal == old(showCancelModal) && showCannotCancelModal == old(showCannotCancelModal)
      ensures orderToCancel == old(orderToCancel) && cancelReason == old(cancelReason)
      ensures cancelling == old(cancelling)
    {
      if reply.Reply? && reply.success {
        orders := reply.data.0;
        currentPage := reply.data.1;
        totalPages := reply.data.2;
        totalOrders := reply.data.3;
      }
    }

    /** handleCancelClick: the order is remembered, and the cancel modal opens
        for a cancellable order, the cannot-cancel modal otherwise. */
    method HandleCancelClick(order: Order)
      modifies this
      ensures orderToCancel == Some(order)
      ensures showCancelModal == (old(showCancelModal) || CanCancelOrder(order.orderStatus))
      ensures showCannotCancelModal == (old(showCannotCancelModal) || !CanCancelOrder(order.orderStatus))
      ensures orders == old(orders) && currentPage == old(currentPage) && totalPages == old(totalPages)
      ensures totalOrders == old(totalOrders) && cancelReason == old(cancelReason) && cancelling == old(cancelling)
    {
      orderToCancel := Some(order);
      if CanCancelOrder(order.orderStatus) {
        showCancelModal := true;
      } else {
        showCannotCancelModal := true;
      }
    }

    /** The reason text area. */
    method SetCancelReason(text: string)
      modifies this
      ensures cancelReason == text
      ensures showCancelModal == old(showCancelModal) && showCannotCancelModal == old(showCannotCancelModal)
      ensures orderToCancel == old(orderToCancel) && cancelling == old(cancelling)
      ensures orders == old(orders) && currentPage == old(currentPage) && totalPages == old(totalPages)
      ensures totalOrders == old(totalOrders)
    {
      cancelReason := text;
    }

    /** handleCancelOrder up to its `await`: without a selected order or with
        a blank reason nothing happens; otherwise `cancelling` goes up and the
        cancellation is sent with the reason untrimmed. */
    method BeginCancelOrder() returns (request: Option<CancelRequest>)
      modifies this
      ensures request.Some? <==> old(orderToCancel).Some? && !IsBlank(old(cancelReason))
      ensures request.Some? ==>
        request.value == CancelRequest(old(orderToCancel).value.id, old(cancelReason)) && cancelling
      ensures request.None? ==> cancelling == old(cancelling)
      ensures showCancelModal == old(showCancelModal) && showCannotCancelModal == old(showCannotCancelModal)
      ensures orderToCancel == old(orderToCancel) && cancelReason == old(cancelReason)
      ensures orders == old(orders) && currentPage == old(currentPage) && totalPages == old(totalPages)
      ensures totalOrders == old(totalOrders)
    {
      if orderToCancel.None? || IsBlank(cancelReason) {
        return None;
      }
      cancelling := true;
      request := Some(CancelRequest(orderToCancel.value.id, cancelReason));
    }

    /** A click on the cancel modal's confirm button: the handler runs only
        when the button is enabled, and then it always sends the request, so
        a request goes out exactly when the button is enabled; while one is
        in flight the button is disabled. */
    method ClickConfirmCancel() returns (request: Option<CancelRequest>)
      requires CancelModalVisible()
      modifies this
      ensures request.Some? <==> !ConfirmCancelDisabled(old(cancelReason), old(cancelling))
      ensures request.Some? ==>
        request.value == CancelRequest(old(orderToCancel).value.id, old(cancelReason)) && cancelling
      ensures request.None? ==> cancelling == old(cancelling)
      ensures showCancelModal == old(showCancelModal) && showCannotCancelModal == old(showCannotCancelModal)
      ensures orderToCancel == old(orderToCancel) && cancelReason == old(cancelReason)
      ensures orders == old(orders) && currentPage == old(currentPage) && totalPages == old(totalPages)
      ensures totalOrders == old(totalOrders)
    {
      if ConfirmCancelDisabled(cancelReason, cancelling) {
        request := None;
      } else {
        request := BeginCancelOrder();
      }
    }

    /** The reply to a cancellation: on success the modal closes, the
        selection and the reason are cleared and the current page is fetched
        again (returned here); `cancelling` always ends false. */
    method FinishCancelOrder(reply: Reply<()>) returns (refetch: Option<int>)
      modifies this
      ensures !cancelling
      ensures reply.Reply? && reply.success ==>
        !showCancelModal && orderToCancel.None? && cancelReason == "" && refetch == Some(currentPage)
      ensures !(reply.Reply? && reply.success) ==>
        showCancelModal == old(showCancelModal) && orderToCancel == old(orderToCancel)
        && cancelReason == old(cancelReason) && refetch.None?
      ensures showCannotCancelModal == old(showCannotCancelModal)
      ensures orders == old(orders) && currentPage == old(currentPage) && totalPages == old(totalPages)
      ensures totalOrders == old(totalOrders)
    {
      refetch := None;
      if reply.Reply? && reply.success {
        showCancelModal := false;
        orderToCancel := None;
        cancelReason := "";
        refetch := Some(currentPage);
      }
      cancelling := false;
    }

    /** The close and "Keep Order" buttons of the cancel modal. */
    method DismissCancelModal()
      modifies this
      ensures !showCancelModal && orderToCancel.None? && cancelReason == ""
      ensures showCannotCancelModal == old(showCannotCancelModal) && cancelling == old(cancelling)
      ensures orders == old(orders) && currentPage == old(currentPage) && totalPages == old(totalPages)
      ensures totalOrders == old(totalOrders)
    {
      showCancelModal := false;
      orderToCancel := None;
      cancelReason := "";
    }

    /** The "I Understand" button; the reason is left as it was. */
    method DismissCannotCancelModal()
      modifies this
      ensures !showCannotCancelModal && orderToCancel.None?
      ensures showCancelModal == old(showCancelModal) && cancelReason == old(cancelReason)
      ensures cancelling == old(cancelling)
      ensures orders == old(orders) && currentPage == old(currentPage) && totalPages == old(totalPages)
      ensures totalOrders == old(totalOrders)
    {
      showCannotCancelModal := false;
      orderToCancel := None;
    }
  }

  /** From a closed page, a click on an order opens exactly one modal, and
      the one that matches the order's status. */
  method CancelClickOpensOneModal(order: Order) returns (cancelShown: bool, cannotShown: bool)
    ensures cancelShown != cannotShown
    ensures cancelShown <==> order.orderStatus == Pending || order.orderStatus == Confirmed
  {
    var page := new OrdersPageState();
    page.HandleCancelClick(order);
    CancelRule(order.orderStatus);
    cancelShown := page.CancelModalVisible();
    cannotShown := page.CannotCancelModalVisible();
  }
}
