/** The administrator's dashboard: the access gate, the local updates of the
    product and order lists after each administrative call, the product and
    order modals, the status colours and the product form's starting values. */
module AdminDashboard {
  import opened Common
  import opened Catalog
  import OrdersPage

  // ---------------------------------------------------------------------------
  // Access gate

  datatype GateAction = WaitForAuth | GoToLogin | GoHome | ShowDashboard

  /** The access effect: nothing while the session loads, guests to the
      login page, signed-in non-administrators to the home page. */
  function AdminGate(authLoading: bool, isAuthenticated: bool, isAdmin: bool): GateAction {
    if authLoading then WaitForAuth
    else if !isAuthenticated then GoToLogin
    else if !isAdmin then GoHome
    else ShowDashboard
  }

  /** The render guard: the dashboard itself is drawn only for a loaded
      administrator session. */
  predicate RendersDashboard(authLoading: bool, isAuthenticated: bool, isAdmin: bool) {
    !(authLoading || !isAuthenticated || !isAdmin)
  }

  /** The render guard agrees with the redirect effect; with the flags of a
      real session, an administrator is never sent to the login page. */
  lemma GateMatchesRender(authLoading: bool, role: Option<string>)
    ensures var g := AdminGate(authLoading, IsAuthenticated(role), IsAdmin(role));
      && (RendersDashboard(authLoading, IsAuthenticated(role), IsAdmin(role)) <==> g == ShowDashboard)
      && (g == GoToLogin <==> !authLoading && role.None?)
      && (g == GoHome <==> !authLoading && role.Some? && role.value != "admin")
      && (g == ShowDashboard <==> !authLoading && role == Some("admin"))
  {
  }

  // ---------------------------------------------------------------------------
  // Local list updates

  /** `products.map(p => p._id === id ? replacement : p)` */
  function ReplaceById(products: seq<Product>, id: string, replacement: Product): seq<Product> {
    if products == [] then []
    else [if products[0].id == id then replacement else products[0]] + ReplaceById(products[1..], id, replacement)
  }

  /** `products.filter(p => p._id !== id)` */
  function RemoveById(products: seq<Product>, id: string): seq<Product> {
    if products == [] then []
    else (if products[0].id != id then [products[0]] else []) + RemoveById(products[1..], id)
  }

  /** `orders.map(o => o._id === id ? { ...o, orderStatus: status } : o)` */
  function SetOrderStatus(orders: seq<Order>, id: string, status: string): seq<Order> {
    if orders == [] then []
    else [if orders[0].id == id then orders[0].(orderStatus := status) else orders[0]]
         + SetOrderStatus(orders[1..], id, status)
  }

  /** An update replaces exactly the products carrying that id, in place;
      length and order stay. */
  lemma {:induction false} ReplaceByIdAt(products: seq<Product>, id: string, replacement: Product)
    ensures |ReplaceById(products, id, replacement)| == |products|
    ensures forall i :: 0 <= i < |products| ==>
      ReplaceById(products, id, replacement)[i] == if products[i].id == id then replacement else products[i]
  {
    if products != [] {
      ReplaceByIdAt(products[1..], id, replacement);
    }
  }

  /** A delete keeps exactly the products with another id ... */
  lemma {:induction false} RemoveByIdMembers(products: seq<Product>, id: string)
    ensures forall p :: p in RemoveById(products, id) <==> p in products && p.id != id
  {
    if products != [] {
      RemoveByIdMembers(products[1..], id);
      assert products == [products[0]] + products[1..];
    }
  }

  /** ... in their order: removing from a concatenation removes from each
      part. */
  lemma {:induction false} RemoveByIdAppend(a: seq<Product>, b: seq<Product>, id: string)
    ensures RemoveById(a + b, id) == RemoveById(a, id) + RemoveById(b, id)
  {
    if a != [] {
      assert (a + b)[1..] == a[1..] + b;
      RemoveByIdAppend(a[1..], b, id);
    } else {
      assert a + b == b;
    }
  }

  /** Without a product of that id, a delete leaves the list as it was. */
  lemma {:induction false} RemoveByIdAbsent(products: seq<Product>, id: string)
    requires forall i :: 0 <= i < |products| ==> products[i].id != id
    ensures RemoveById(products, id) == products
  {
    if products != [] {
      RemoveByIdAbsent(products[1..], id);
      assert products == [products[0]] + products[1..];
    }
  }

  /** A status update changes only the status of the orders with that id;
      every other order and every other field stays. */
  lemma {:induction false} SetOrderStatusAt(orders: seq<Order>, id: string, status: string)
    ensures |SetOrderStatus(orders, id, status)| == |orders|
    ensures forall i :: 0 <= i < |orders| ==>
      SetOrderStatus(orders, id, status)[i] == if orders[i].id == id then orders[i].(orderStatus := status) else orders[i]
  {
    if orders != [] {
      SetOrderStatusAt(orders[1..], id, status);
    }
  }

  // ---------------------------------------------------------------------------
  // Status colours

  /** getStatusColor: the badge colour of each known status, grey otherwise. */
  function GetStatusColor(status: string): string {
    match status
    case "delivered" => "bg-green-100 text-green-800"
    case "pending" => "bg-yellow-100 text-yellow-800"
    case "confirmed" => "bg-blue-100 text-blue-800"
    case "preparing" => "bg-purple-100 text-purple-800"
    case "ready_for_delivery" => "bg-orange-100 text-orange-800"
    case "cancelled" => "bg-red-100 text-red-800"
    case _ => "bg-gray-100 text-gray-800"
  }

  /** The dashboard colours a status exactly as the customer's order list
      does, unknown statuses included. */
  lemma StatusColorsAgree(status: string)
    ensures GetStatusColor(status) == OrdersPage.GetStatusInfo(status).color
  {
  }

  // ---------------------------------------------------------------------------
  // Product form

  const DefaultCategory: string := "pain-relief"
  const DefaultUnit: string := "tablets"

  /** A numeric input: the empty string or a number. */
  datatype NumField = Blank | Number(n: int)

  datatype ProductForm = ProductForm(
    name: string,
    description: string,
    price: NumField,
    stock: NumField,
    category: string,
    unit: string,
    requiresPrescription: bool)

  const EmptyForm: ProductForm := ProductForm("", "", Blank, Blank, DefaultCategory, DefaultUnit, false)

  /** `value || ''` for a number. */
  function OrBlank(n: int): NumField {
    if n == 0 then Blank else Number(n)
  }

  /** `value || fallback` for a string. */
  function OrDefault(s: string, fallback: string): string {
    if s == "" then fallback else s
  }

  /** The product form's starting values: the edited product's fields with
      each falsy one replaced by its fallback, or the empty form. */
  function InitialProductForm(editing: Option<Product>): ProductForm {
    match editing
    case None => EmptyForm
    case Some(p) => ProductForm(p.name, p.description, OrBlank(p.price), OrBlank(p.stock),
                                OrDefault(p.category, DefaultCategory), OrDefault(p.unit, DefaultUnit),
                                p.requiresPrescription)
  }

  /** The form that shows a product exactly as it is. */
  function FormOf(p: Product): ProductForm {
    ProductForm(p.name, p.description, Number(p.price), Number(p.stock), p.category, p.unit, p.requiresPrescription)
  }

  /** Editing shows the product as it is exactly when none of its shown
      fields is falsy; it shows the empty form exactly when every field is
      falsy or already the default. */
  lemma EditFormShowsProduct(p: Product)
    ensures InitialProductForm(Some(p)) == FormOf(p)
      <==> p.price != 0 && p.stock != 0 && p.category != "" && p.unit != ""
    ensures InitialProductForm(Some(p)) == EmptyForm
      <==> p.name == "" && p.description == "" && p.price == 0 && p.stock == 0
           && (p.category == "" || p.category == DefaultCategory)
           && (p.unit == "" || p.unit == DefaultUnit) && !p.requiresPrescription
    ensures InitialProductForm(Some(p)).price == Blank <==> p.price == 0
    ensures InitialProductForm(Some(p)).stock == Blank <==> p.stock == 0
  {
  }

  // ---------------------------------------------------------------------------
  // Dashboard state

  /** The call handleFormSubmit makes. */
  datatype SubmitCall = UpdateCall(productId: string, data: ProductForm) | CreateCall(data: ProductForm)

  class DashboardState {
    var products: seq<Product>
    var orders: seq<Order>
    var showProductModal: bool
    var showOrderModal: bool
    var editingProduct: Option<Product>
    var selectedOrder: Option<Order>
    var isSubmittingProduct: bool
    var isUpdatingOrder: bool

    constructor()
      ensures products == [] && orders == []
      ensures !showProductModal && !showOrderModal && editingProduct.None? && selectedOrder.None?
      ensures !isSubmittingProduct && !isUpdatingOrder
    {
      products := [];
      orders := [];
      showProductModal := false;
      showOrderModal := false;
      editingProduct := None;
      selectedOrder := None;
      isSubmittingProduct := false;
      isUpdatingOrder := false;
    }

    /** handleFormSubmit: an update of the edited product when there is one,
        a creation otherwise; a creation raises `isSubmittingProduct` before
        its call. */
    method HandleFormSubmit(data: ProductForm) returns (call: SubmitCall)
      modifies this
      ensures call.UpdateCall? <==> old(editingProduct).Some?
      ensures call.UpdateCall? ==> call == UpdateCall(old(editingProduct).value.id, data)
      ensures call.CreateCall? ==> call == CreateCall(data)
      ensures isSubmittingProduct == (call.CreateCall? || old(isSubmittingProduct))
      ensures products == old(products) && orders == old(orders) && editingProduct == old(editingProduct)
      ensures showProductModal == old(showProductModal) && showOrderModal == old(showOrderModal)
      ensures selectedOrder == old(selectedOrder) && isUpdatingOrder == old(isUpdatingOrder)
    {
      if editingProduct.Some? {
        call := UpdateCall(editingProduct.value.id, data);
      } else {
        isSubmittingProduct := true;
        call := CreateCall(data);
      }
    }

    /** The end of handleCreateProduct: any answer (its `success` flag is not
        looked at) puts the returned product first and closes the modal; a
        thrown call changes no list. `isSubmittingProduct` ends false. */
    method FinishCreateProduct(reply: Reply<Product>)
      modifies this
      ensures !isSubmittingProduct
      ensures reply.Reply? ==> products == [reply.data] + old(products) && !showProductModal
      ensures reply.Thrown? ==> products == old(products) && showProductModal == old(showProductModal)
      ensures orders == old(orders) && editingProduct == old(editingProduct)
      ensures showOrderModal == old(showOrderModal) && selectedOrder == old(selectedOrder)
      ensures isUpdatingOrder == old(isUpdatingOrder)
    {
      if reply.Reply? {
        products := [reply.data] + products;
        showProductModal := false;
      }
      isSubmittingProduct := false;
    }

    /** The end of handleUpdateProduct for the product `productId` that was
        being edited when the form was sent: an answer replaces that product
        by the returned one, closes the modal and ends the editing. */
    method FinishUpdateProduct(productId: string, reply: Reply<Product>)
      modifies this
      ensures reply.Reply? ==>
        products == ReplaceById(old(products), productId, reply.data)
        && !showProductModal && editingProduct.None?
      ensures reply.Thrown? ==>
        products == old(products) && showProductModal == old(showProductModal)
        && editingProduct == old(editingProduct)
      ensures orders == old(orders) && showOrderModal == old(showOrderModal)
      ensures selectedOrder == old(selectedOrder)
      ensures isSubmittingProduct == old(isSubmittingProduct) && isUpdatingOrder == old(isUpdatingOrder)
    {
      if reply.Reply? {
        products := ReplaceById(products, productId, reply.data);
        showProductModal := false;
        editingProduct := None;
      }
    }

    /** handleDeleteProduct: nothing is called without the user's
        confirmation; a confirmed delete that is answered removes the
        product. Returns whether the delete call was made. */
    method HandleDeleteProduct(productId: string, confirmed: bool, reply: Reply<()>) returns (called: bool)
      modifies this
      ensures called == confirmed
      ensures confirmed && reply.Reply? ==> products == RemoveById(old(products), productId)
      ensures !(confirmed && reply.Reply?) ==> products == old(products)
      ensures orders == old(orders) && editingProduct == old(editingProduct)
      ensures showProductModal == old(showProductModal) && showOrderModal == old(showOrderModal)
      ensures selectedOrder == old(selectedOrder)
      ensures isSubmittingProduct == old(isSubmittingProduct) && isUpdatingOrder == old(isUpdatingOrder)
    {
      called := confirmed;
      if confirmed && reply.Reply? {
        products := RemoveById(products, productId);
      }
    }

    /** handleUpdateOrderStatus up to its `await`. */
    method BeginUpdateOrderStatus()
      modifies this
      ensures isUpdatingOrder
      ensures products == old(products) && orders == old(orders) && editingProduct == old(editingProduct)
      ensures showProductModal == old(showProductModal) && showOrderModal == old(showOrderModal)
      ensures selectedOrder == old(selectedOrder) && isSubmittingProduct == old(isSubmittingProduct)
    {
      isUpdatingOrder := true;
    }

    /** The end of handleUpdateOrderStatus: an answer sets the new status on
        that order and closes the order modal; `isUpdatingOrder` ends false. */
    method FinishUpdateOrderStatus(orderId: string, newStatus: string, reply: Reply<()>)
      modifies this
      ensures !isUpdatingOrder
      ensures reply.Reply? ==>
        orders == SetOrderStatus(old(orders), orderId, newStatus)
        && !showOrderModal && selectedOrder.None?
      ensures reply.Thrown? ==>
        orders == old(orders) && showOrderModal == old(showOrderModal) && selectedOrder == old(selectedOrder)
      ensures products == old(products) && editingProduct == old(editingProduct)
      ensures showProductModal == old(showProductModal) && isSubmittingProduct == old(isSubmittingProduct)
    {
      if reply.Reply? {
        orders := SetOrderStatus(orders, orderId, newStatus);
        showOrderModal := false;
        selectedOrder := None;
      }
      isUpdatingOrder := false;
    }

    method OpenEditModal(p: Product)
      modifies this
      ensures editingProduct == Some(p) && showProductModal
      ensures products == old(products) && orders == old(orders)
      ensures showOrderModal == old(showOrderModal) && selectedOrder == old(selectedOrder)
      ensures isSubmittingProduct == old(isSubmittingProduct) && isUpdatingOrder == old(isUpdatingOrder)
    {
      editingProduct := Some(p);
      showProductModal := true;
    }

    /** The "Add Product" buttons open the modal without touching
        `editingProduct`. */
    method OpenCreateModal()
      modifies this
      ensures showProductModal && editingProduct == old(editingProduct)
      ensures products == old(products) && orders == old(orders)
      ensures showOrderModal == old(showOrderModal) && selectedOrder == old(selectedOrder)
      ensures isSubmittingProduct == old(isSubmittingProduct) && isUpdatingOrder == old(isUpdatingOrder)
    {
      showProductModal := true;
    }

    /** handleCloseModal */
    method CloseProductModal()
      modifies this
      ensures !showProductModal && editingProduct.None?
      ensures products == old(products) && orders == old(orders)
      ensures showOrderModal == old(showOrderModal) && selectedOrder == old(selectedOrder)
      ensures isSubmittingProduct == old(isSubmittingProduct) && isUpdatingOrder == old(isUpdatingOrder)
    {
      showProductModal := false;
      editingProduct := None;
    }

    method OpenOrderModal(o: Order)
      modifies this
      ensures selectedOrder == Some(o) && showOrderModal
      ensures products == old(products) && orders == old(orders)
      ensures showProductModal == old(showProductModal) && editingProduct == old(editingProduct)
      ensures isSubmittingProduct == old(isSubmittingProduct) && isUpdatingOrder == old(isUpdatingOrder)
    {
      selectedOrder := Some(o);
      showOrderModal := true;
    }

    /** The order modal's close button. */
    method CloseOrderModal()
      modifies this
      ensures !showOrderModal && selectedOrder.None?
      ensures products == old(products) && orders == old(orders)
      ensures showProductModal == old(showProductModal) && editingProduct == old(editingProduct)
      ensures isSubmittingProduct == old(isSubmittingProduct) && isUpdatingOrder == old(isUpdatingOrder)
    {
      showOrderModal := false;
      selectedOrder := None;
    }
  }

  /** Editing a listed product and saving it: the dispatch picks the update,
      and the answer replaces that product where it stood. */
  method EditAndSave(products: seq<Product>, k: nat, data: ProductForm, saved: Product)
    returns (after: seq<Product>)
    requires k < |products|
    requires forall i, j :: 0 <= i < j < |products| ==> products[i].id != products[j].id
    ensures |after| == |products| && after[k] == saved
    ensures forall i :: 0 <= i < |products| && i != k ==> after[i] == products[i]
  {
    var page := new DashboardState();
    page.products := products;
    page.OpenEditModal(products[k]);
    var call := page.HandleFormSubmit(data);
    page.FinishUpdateProduct(call.productId, Reply(true, saved));
    ReplaceByIdAt(products, products[k].id, saved);
    after := page.products;
  }
}
