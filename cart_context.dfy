/** The shopping-cart engine of `CartContext`: an ordered list of line items
    keyed by product id, the stock-checked mutations that replace that list,
    and the totals and checkout validation derived from it. Each mutation is a
    pure transition on the list (`AddStep`, `UpdateStep`, `RemoveLines`); the
    `CartStore` class holds the list and applies them, as the provider's
    `setCart` does. */
module CartContext {
  import opened Common
  import opened Catalog

  const FreeDeliveryThreshold: int := 500
  const DeliveryFee: int := 50
  const PlaceholderImage: string := "/placeholder.png"
  const EmptyCartError: string := "Cart is empty"

  /** One product's line in the cart. `stock` is the snapshot taken when the
      line was created; it is never refreshed afterwards. */
  datatype LineItem = LineItem(
    product: string,
    name: string,
    price: int,
    image: string,
    unit: string,
    quantity: int,
    stock: int,
    requiresPrescription: bool)

  /** What `addToCart` reports (through its toasts). */
  datatype AddOutcome = AddRejected(available: int) | QuantityIncreased | LineAppended

  /** What `updateQuantity` reports (through its toasts). */
  datatype UpdateOutcome = LineRemoved | UpdateRejected(available: int) | QuantitySet | NoMatchingLine

  /** A transition of the cart: the new list and what the user is told. */
  datatype Change<O> = Change(cart: seq<LineItem>, outcome: O)

  datatype Totals = Totals(subtotal: int, deliveryCharges: int, total: int, itemCount: int)

  // ---------------------------------------------------------------------------
  // Keys and the stock invariant

  /** No two lines share a product id. */
  predicate UniqueKeys(cart: seq<LineItem>) {
    forall i, j :: 0 <= i < j < |cart| ==> cart[i].product != cart[j].product
  }

  /** No line asks for more than its stock snapshot. */
  predicate InStock(cart: seq<LineItem>) {
    forall i :: 0 <= i < |cart| ==> cart[i].quantity <= cart[i].stock
  }

  /** Position of `cart.find(item => item.product === id)`, or -1. */
  function IndexOfProduct(cart: seq<LineItem>, id: string): (k: int)
    ensures -1 <= k < |cart|
    ensures k == -1 <==> forall j :: 0 <= j < |cart| ==> cart[j].product != id
    ensures 0 <= k ==> cart[k].product == id && forall j :: 0 <= j < k ==> cart[j].product != id
  {
    if cart == [] then -1
    else if cart[0].product == id then 0
    else
      var k := IndexOfProduct(cart[1..], id);
      assert forall j :: 1 <= j < |cart| ==> cart[j] == cart[1..][j - 1];
      if k == -1 then -1 else k + 1
  }

  /** With unique keys, the line found is the only one with that id. */
  lemma IndexOfUnique(cart: seq<LineItem>, k: int)
    requires UniqueKeys(cart) && 0 <= k < |cart|
    ensures IndexOfProduct(cart, cart[k].product) == k
  {
    var i := IndexOfProduct(cart, cart[k].product);
    assert cart[i].product == cart[k].product;
  }

  // ---------------------------------------------------------------------------
  // The list updaters handed to setCart

  /** `product.images?.[0]?.url || '/placeholder.png'` */
  function ImageOf(p: Product): string {
    if |p.images| > 0 && p.images[0] != "" then p.images[0] else PlaceholderImage
  }

  /** The line `addToCart` appends for a product not yet in the cart. */
  function NewLine(p: Product, quantity: int): LineItem {
    LineItem(p.id, p.name, p.price, ImageOf(p), p.unit, quantity, p.stock, p.requiresPrescription)
  }

  /** The `map` in addToCart's existing-product branch: every line of that
      product gets quantity `n`; nothing else changes. */
  function SetQuantity(cart: seq<LineItem>, id: string, n: int): seq<LineItem> {
    if cart == [] then []
    else [if cart[0].product == id then cart[0].(quantity := n) else cart[0]]
         + SetQuantity(cart[1..], id, n)
  }

  /** The `map` in updateQuantity: a line of that product takes quantity `n`
      unless `n` exceeds its own stock snapshot. */
  function UpdateLines(cart: seq<LineItem>, id: string, n: int): seq<LineItem> {
    if cart == [] then []
    else [if cart[0].product == id && n <= cart[0].stock then cart[0].(quantity := n) else cart[0]]
         + UpdateLines(cart[1..], id, n)
  }

  /** The `filter` in removeFromCart. */
  function RemoveLines(cart: seq<LineItem>, id: string): seq<LineItem> {
    if cart == [] then []
    else (if cart[0].product == id then [] else [cart[0]]) + RemoveLines(cart[1..], id)
  }

  /** addToCart(product, quantity): merge into the existing line when the new
      total fits the product's current stock, append a new line when the
      requested quantity fits, otherwise leave the cart as it was. */
  function AddStep(cart: seq<LineItem>, p: Product, quantity: int): Change<AddOutcome> {
    var k := IndexOfProduct(cart, p.id);
    if k >= 0 then
      var newQuantity := cart[k].quantity + quantity;
      if newQuantity > p.stock then Change(cart, AddRejected(p.stock))
      else Change(SetQuantity(cart, p.id, newQuantity), QuantityIncreased)
    else if quantity > p.stock then Change(cart, AddRejected(p.stock))
    else Change(cart + [NewLine(p, quantity)], LineAppended)
  }

  /** updateQuantity(productId, quantity): removal for quantity <= 0,
      otherwise the stock-checked replacement. */
  function UpdateStep(cart: seq<LineItem>, id: string, quantity: int): Change<UpdateOutcome> {
    var k := IndexOfProduct(cart, id);
    if quantity <= 0 then
      Change(RemoveLines(cart, id), if k < 0 then NoMatchingLine else LineRemoved)
    else
      Change(UpdateLines(cart, id, quantity),
             if k < 0 then NoMatchingLine
             else if quantity > cart[k].stock then UpdateRejected(cart[k].stock)
             else QuantitySet)
  }

  lemma {:induction false} SetQuantityAt(cart: seq<LineItem>, id: string, n: int)
    ensures |SetQuantity(cart, id, n)| == |cart|
    ensures forall i :: 0 <= i < |cart| ==>
      SetQuantity(cart, id, n)[i] == if cart[i].product == id then cart[i].(quantity := n) else cart[i]
  {
    if cart != [] {
      SetQuantityAt(cart[1..], id, n);
      assert forall i :: 1 <= i < |cart| ==> SetQuantity(cart, id, n)[i] == SetQuantity(cart[1..], id, n)[i - 1];
    }
  }

  lemma {:induction false} UpdateLinesAt(cart: seq<LineItem>, id: string, n: int)
    ensures |UpdateLines(cart, id, n)| == |cart|
    ensures forall i :: 0 <= i < |cart| ==>
      UpdateLines(cart, id, n)[i]
        == if cart[i].product == id && n <= cart[i].stock then cart[i].(quantity := n) else cart[i]
  {
    if cart != [] {
      UpdateLinesAt(cart[1..], id, n);
      assert forall i :: 1 <= i < |cart| ==> UpdateLines(cart, id, n)[i] == UpdateLines(cart[1..], id, n)[i - 1];
    }
  }

  /** removeFromCart keeps exactly the lines of other products. */
  lemma {:induction false} RemoveLinesMembers(cart: seq<LineItem>, id: string)
    ensures forall x :: x in RemoveLines(cart, id) <==> x in cart && x.product != id
  {
    if cart != [] {
      RemoveLinesMembers(cart[1..], id);
      assert cart == [cart[0]] + cart[1..];
    }
  }

  /** Removing an absent product is a no-op. */
  lemma {:induction false} RemoveLinesAbsent(cart: seq<LineItem>, id: string)
    requires forall j :: 0 <= j < |cart| ==> cart[j].product != id
    ensures RemoveLines(cart, id) == cart
  {
    if cart != [] {
      RemoveLinesAbsent(cart[1..], id);
      assert cart == [cart[0]] + cart[1..];
    }
  }

  /** With unique keys, removeFromCart cuts out exactly the one line. */
  lemma {:induction false} RemoveLinesAt(cart: seq<LineItem>, k: nat)
    requires UniqueKeys(cart) && k < |cart|
    ensures RemoveLines(cart, cart[k].product) == cart[..k] + cart[k + 1..]
  {
    var id := cart[k].product;
    if k == 0 {
      RemoveLinesAbsent(cart[1..], id);
    } else {
      assert cart[1..][k - 1] == cart[k];
      RemoveLinesAt(cart[1..], k - 1);
      assert cart[1..][..k - 1] + cart[1..][k..] == cart[1..k] + cart[k + 1..];
      assert cart[..k] == [cart[0]] + cart[1..k];
    }
  }

  // ---------------------------------------------------------------------------
  // Properties of the mutations

  /** A product not in the cart, asked for within its stock, is appended as one
      new line at the end carrying the requested quantity and the product's
      stock; every earlier line stays as it was. */
  lemma AddAbsentAppends(cart: seq<LineItem>, p: Product, quantity: int)
    requires forall j :: 0 <= j < |cart| ==> cart[j].product != p.id
    requires quantity <= p.stock
    ensures var r := AddStep(cart, p, quantity);
      && r.outcome == LineAppended
      && |r.cart| == |cart| + 1 && r.cart[..|cart|] == cart
      && r.cart[|cart|].product == p.id && r.cart[|cart|].quantity == quantity
      && r.cart[|cart|].stock == p.stock && r.cart[|cart|].price == p.price
  {
  }

  /** addToCart rejects exactly when the merged quantity (existing line) or the
      requested quantity (new line) exceeds the product's current stock, and a
      rejection leaves the cart unchanged. Non-positive quantities are not
      rejected. */
  lemma AddRejectsOverStock(cart: seq<LineItem>, p: Product, quantity: int)
    ensures var k := IndexOfProduct(cart, p.id);
      var r := AddStep(cart, p, quantity);
      && (r.outcome.AddRejected? <==>
           (if k >= 0 then cart[k].quantity + quantity > p.stock else quantity > p.stock))
      && (r.outcome.AddRejected? ==> r.cart == cart && r.outcome.available == p.stock)
  {
  }

  /** Adding to a product already in the cart changes only that line's
      quantity, to the old quantity plus the added one; its stored stock
      snapshot, its other fields, every other line and the order stay. */
  lemma AddExistingIncreases(cart: seq<LineItem>, p: Product, quantity: int, k: nat)
    requires UniqueKeys(cart) && k < |cart| && cart[k].product == p.id
    requires cart[k].quantity + quantity <= p.stock
    ensures AddStep(cart, p, quantity)
      == Change(cart[k := cart[k].(quantity := cart[k].quantity + quantity)], QuantityIncreased)
  {
    IndexOfUnique(cart, k);
    SetQuantityAt(cart, p.id, cart[k].quantity + quantity);
  }

  /** addToCart never creates a second line for the same product. */
  lemma AddPreservesUniqueKeys(cart: seq<LineItem>, p: Product, quantity: int)
    requires UniqueKeys(cart)
    ensures UniqueKeys(AddStep(cart, p, quantity).cart)
  {
    var k := IndexOfProduct(cart, p.id);
    if k >= 0 {
      SetQuantityAt(cart, p.id, cart[k].quantity + quantity);
    }
  }

  /** The three cases of updateQuantity on a cart with unique keys. */
  lemma UpdateStepCases(cart: seq<LineItem>, id: string, quantity: int)
    requires UniqueKeys(cart)
    ensures quantity <= 0 ==> UpdateStep(cart, id, quantity).cart == RemoveLines(cart, id)
    ensures var k := IndexOfProduct(cart, id);
      0 < quantity && k == -1 ==> UpdateStep(cart, id, quantity) == Change(cart, NoMatchingLine)
    ensures var k := IndexOfProduct(cart, id);
      (0 < quantity && k >= 0 && quantity > cart[k].stock) ==>
        UpdateStep(cart, id, quantity) == Change(cart, UpdateRejected(cart[k].stock))
    ensures var k := IndexOfProduct(cart, id);
      (0 < quantity && k >= 0 && quantity <= cart[k].stock) ==>
        UpdateStep(cart, id, quantity) == Change(cart[k := cart[k].(quantity := quantity)], QuantitySet)
  {
    var k := IndexOfProduct(cart, id);
    UpdateLinesAt(cart, id, quantity);
    if k >= 0 {
      forall j | 0 <= j < |cart| && j != k
        ensures cart[j].product != id
      {
        assert j < k || k < j;
      }
    }
  }

  /** removeFromCart on a cart with unique ids: the one line of that product
      is cut out and the rest keep their order; an absent product leaves the
      cart unchanged. */
  lemma RemoveDeletesExactly(cart: seq<LineItem>, id: string)
    requires UniqueKeys(cart)
    ensures var k := IndexOfProduct(cart, id);
      && (k == -1 ==> RemoveLines(cart, id) == cart)
      && (k >= 0 ==> RemoveLines(cart, id) == cart[..k] + cart[k + 1..])
  {
    var k := IndexOfProduct(cart, id);
    if k == -1 {
      RemoveLinesAbsent(cart, id);
    } else {
      RemoveLinesAt(cart, k);
    }
  }

  /** updateQuantity keeps keys unique and never lets a line exceed its stock
      snapshot. */
  lemma UpdatePreservesInvariants(cart: seq<LineItem>, id: string, quantity: int)
    requires UniqueKeys(cart) && InStock(cart)
    ensures UniqueKeys(UpdateStep(cart, id, quantity).cart)
    ensures InStock(UpdateStep(cart, id, quantity).cart)
  {
    if quantity <= 0 {
      RemovePreservesInvariants(cart, id);
    } else {
      UpdateLinesAt(cart, id, quantity);
    }
  }

  /** removeFromCart keeps keys unique and every remaining line in stock. */
  lemma RemovePreservesInvariants(cart: seq<LineItem>, id: string)
    requires UniqueKeys(cart) && InStock(cart)
    ensures UniqueKeys(RemoveLines(cart, id))
    ensures InStock(RemoveLines(cart, id))
  {
    var k := IndexOfProduct(cart, id);
    RemoveDeletesExactly(cart, id);
    if k >= 0 {
      CutPreservesInvariants(cart, k);
    }
  }

  lemma CutPreservesInvariants(cart: seq<LineItem>, k: nat)
    requires UniqueKeys(cart) && InStock(cart) && k < |cart|
    ensures UniqueKeys(cart[..k] + cart[k + 1..]) && InStock(cart[..k] + cart[k + 1..])
  {
    var r := cart[..k] + cart[k + 1..];
    assert forall i :: 0 <= i < |r| ==> r[i] == cart[if i < k then i else i + 1];
  }

  /** addToCart keeps every line within its snapshot only as long as the
      product's current stock is not above the snapshot stored in its line. */
  lemma AddPreservesInStock(cart: seq<LineItem>, p: Product, quantity: int)
    requires InStock(cart)
    requires forall j :: 0 <= j < |cart| && cart[j].product == p.id ==> p.stock <= cart[j].stock
    ensures InStock(AddStep(cart, p, quantity).cart)
  {
    var k := IndexOfProduct(cart, p.id);
    if k >= 0 {
      SetQuantityAt(cart, p.id, cart[k].quantity + quantity);
    }
  }

  /** Because the stored snapshot is not refreshed, a restocked product can be
      merged above the line's own snapshot, and the cart then fails validation. */
  lemma StaleSnapshotAdmitsOverstock()
    ensures var line := LineItem("p1", "Panadol", 300, PlaceholderImage, "tablets", 1, 1, false);
      var restocked := Product("p1", "Panadol", "", 300, 5, "pain-relief", "tablets", [], false);
      var r := AddStep([line], restocked, 2);
      && r == Change([line.(quantity := 3)], QuantityIncreased)
      && !InStock(r.cart)
      && ValidationErrors(r.cart) == ["Panadol: Only 1 items available"]
  {
    var line := LineItem("p1", "Panadol", 300, PlaceholderImage, "tablets", 1, 1, false);
    var restocked := Product("p1", "Panadol", "", 300, 5, "pain-relief", "tablets", [], false);
    MergeIntoSingleLine(line, restocked, 2);
    OverstockMessage(line.(quantity := 3));
  }

  lemma MergeIntoSingleLine(line: LineItem, p: Product, quantity: int)
    requires line.product == p.id && line.quantity + quantity <= p.stock
    ensures AddStep([line], p, quantity) == Change([line.(quantity := line.quantity + quantity)], QuantityIncreased)
  {
    assert IndexOfProduct([line], p.id) == 0;
    SetQuantityAt([line], p.id, line.quantity + quantity);
  }

  lemma OverstockMessage(over: LineItem)
    requires over.name == "Panadol" && over.stock == 1 && over.quantity > 1
    ensures !InStock([over])
    ensures ValidationErrors([over]) == ["Panadol: Only 1 items available"]
  {
    SingleLineErrors(over);
    OnlyOneLeftMessage(over);
  }

  lemma SingleLineErrors(line: LineItem)
    ensures ValidationErrors([line]) == if line.quantity > line.stock then [StockMessage(line)] else []
  {
    assert [line][..0] == [];
    assert ValidationErrors([line]) == [] + StockErrors([line]);
  }

  lemma OnlyOneLeftMessage(line: LineItem)
    requires line.name == "Panadol" && line.stock == 1
    ensures StockMessage(line) == "Panadol: Only 1 items available"
  {
    assert IntToString(1) == "1";
  }

  // ---------------------------------------------------------------------------
  // Totals

  /** `cart.reduce((total, item) => total + item.price * item.quantity, 0)` */
  function Subtotal(cart: seq<LineItem>): int {
    if cart == [] then 0
    else Subtotal(cart[..|cart| - 1]) + cart[|cart| - 1].price * cart[|cart| - 1].quantity
  }

  /** `cart.reduce((total, item) => total + item.quantity, 0)`: used both for
      the totals and for the provider's exported `itemCount`. */
  function ItemCount(cart: seq<LineItem>): int {
    if cart == [] then 0 else ItemCount(cart[..|cart| - 1]) + cart[|cart| - 1].quantity
  }

  function DeliveryCharges(subtotal: int): int {
    if subtotal >= FreeDeliveryThreshold then 0 else DeliveryFee
  }

  /** getCartTotals() */
  function CartTotals(cart: seq<LineItem>): Totals {
    var subtotal := Subtotal(cart);
    var delivery := DeliveryCharges(subtotal);
    Totals(subtotal, delivery, subtotal + delivery, ItemCount(cart))
  }

  lemma {:induction false} SubtotalAppend(a: seq<LineItem>, b: seq<LineItem>)
    ensures Subtotal(a + b) == Subtotal(a) + Subtotal(b)
  {
    if b == [] {
      assert a + b == a;
    } else {
      SubtotalAppend(a, b[..|b| - 1]);
      assert (a + b)[..|a + b| - 1] == a + b[..|b| - 1];
    }
  }

  lemma {:induction false} ItemCountAppend(a: seq<LineItem>, b: seq<LineItem>)
    ensures ItemCount(a + b) == ItemCount(a) + ItemCount(b)
  {
    if b == [] {
      assert a + b == a;
    } else {
      ItemCountAppend(a, b[..|b| - 1]);
      assert (a + b)[..|a + b| - 1] == a + b[..|b| - 1];
    }
  }

  /** Replacing one line changes the sums by the difference of that line. */
  lemma SumsAfterReplace(cart: seq<LineItem>, k: nat, x: LineItem)
    requires k < |cart|
    ensures ItemCount(cart[k := x]) == ItemCount(cart) - cart[k].quantity + x.quantity
    ensures Subtotal(cart[k := x]) == Subtotal(cart) - cart[k].price * cart[k].quantity + x.price * x.quantity
  {
    var pre, post := cart[..k], cart[k + 1..];
    assert cart == pre + [cart[k]] + post;
    assert cart[k := x] == pre + [x] + post;
    ItemCountAppend(pre + [cart[k]], post);
    ItemCountAppend(pre, [cart[k]]);
    ItemCountAppend(pre + [x], post);
    ItemCountAppend(pre, [x]);
    SubtotalAppend(pre + [cart[k]], post);
    SubtotalAppend(pre, [cart[k]]);
    SubtotalAppend(pre + [x], post);
    SubtotalAppend(pre, [x]);
  }

  /** An accepted addToCart raises the item count by exactly the added
      quantity and the subtotal by that quantity times the line's price (the
      price stored in the line when the product was already there). */
  lemma AddChangesTotals(cart: seq<LineItem>, p: Product, quantity: int)
    requires UniqueKeys(cart)
    ensures var r := AddStep(cart, p, quantity);
      var k := IndexOfProduct(cart, p.id);
      !r.outcome.AddRejected? ==>
        && ItemCount(r.cart) == ItemCount(cart) + quantity
        && Subtotal(r.cart) == Subtotal(cart) + (if k >= 0 then cart[k].price else p.price) * quantity
  {
    var k := IndexOfProduct(cart, p.id);
    if k >= 0 {
      if cart[k].quantity + quantity <= p.stock {
        IncreaseChangesTotals(cart, p, quantity, k);
      }
    } else if quantity <= p.stock {
      AppendChangesTotals(cart, p, quantity);
    }
  }

  lemma IncreaseChangesTotals(cart: seq<LineItem>, p: Product, quantity: int, k: nat)
    requires UniqueKeys(cart) && k < |cart| && cart[k].product == p.id
    requires cart[k].quantity + quantity <= p.stock
    ensures var r := AddStep(cart, p, quantity);
      && ItemCount(r.cart) == ItemCount(cart) + quantity
      && Subtotal(r.cart) == Subtotal(cart) + cart[k].price * quantity
  {
    var x := cart[k].(quantity := cart[k].quantity + quantity);
    var after := cart[k := x];
    AddExistingIncreases(cart, p, quantity, k);
    assert AddStep(cart, p, quantity).cart == after;
    ReplaceChangesTotals(cart, k, quantity);
  }

  /** Raising line `k` by `quantity` raises the item count by `quantity` and
      the subtotal by that line's price times `quantity`. */
  lemma ReplaceChangesTotals(cart: seq<LineItem>, k: nat, quantity: int)
    requires k < |cart|
    ensures var after := cart[k := cart[k].(quantity := cart[k].quantity + quantity)];
      && ItemCount(after) == ItemCount(cart) + quantity
      && Subtotal(after) == Subtotal(cart) + cart[k].price * quantity
  {
    var a, b := cart[k].price, cart[k].quantity;
    SumsAfterReplace(cart, k, cart[k].(quantity := b + quantity));
    assert a * (b + quantity) == a * b + a * quantity;
  }

  lemma AppendChangesTotals(cart: seq<LineItem>, p: Product, quantity: int)
    requires forall j :: 0 <= j < |cart| ==> cart[j].product != p.id
    requires quantity <= p.stock
    ensures var r := AddStep(cart, p, quantity);
      && ItemCount(r.cart) == ItemCount(cart) + quantity
      && Subtotal(r.cart) == Subtotal(cart) + p.price * quantity
  {
    AddAbsentIsAppend(cart, p, quantity);
    SumsAfterAppend(cart, NewLine(p, quantity));
  }

  lemma AddAbsentIsAppend(cart: seq<LineItem>, p: Product, quantity: int)
    requires forall j :: 0 <= j < |cart| ==> cart[j].product != p.id
    requires quantity <= p.stock
    ensures AddStep(cart, p, quantity).cart == cart + [NewLine(p, quantity)]
  {
    assert IndexOfProduct(cart, p.id) == -1;
  }

  /** Appending a line adds its quantity to the item count and its price
      times quantity to the subtotal. */
  lemma SumsAfterAppend(cart: seq<LineItem>, line: LineItem)
    ensures ItemCount(cart + [line]) == ItemCount(cart) + line.quantity
    ensures Subtotal(cart + [line]) == Subtotal(cart) + line.price * line.quantity
  {
    assert (cart + [line])[..|cart|] == cart;
  }

  /** Delivery is free exactly from a subtotal of 500 up, otherwise 50, and the
      total is the subtotal plus that fee; the empty cart is charged 50. */
  lemma DeliveryRule(cart: seq<LineItem>)
    ensures var t := CartTotals(cart);
      && (t.deliveryCharges == 0 <==> t.subtotal >= FreeDeliveryThreshold)
      && (t.deliveryCharges != 0 ==> t.deliveryCharges == DeliveryFee)
      && t.total == t.subtotal + t.deliveryCharges
      && t.itemCount == ItemCount(cart)
    ensures CartTotals([]) == Totals(0, DeliveryFee, DeliveryFee, 0)
  {
  }

  // ---------------------------------------------------------------------------
  // Prescription flag and validation

  /** hasPrescriptionRequired(): `cart.some(item => item.requiresPrescription)` */
  function HasPrescriptionRequired(cart: seq<LineItem>): (b: bool)
    ensures b <==> exists i :: 0 <= i < |cart| && cart[i].requiresPrescription
  {
    if cart == [] then false
    else
      assert forall i :: 1 <= i < |cart| ==> cart[i] == cart[1..][i - 1];
      cart[0].requiresPrescription || HasPrescriptionRequired(cart[1..])
  }

  /** The message validateCart pushes for a line above its stock. */
  function StockMessage(item: LineItem): string {
    item.name + ": Only " + IntToString(item.stock) + " items available"
  }

  /** The messages of the `forEach`, one per offending line, in cart order. */
  function StockErrors(cart: seq<LineItem>): seq<string> {
    if cart == [] then []
    else
      var last := cart[|cart| - 1];
      StockErrors(cart[..|cart| - 1]) + (if last.quantity > last.stock then [StockMessage(last)] else [])
  }

  /** The `errors` array of validateCart(). */
  function ValidationErrors(cart: seq<LineItem>): seq<string> {
    (if |cart| == 0 then [EmptyCartError] else []) + StockErrors(cart)
  }

  lemma {:induction false} StockErrorsEmptyIff(cart: seq<LineItem>)
    ensures StockErrors(cart) == [] <==> InStock(cart)
  {
    if cart != [] {
      var init := cart[..|cart| - 1];
      StockErrorsEmptyIff(init);
      assert forall i :: 0 <= i < |init| ==> init[i] == cart[i];
    }
  }

  /** Errors of a concatenation are the errors of each part, in order. */
  lemma {:induction false} StockErrorsAppend(a: seq<LineItem>, b: seq<LineItem>)
    ensures StockErrors(a + b) == StockErrors(a) + StockErrors(b)
  {
    if b == [] {
      assert a + b == a;
    } else {
      var init := b[..|b| - 1];
      StockErrorsAppend(a, init);
      assert (a + b)[..|a + b| - 1] == a + init;
      assert (a + b)[|a + b| - 1] == b[|b| - 1];
      calc {
        StockErrors(a + b);
        StockErrors(a + init) + StockErrors([b[|b| - 1]]);
        StockErrors(a) + StockErrors(init) + StockErrors([b[|b| - 1]]);
        { assert [b[|b| - 1]][..0] == []; }
        StockErrors(a) + StockErrors(b);
      }
    }
  }

  /** validateCart reports valid exactly for a non-empty cart whose lines are
      all within their stock snapshot; the empty cart gets the single message
      "Cart is empty". */
  lemma ValidIff(cart: seq<LineItem>)
    ensures ValidationErrors(cart) == [] <==> cart != [] && InStock(cart)
    ensures cart == [] ==> ValidationErrors(cart) == [EmptyCartError]
  {
    StockErrorsEmptyIff(cart);
  }

  /** validateCart(): the errors are pushed inside a loop over the lines. */
  method ValidateCart(cart: seq<LineItem>) returns (isValid: bool, errors: seq<string>)
    ensures errors == ValidationErrors(cart)
    ensures isValid <==> cart != [] && InStock(cart)
  {
    errors := [];
    if |cart| == 0 {
      errors := errors + [EmptyCartError];
    }
    var i := 0;
    while i < |cart|
      invariant 0 <= i <= |cart|
      invariant errors == (if |cart| == 0 then [EmptyCartError] else []) + StockErrors(cart[..i])
    {
      assert cart[..i + 1][..i] == cart[..i];
      if cart[i].quantity > cart[i].stock {
        errors := errors + [StockMessage(cart[i])];
      }
      i := i + 1;
    }
    assert cart[..|cart|] == cart;
    isValid := |errors| == 0;
    ValidIff(cart);
  }

  // ---------------------------------------------------------------------------
  // The provider's state

  /** The `cart` state of the provider; each method replaces it through the
      corresponding transition. */
  class CartStore {
    var items: seq<LineItem>

    constructor()
      ensures items == []
    {
      items := [];
    }

    /** The load-on-mount effect. `saved` is what storage holds under the
        cart key; `parsed` is the outcome of parsing it (None when the parse
        throws). Returns whether the stored entry is removed. */
    method Load(saved: Option<string>, parsed: Option<seq<LineItem>>) returns (discardSaved: bool)
      modifies this
      ensures (saved.None? || saved.value == "") ==> items == old(items) && !discardSaved
      ensures saved.Some? && saved.value != "" && parsed.Some? ==> items == parsed.value && !discardSaved
      ensures saved.Some? && saved.value != "" && parsed.None? ==> items == old(items) && discardSaved
    {
      discardSaved := false;
      if saved.Some? && saved.value != "" {
        if parsed.Some? {
          items := parsed.value;
        } else {
          discardSaved := true;
        }
      }
    }

    method AddToCart(p: Product, quantity: int := 1) returns (outcome: AddOutcome)
      modifies this
      ensures Change(items, outcome) == AddStep(old(items), p, quantity)
    {
      var k := IndexOfProduct(items, p.id);
      if k >= 0 {
        var newQuantity := items[k].quantity + quantity;
        if newQuantity > p.stock {
          outcome := AddRejected(p.stock);
        } else {
          items := SetQuantity(items, p.id, newQuantity);
          outcome := QuantityIncreased;
        }
      } else if quantity > p.stock {
        outcome := AddRejected(p.stock);
      } else {
        items := items + [NewLine(p, quantity)];
        outcome := LineAppended;
      }
    }

    method UpdateQuantity(id: string, quantity: int) returns (outcome: UpdateOutcome)
      modifies this
      ensures Change(items, outcome) == UpdateStep(old(items), id, quantity)
    {
      if quantity <= 0 {
        var removed := RemoveFromCart(id);
        outcome := if removed then LineRemoved else NoMatchingLine;
        return;
      }
      var k := IndexOfProduct(items, id);
      outcome := if k < 0 then NoMatchingLine
                 else if quantity > items[k].stock then UpdateRejected(items[k].stock)
                 else QuantitySet;
      items := UpdateLines(items, id, quantity);
    }

    /** Returns whether a line was there (the success toast is shown then). */
    method RemoveFromCart(id: string) returns (removed: bool)
      modifies this
      ensures items == RemoveLines(old(items), id)
      ensures removed <==> IndexOfProduct(old(items), id) >= 0
    {
      removed := IndexOfProduct(items, id) >= 0;
      items := RemoveLines(items, id);
    }

    method ClearCart()
      modifies this
      ensures items == []
    {
      items := [];
    }
  }
}
