/** The product details page: the quantity picker bounded by the product's
    stock, the selected image, the stock badge and the add-to-cart button. */
module ProductDetails {
  import opened Common
  import opened Catalog
  import opened CartContext

  const LowStockLevel: int := 10

  /** The badge next to the price. */
  datatype StockBadge = OutOfStock | OnlyLeft(count: int) | InStockCount(count: int)

  function Badge(p: Product): (b: StockBadge)
    ensures b.OutOfStock? <==> p.stock == 0
    ensures b.OnlyLeft? <==> p.stock != 0 && p.stock < LowStockLevel
    ensures !b.OutOfStock? ==> b.count == p.stock
  {
    if p.stock == 0 then OutOfStock
    else if p.stock < LowStockLevel then OnlyLeft(p.stock)
    else InStockCount(p.stock)
  }

  /** `product?.stock || 1`: the largest quantity the picker accepts; 1 when
      no product is loaded or its stock is the falsy 0. */
  function QuantityCeiling(product: Option<Product>): int {
    if product.None? || product.value.stock == 0 then 1 else product.value.stock
  }

  /** handleQuantityChange: the new quantity is taken only when it lies in
      1..ceiling; otherwise the old one stays. */
  function StepQuantity(quantity: int, product: Option<Product>, change: int): int {
    var n := quantity + change;
    if 1 <= n <= QuantityCeiling(product) then n else quantity
  }

  /** The quantity after a run of picker clicks. */
  function StepQuantities(quantity: int, product: Option<Product>, changes: seq<int>): int
    decreases |changes|
  {
    if changes == [] then quantity
    else StepQuantities(StepQuantity(quantity, product, changes[0]), product, changes[1..])
  }

  /** A change is taken exactly when it lands in 1..ceiling. */
  lemma StepAcceptsExactlyInRange(quantity: int, product: Option<Product>, change: int)
    requires change != 0
    ensures StepQuantity(quantity, product, change) == quantity + change
      <==> 1 <= quantity + change <= QuantityCeiling(product)
    ensures StepQuantity(quantity, product, change) != quantity + change
      ==> StepQuantity(quantity, product, change) == quantity
  {
  }

  /** From a quantity in 1..ceiling, no run of clicks leaves that range; for a
      product with stock 0 the quantity stays 1. */
  lemma {:induction false} QuantityStaysInRange(quantity: int, product: Option<Product>, changes: seq<int>)
    requires 1 <= quantity <= QuantityCeiling(product)
    ensures 1 <= StepQuantities(quantity, product, changes) <= QuantityCeiling(product)
    ensures product.Some? && product.value.stock == 0 ==> StepQuantities(quantity, product, changes) == 1
    decreases |changes|
  {
    if changes != [] {
      QuantityStaysInRange(StepQuantity(quantity, product, changes[0]), product, changes[1..]);
    }
  }

  /** A quantity above the ceiling plus one, as one kept from a previously
      shown product with more stock, is stuck: neither button changes it. */
  lemma AboveCeilingIsStuck(quantity: int, product: Option<Product>)
    requires quantity > QuantityCeiling(product) + 1
    ensures StepQuantity(quantity, product, 1) == quantity
    ensures StepQuantity(quantity, product, -1) == quantity
  {
  }

  predicate MinusDisabled(quantity: int) {
    quantity <= 1
  }

  predicate PlusDisabled(quantity: int, p: Product) {
    quantity >= p.stock
  }

  predicate AddToCartDisabled(p: Product) {
    p.stock == 0
  }

  /** An enabled button is always taken: plus raises the quantity by one and
      minus lowers it by one, from any quantity in range. */
  lemma EnabledButtonsAreTaken(quantity: int, p: Product)
    requires 1 <= quantity <= QuantityCeiling(Some(p))
    ensures !PlusDisabled(quantity, p) ==> StepQuantity(quantity, Some(p), 1) == quantity + 1
    ensures !MinusDisabled(quantity) ==> StepQuantity(quantity, Some(p), -1) == quantity - 1
  {
  }

  /** A product not yet in the cart, added with a quantity the picker
      allows from an enabled button, becomes a new line with that quantity. */
  lemma PickedQuantityIsAccepted(cart: seq<LineItem>, p: Product, quantity: int)
    requires forall j :: 0 <= j < |cart| ==> cart[j].product != p.id
    requires !AddToCartDisabled(p) && 1 <= quantity <= QuantityCeiling(Some(p))
    ensures AddStep(cart, p, quantity).outcome == LineAppended
    ensures AddStep(cart, p, quantity).cart == cart + [NewLine(p, quantity)]
  {
    AddAbsentAppends(cart, p, quantity);
  }

  /** `images[selectedImage]?.url || '/placeholder.png'` */
  function MainImage(images: seq<string>, selected: int): (url: string)
    ensures url != ""
    ensures 0 <= selected < |images| && images[selected] != "" ==> url == images[selected]
    ensures !(0 <= selected < |images| && images[selected] != "") ==> url == PlaceholderImage
  {
    if 0 <= selected < |images| && images[selected] != "" then images[selected] else PlaceholderImage
  }

  /** Thumbnails are shown only for more than one image. */
  predicate ThumbnailsShown(images: seq<string>) {
    |images| > 1
  }

  /** Without thumbnails no image can be picked, so on a fresh mount the
      selection is the initial 0 and the main image is the product's only
      image, or the placeholder when it has none or its URL is empty. (A
      selection kept from a previously shown product is not reset; see
      `SetProduct`.) */
  lemma WithoutThumbnailsFirstImage(images: seq<string>)
    requires !ThumbnailsShown(images)
    ensures |images| == 1 && images[0] != "" ==> MainImage(images, 0) == images[0]
    ensures (images == [] || images[0] == "") ==> MainImage(images, 0) == PlaceholderImage
  {
  }

  class ProductDetailsPage {
    var product: Option<Product>
    var quantity: int
    var selectedImage: int

    ghost predicate Valid()
      reads this
    {
      1 <= quantity
    }

    constructor()
      ensures Valid() && product.None? && quantity == 1 && selectedImage == 0
    {
      product := None;
      quantity := 1;
      selectedImage := 0;
    }

    /** A successful product fetch; the quantity and the selected image are
        not reset. */
    method SetProduct(p: Product)
      modifies this
      ensures product == Some(p) && quantity == old(quantity) && selectedImage == old(selectedImage)
    {
      product := Some(p);
    }

    method HandleQuantityChange(change: int)
      requires Valid()
      modifies this
      ensures Valid()
      ensures quantity == StepQuantity(old(quantity), product, change)
      ensures product == old(product) && selectedImage == old(selectedImage)
    {
      var newQuantity := quantity + change;
      if newQuantity >= 1 && newQuantity <= QuantityCeiling(product) {
        quantity := newQuantity;
      }
    }

    /** A thumbnail click. */
    method SelectImage(index: int)
      modifies this
      ensures selectedImage == index && product == old(product) && quantity == old(quantity)
    {
      selectedImage := index;
    }

    /** The cart is asked for the picked quantity only when a product is
        loaded. */
    method HandleAddToCart(cart: CartStore) returns (outcome: Option<AddOutcome>)
      modifies cart
      ensures product.None? ==> outcome.None? && cart.items == old(cart.items)
      ensures product.Some? ==> outcome.Some?
      ensures product.Some? && outcome.Some? ==>
        Change(cart.items, outcome.value) == AddStep(old(cart.items), product.value, quantity)
    {
      if product.Some? {
        var o := cart.AddToCart(product.value, quantity);
        outcome := Some(o);
      } else {
        outcome := None;
      }
    }
  }
}
