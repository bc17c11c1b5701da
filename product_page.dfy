/** The product page: the quantity selector, the image gallery, the stock label and the
    add-to-cart button for one product. */
module ProductView {
  import opened Wrappers
  import opened Text
  import opened Types
  import CartHook

  /** The stock the quantity selector allows: the product's inventory, or none while no
      product is loaded. */
  function AvailableStock(product: Option<Product>): (n: int)
    ensures product.None? ==> n == 0
    ensures product.Some? ==> n == product.value.inventory
  {
    if product.Some? then product.value.inventory else 0
  }

  /** A quantity the selector may hold. */
  predicate QuantityInRange(quantity: int, product: Option<Product>) {
    1 <= quantity <= AvailableStock(product)
  }

  /** A product is out of stock when its inventory is not positive. */
  predicate IsOutOfStock(p: Product) {
    p.inventory <= 0
  }

  const LowStockLimit: int := 10

  /** The stock label: "In Stock" above ten, "Only n left" from one to ten, "Out of Stock"
      otherwise. */
  function StockLabel(inventory: int): (shown: string)
    ensures inventory > LowStockLimit ==> shown == "In Stock"
    ensures 0 < inventory <= LowStockLimit ==> shown == "Only " + Decimal(inventory) + " left"
    ensures inventory <= 0 ==> shown == "Out of Stock"
  {
    if inventory > LowStockLimit then "In Stock"
    else if inventory > 0 then "Only " + Decimal(inventory) + " left"
    else "Out of Stock"
  }

  /** The label says "Out of Stock" exactly for a product that is out of stock, and names the
      count only when stock is low. */
  lemma StockLabelMatchesStock(p: Product)
    ensures StockLabel(p.inventory) == "Out of Stock" <==> IsOutOfStock(p)
    ensures StockLabel(p.inventory)[..5] == "Only " <==> 0 < p.inventory <= LowStockLimit
  {
    var shown := StockLabel(p.inventory);
    if 0 < p.inventory <= LowStockLimit {
      assert shown[1] == 'n';
      assert shown[..5] == "Only ";
    } else if p.inventory > LowStockLimit {
      assert shown[1] == 'n' && shown[0] == 'I';
    } else {
      assert shown[0] == 'O' && shown[1] == 'u';
    }
  }

  /** The cart line the add-to-cart button sends: the product's first image, if it has any. */
  function CartLine(p: Product): (c: CartHook.CartProduct)
    ensures c.product_id == p.id && c.title == p.title && c.price == p.price && c.unit == p.unit
    ensures |p.images| > 0 ==> c.image_url == Some(p.images[0])
    ensures |p.images| == 0 ==> c.image_url.None?
  {
    CartHook.CartProduct(p.id, p.title, p.price, p.unit,
                         if |p.images| > 0 then Some(p.images[0]) else None)
  }

  /** The page's loaded product, selected quantity and selected image. */
  class ProductPage {
    var product: Option<Product>
    var quantity: int
    var selectedImageIndex: int

    constructor(p: Option<Product>)
      ensures product == p && quantity == 1 && selectedImageIndex == 0
    {
      product := p;
      quantity := 1;
      selectedImageIndex := 0;
    }

    /** The selector's invariant: a quantity the stock allows. */
    predicate QuantityValid()
      reads this
    {
      QuantityInRange(quantity, product)
    }

    /** `handleQuantityChange(change)`: the new quantity is taken only when the stock allows
        it, so a valid quantity stays valid, and with no product loaded nothing changes. */
    method HandleQuantityChange(change: int)
      modifies this
      ensures QuantityInRange(old(quantity) + change, product) ==>
        quantity == old(quantity) + change
      ensures !QuantityInRange(old(quantity) + change, product) ==> quantity == old(quantity)
      ensures old(QuantityValid()) ==> QuantityValid()
      ensures product.None? ==> quantity == old(quantity)
      ensures product == old(product) && selectedImageIndex == old(selectedImageIndex)
    {
      var newQuantity := quantity + change;
      if newQuantity >= 1 && newQuantity <= AvailableStock(product) {
        quantity := newQuantity;
      }
    }

    /** The gallery's invariant: the index is never negative, and points at an image when
        the product has any. */
    predicate IndexValid()
      reads this
    {
      0 <= selectedImageIndex &&
      (product.Some? && |product.value.images| > 0 ==>
         selectedImageIndex < |product.value.images|)
    }

    /** `nextImage()`: one image on, unless the last one is shown. */
    method NextImage()
      modifies this
      ensures product.Some? && old(selectedImageIndex) < |product.value.images| - 1 ==>
        selectedImageIndex == old(selectedImageIndex) + 1
      ensures !(product.Some? && old(selectedImageIndex) < |product.value.images| - 1) ==>
        selectedImageIndex == old(selectedImageIndex)
      ensures old(IndexValid()) ==> IndexValid()
      ensures product == old(product) && quantity == old(quantity)
    {
      if product.Some? && selectedImageIndex < |product.value.images| - 1 {
        selectedImageIndex := selectedImageIndex + 1;
      }
    }

    /** `prevImage()`: one image back, unless the first one is shown. */
    method PrevImage()
      modifies this
      ensures old(selectedImageIndex) > 0 ==> selectedImageIndex == old(selectedImageIndex) - 1
      ensures old(selectedImageIndex) <= 0 ==> selectedImageIndex == old(selectedImageIndex)
      ensures old(selectedImageIndex) >= 0 ==> selectedImageIndex >= 0
      ensures old(IndexValid()) ==> IndexValid()
      ensures product == old(product) && quantity == old(quantity)
    {
      if selectedImageIndex > 0 {
        selectedImageIndex := selectedImageIndex - 1;
      }
    }

    /** `handleAddToCart()`: the product's line with the selected quantity goes to the cart;
        with no product loaded the cart is left alone. */
    method HandleAddToCart(cart: CartHook.Cart)
      requires cart.Valid()
      modifies cart
      ensures product.Some? ==>
        cart.items == CartHook.WithAdded(old(cart.items), CartLine(product.value), quantity)
      ensures product.None? ==> cart.items == old(cart.items)
      ensures cart.Valid()
    {
      if product.None? {
        return;
      }
      cart.AddItem(CartLine(product.value), quantity);
    }
  }
}
