/**
 * The static site's cart page (`CartManager` in cart.js): it renders the stored lines with
 * default image and farm, keeps a summary and the header badge in step with the cart, and
 * handles the "+", "−", typed-quantity, remove and checkout controls.
 */
module LegacyCartManager {
  import opened Wrappers
  import opened JsStrings
  import opened CartLines

  const DefaultImage: string :=
    "https://images.unsplash.com/photo-1542838132-92c53300491e?ixlib=rb-4.0.3&auto=format&fit=crop&w=1000&q=80"
  const DefaultFarm: string := "مزارع الوادي"
  const EmptyCartAlert: string := "عربة التسوق فارغة!"
  const CheckoutPage: string := "checkout.html"

  /** `value || fallback` for an optional text field. */
  function OrDefault(value: Option<string>, fallback: string): (r: string)
    ensures value.Some? && value.value != "" ==> r == value.value
    ensures (value.None? || value.value == "") ==> r == fallback
  {
    if value.Some? && value.value != "" then value.value else fallback
  }

  /** One rendered cart row. */
  datatype ItemView = ItemView(product: string, price: real, quantity: int, image: string, farm: string)

  function Row(l: Line): ItemView {
    ItemView(l.product, l.price, l.quantity, OrDefault(l.image, DefaultImage), OrDefault(l.farm, DefaultFarm))
  }

  /** The rows shown for a cart: one per line, in order, never with an empty image or farm. */
  function Render(cart: seq<Line>): (rows: seq<ItemView>)
    ensures |rows| == |cart|
    ensures forall i :: 0 <= i < |cart| ==>
              rows[i].product == cart[i].product && rows[i].price == cart[i].price &&
              rows[i].quantity == cart[i].quantity && rows[i].image != "" && rows[i].farm != ""
  {
    seq(|cart|, i requires 0 <= i < |cart| => Row(cart[i]))
  }

  /** Lines added by the product pages carry no image or farm and so show the defaults. */
  lemma PlainLinesShowDefaults(cart: seq<Line>, i: nat)
    requires i < |cart| && cart[i].image.None? && cart[i].farm.None?
    ensures Render(cart)[i].image == DefaultImage && Render(cart)[i].farm == DefaultFarm
  {
  }

  /** Where the checkout button leads. */
  datatype CheckoutOutcome = Alerted(message: string) | Navigated(page: string)

  class CartManager {
    var cart: seq<Line>
    /** The rendered rows; empty together with the "cart is empty" panel. */
    var rows: seq<ItemView>
    var emptyPanel: bool
    var summary: CartSummary
    /** The header's `.cart-count` badge. */
    var badge: int
    const storage: Storage

    /** What the page shows always matches the cart. */
    ghost predicate Valid()
      reads this
    {
      rows == Render(cart) && emptyPanel == (|cart| == 0) &&
      summary == Summary(cart) && badge == Quantities(cart)
    }

    constructor (storage: Storage)
      ensures this.storage == storage && cart == storage.Load()
      ensures Valid()
    {
      this.storage := storage;
      cart := storage.Load();
      new;
      LoadCart();
    }

    /** Redraws the rows (or the empty panel) and then the summary. */
    method LoadCart()
      modifies this`rows, this`emptyPanel, this`summary, this`badge
      ensures Valid()
    {
      if |cart| == 0 {
        rows := [];
        emptyPanel := true;
        UpdateSummary();
        return;
      }
      rows := Render(cart);
      emptyPanel := false;
      UpdateSummary();
    }

    /** Items count, subtotal, the fixed shipping fee and the total; the badge shows the count. */
    method UpdateSummary()
      modifies this`summary, this`badge
      ensures summary == Summary(cart) && badge == Quantities(cart)
    {
      ReduceQuantitiesIsSum(cart, 0);
      ReduceSubtotalIsSum(cart, 0.0);
      var itemsCount := ReduceQuantities(cart, 0);
      var subtotal := ReduceSubtotal(cart, 0.0);
      var shipping := ShippingFee;
      summary := CartSummary(itemsCount, subtotal, shipping, subtotal + shipping);
      badge := itemsCount;
    }

    method SaveCart()
      modifies storage
      ensures storage.saved == Some(cart)
    {
      storage.saved := Some(cart);
    }

    /**
     * Sets the first line named `product` to `newQuantity`, then saves and redraws; for an
     * unknown name nothing happens, not even a save.
     */
    method UpdateQuantity(product: string, newQuantity: int)
      modifies this`cart, this`rows, this`emptyPanel, this`summary, this`badge, storage
      ensures cart == SetFirstQuantity(old(cart), product, newQuantity)
      ensures FindName(old(cart), product).Some? ==> storage.saved == Some(cart) && Valid()
      ensures FindName(old(cart), product).None? ==>
                storage.saved == old(storage.saved) && (old(Valid()) ==> Valid())
    {
      var found := FindName(cart, product);
      if found.Some? {
        cart := SetFirstQuantity(cart, product, newQuantity);
        SaveCart();
        LoadCart();
      }
    }

    method RemoveItem(product: string)
      modifies this`cart, this`rows, this`emptyPanel, this`summary, this`badge, storage
      ensures cart == WithoutName(old(cart), product)
      ensures storage.saved == Some(cart) && Valid()
    {
      cart := WithoutName(cart, product);
      SaveCart();
      LoadCart();
    }

    /** The "+" control: one more unit of a line that exists. */
    method Increase(product: string)
      modifies this`cart, this`rows, this`emptyPanel, this`summary, this`badge, storage
      ensures FindName(old(cart), product).Some? ==>
                cart == SetFirstQuantity(old(cart), product, old(cart)[FindName(old(cart), product).value].quantity + 1) &&
                storage.saved == Some(cart) && Valid()
      ensures FindName(old(cart), product).None? ==> cart == old(cart) && storage.saved == old(storage.saved)
      ensures old(PositiveQuantities(cart)) ==> PositiveQuantities(cart)
      ensures old(Valid()) ==> Valid()
    {
      var found := FindName(cart, product);
      if found.Some? {
        var q := cart[found.value].quantity + 1;
        if PositiveQuantities(cart) && q >= 1 {
          SetFirstKeepsPositive(cart, product, q);
        }
        UpdateQuantity(product, q);
      }
    }

    /** The "−" control: one unit fewer, and only while the line has more than one. */
    method Decrease(product: string)
      modifies this`cart, this`rows, this`emptyPanel, this`summary, this`badge, storage
      ensures var f := FindName(old(cart), product);
              f.Some? && old(cart)[f.value].quantity > 1 ==>
                cart == SetFirstQuantity(old(cart), product, old(cart)[f.value].quantity - 1) &&
                storage.saved == Some(cart) && Valid()
      ensures var f := FindName(old(cart), product);
              f.None? || old(cart)[f.value].quantity <= 1 ==>
                cart == old(cart) && storage.saved == old(storage.saved)
      ensures old(PositiveQuantities(cart)) ==> PositiveQuantities(cart)
      ensures old(Valid()) ==> Valid()
    {
      var found := FindName(cart, product);
      if found.Some? && cart[found.value].quantity > 1 {
        var q := cart[found.value].quantity - 1;
        if PositiveQuantities(cart) && q >= 1 {
          SetFirstKeepsPositive(cart, product, q);
        }
        UpdateQuantity(product, q);
      }
    }

    /** The typed quantity: applied only when `parseInt` gives a number above zero. */
    method ChangeQuantity(product: string, value: string)
      modifies this`cart, this`rows, this`emptyPanel, this`summary, this`badge, storage
      ensures ParseInt(value).Some? && ParseInt(value).value > 0 ==>
                cart == SetFirstQuantity(old(cart), product, ParseInt(value).value)
      ensures ParseInt(value).Some? && ParseInt(value).value > 0 && FindName(old(cart), product).Some? ==>
                storage.saved == Some(cart) && Valid()
      ensures ParseInt(value).Some? && ParseInt(value).value > 0 && FindName(old(cart), product).None? ==>
                cart == old(cart) && storage.saved == old(storage.saved)
      ensures ParseInt(value).None? || ParseInt(value).value <= 0 ==>
                cart == old(cart) && storage.saved == old(storage.saved)
      ensures old(PositiveQuantities(cart)) ==> PositiveQuantities(cart)
      ensures old(Valid()) ==> Valid()
    {
      var newQuantity := ParseInt(value);
      if newQuantity.Some? && newQuantity.value > 0 {
        if PositiveQuantities(cart) {
          SetFirstKeepsPositive(cart, product, newQuantity.value);
        }
        UpdateQuantity(product, newQuantity.value);
      }
    }

    /** The checkout button: an alert on an empty cart, otherwise the checkout page. */
    method Checkout() returns (outcome: CheckoutOutcome)
      ensures |cart| == 0 <==> outcome == Alerted(EmptyCartAlert)
      ensures |cart| > 0 <==> outcome == Navigated(CheckoutPage)
    {
      if |cart| == 0 {
        return Alerted(EmptyCartAlert);
      }
      return Navigated(CheckoutPage);
    }
  }
}
