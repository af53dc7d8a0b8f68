/**
 * The static site's `ShoppingCart` (product pages): lines of name, price and quantity kept in
 * the shared 'cart' key, a header badge showing the unit count, and a confirmation notice per
 * addition. Lines it creates carry no product id, image or farm.
 */
module LegacyShoppingCart {
  import opened Wrappers
  import opened CartLines

  /** The confirmation shown after adding `product`. */
  function AddedNotice(product: string): string {
    product + " تمت الإضافة إلى السلة"
  }

  /** The line this cart appends for a product it has not seen. */
  function PlainLine(product: string, price: real): Line {
    Line(product, None, price, 1, None, None)
  }

  /**
   * This cart and the React store add a product to the same stored cart with the same effect
   * on names, prices and quantities; they differ only in the image and farm of a new line.
   */
  lemma AddAgreesWithReactStore(cart: seq<Line>, product: string, price: real, image: string, farm: string)
    ensures var plain := IncrementOrAppend(cart, PlainLine(product, price));
            var rich := IncrementOrAppend(cart, Line(product, None, price, 1, Some(image), Some(farm)));
            |plain| == |rich| &&
            (forall i :: 0 <= i < |plain| ==>
               plain[i].product == rich[i].product && plain[i].price == rich[i].price &&
               plain[i].quantity == rich[i].quantity) &&
            Quantities(plain) == Quantities(rich) && Subtotal(plain) == Subtotal(rich)
  {
    var plainLine := PlainLine(product, price);
    var richLine := Line(product, None, price, 1, Some(image), Some(farm));
    match FindName(cart, product)
    case Some(i) =>
      IncrementExisting(cart, plainLine, i);
      IncrementExisting(cart, richLine, i);
    case None =>
      AppendNew(cart, plainLine);
      AppendNew(cart, richLine);
  }

  class ShoppingCart {
    var items: seq<Line>
    /** The text of the header's `.cart-count` badge. */
    var badge: int
    /** Every confirmation shown so far, oldest first. */
    var notices: seq<string>
    const storage: Storage

    /** The badge always shows the cart's unit count. */
    ghost predicate Valid()
      reads this
    {
      badge == Quantities(items)
    }

    constructor (storage: Storage)
      ensures this.storage == storage
      ensures items == storage.Load() && notices == []
      ensures Valid()
    {
      this.storage := storage;
      items := storage.Load();
      notices := [];
      ReduceQuantitiesIsSum(storage.Load(), 0);
      badge := ReduceQuantities(storage.Load(), 0);
    }

    /** Σ quantity over the lines. */
    method GetTotalItems() returns (total: int)
      ensures total == Quantities(items)
    {
      ReduceQuantitiesIsSum(items, 0);
      total := ReduceQuantities(items, 0);
    }

    /** Σ price × quantity over the lines. */
    method GetTotalPrice() returns (total: real)
      ensures total == Subtotal(items)
    {
      ReduceSubtotalIsSum(items, 0.0);
      total := ReduceSubtotal(items, 0.0);
    }

    method SaveCart()
      modifies storage
      ensures storage.saved == Some(items)
    {
      storage.saved := Some(items);
    }

    method UpdateCartCount()
      modifies this`badge
      ensures Valid()
    {
      badge := GetTotalItems();
    }

    /**
     * One more unit of `product`: its line gains a unit, or a one-unit line without id, image
     * or farm is appended; then the cart is saved, the badge refreshed and a notice shown.
     */
    method AddItem(product: string, price: real)
      modifies this`items, this`badge, this`notices, storage
      ensures items == IncrementOrAppend(old(items), PlainLine(product, price))
      ensures storage.saved == Some(items)
      ensures notices == old(notices) + [AddedNotice(product)]
      ensures Valid()
    {
      items := IncrementOrAppend(items, PlainLine(product, price));
      SaveCart();
      UpdateCartCount();
      notices := notices + [AddedNotice(product)];
    }

    /** Drops every line named `product`, saves and refreshes the badge. */
    method RemoveItem(product: string)
      modifies this`items, this`badge, storage
      ensures items == WithoutName(old(items), product)
      ensures storage.saved == Some(items)
      ensures Valid()
    {
      items := WithoutName(items, product);
      SaveCart();
      UpdateCartCount();
    }
  }

  /** Adding the same product twice leaves one line of two units and a badge of 2. */
  method AddTwice() returns (shop: ShoppingCart)
    ensures |shop.items| == 1 && shop.items[0] == Line("Honey", None, 60.0, 2, None, None)
    ensures shop.badge == 2 && |shop.notices| == 2
  {
    var storage := new Storage(None);
    shop := new ShoppingCart(storage);
    shop.AddItem("Honey", 60.0);
    shop.AddItem("Honey", 60.0);
    assert shop.items == [Line("Honey", None, 60.0, 2, None, None)];
    assert Quantities(shop.items[1..]) == 0;
  }
}
