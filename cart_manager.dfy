/**
 * The React storefront's shared cart store (`CartManager`): one list of lines and one list of
 * subscribed callbacks; every change is written to the 'cart' storage key and then announced
 * to every subscriber with the current cart. There is no cap on distinct lines here, and
 * setting a quantity below 1 removes the line.
 */
module ReactCartManager {
  import opened Wrappers
  import opened Sequences
  import opened CartLines

  /** A subscribed callback, known by the identity of its function object. */
  type Listener = nat

  /** One callback call made by notify: the listener and the cart it was handed. */
  datatype Delivery = Delivery(listener: Listener, cart: seq<Line>)

  /** The calls one notify makes, in the order it makes them. */
  function Broadcast(listeners: seq<Listener>, cart: seq<Line>): seq<Delivery> {
    if listeners == [] then []
    else Broadcast(listeners[..|listeners| - 1], cart) + [Delivery(listeners[|listeners| - 1], cart)]
  }

  /** Notify calls every current listener exactly once, in subscription order, with the cart. */
  lemma {:induction false} BroadcastCallsEachOnce(listeners: seq<Listener>, cart: seq<Line>)
    ensures |Broadcast(listeners, cart)| == |listeners|
    ensures forall k :: 0 <= k < |listeners| ==> Broadcast(listeners, cart)[k] == Delivery(listeners[k], cart)
  {
    if listeners != [] {
      var init := listeners[..|listeners| - 1];
      BroadcastCallsEachOnce(init, cart);
      forall k | 0 <= k < |listeners| - 1
        ensures Broadcast(listeners, cart)[k] == Delivery(listeners[k], cart)
      {
        assert init[k] == listeners[k];
      }
    }
  }

  /** Unsubscribing a listener subscribed once restores the listener list from before. */
  lemma UnsubscribeUndoesSubscribe(listeners: seq<Listener>, listener: Listener)
    requires listener !in listeners
    ensures Without(listeners + [listener], listener) == listeners
  {
    FilterDropsMiddle(listeners, listener, [], Differs(listener));
    assert listeners + [listener] + [] == listeners + [listener];
  }

  /**
   * Unsubscribing removes every registration of that listener and keeps all the others in
   * their order.
   */
  lemma UnsubscribeKeepsOthers(listeners: seq<Listener>, listener: Listener)
    ensures listener !in Without(listeners, listener)
    ensures forall y :: y != listener ==> (y in Without(listeners, listener) <==> y in listeners)
    ensures SubsequenceOf(Without(listeners, listener), listeners)
  {
    FilterIsSubsequence(listeners, Differs(listener));
    var r := Without(listeners, listener);
    forall y | y != listener && y in listeners ensures y in r {
      var k :| 0 <= k < |listeners| && listeners[k] == y;
    }
  }

  class CartManager {
    var cart: seq<Line>
    var listeners: seq<Listener>
    /** Every listener call made so far, oldest first. */
    var deliveries: seq<Delivery>
    const storage: Storage

    /** The store's invariant: one line per product name, each with at least one unit. */
    ghost predicate Consistent()
      reads this
    {
      UniqueNames(cart) && PositiveQuantities(cart)
    }

    /** Starts from the stored cart, or the empty cart when the key is absent. */
    constructor (storage: Storage)
      ensures this.storage == storage
      ensures cart == storage.Load() && listeners == [] && deliveries == []
    {
      this.storage := storage;
      cart := storage.Load();
      listeners := [];
      deliveries := [];
    }

    method Subscribe(listener: Listener)
      modifies this`listeners
      ensures listeners == old(listeners) + [listener]
    {
      listeners := listeners + [listener];
    }

    /** The function subscribe returns. */
    method Unsubscribe(listener: Listener)
      modifies this`listeners
      ensures listeners == Without(old(listeners), listener)
    {
      listeners := Without(listeners, listener);
    }

    method Notify()
      modifies this`deliveries
      ensures deliveries == old(deliveries) + Broadcast(listeners, cart)
    {
      var i := 0;
      while i < |listeners|
        invariant 0 <= i <= |listeners|
        invariant deliveries == old(deliveries) + Broadcast(listeners[..i], cart)
      {
        assert listeners[..i + 1][..i] == listeners[..i];
        deliveries := deliveries + [Delivery(listeners[i], cart)];
        i := i + 1;
      }
      assert listeners[..|listeners|] == listeners;
    }

    method SaveCart()
      modifies storage
      ensures storage.saved == Some(cart)
    {
      storage.saved := Some(cart);
    }

    /**
     * Adds one unit of `product`: an existing line with that name gains one unit, otherwise
     * a new one-unit line is appended. Always succeeds.
     */
    method AddItem(product: string, price: real, image: string, farm: string) returns (ok: bool)
      modifies this`cart, this`deliveries, storage
      ensures ok
      ensures cart == IncrementOrAppend(old(cart), Line(product, None, price, 1, Some(image), Some(farm)))
      ensures storage.saved == Some(cart)
      ensures deliveries == old(deliveries) + Broadcast(listeners, cart)
      ensures old(Consistent()) ==> Consistent()
    {
      var added := Line(product, None, price, 1, Some(image), Some(farm));
      IncrementOrAppendKeepsInvariants(cart, added);
      match FindName(cart, product) {
        case Some(i) =>
          cart := cart[i := cart[i].(quantity := cart[i].quantity + 1)];
        case None =>
          cart := cart + [added];
      }
      SaveCart();
      Notify();
      ok := true;
    }

    /**
     * Below 1 the call is a removal; otherwise the first line with that name takes the new
     * quantity, and an absent name changes, saves and announces nothing.
     */
    method UpdateQuantity(product: string, newQuantity: int)
      modifies this`cart, this`deliveries, storage
      ensures newQuantity < 1 ==>
                cart == WithoutName(old(cart), product) && storage.saved == Some(cart) &&
                deliveries == old(deliveries) + Broadcast(listeners, cart)
      ensures newQuantity >= 1 && FindName(old(cart), product).None? ==>
                cart == old(cart) && storage.saved == old(storage.saved) && deliveries == old(deliveries)
      ensures newQuantity >= 1 && FindName(old(cart), product).Some? ==>
                cart == SetFirstQuantity(old(cart), product, newQuantity) && storage.saved == Some(cart) &&
                deliveries == old(deliveries) + Broadcast(listeners, cart)
      ensures old(Consistent()) ==> Consistent()
    {
      if newQuantity < 1 {
        RemoveItem(product);
        return;
      }
      SetFirstQuantityEffect(cart, product, newQuantity);
      match FindName(cart, product) {
        case Some(i) =>
          cart := cart[i := cart[i].(quantity := newQuantity)];
          SaveCart();
          Notify();
        case None =>
      }
    }

    /** Drops every line with that name, then saves and announces. */
    method RemoveItem(product: string)
      modifies this`cart, this`deliveries, storage
      ensures cart == WithoutName(old(cart), product) && storage.saved == Some(cart)
      ensures deliveries == old(deliveries) + Broadcast(listeners, cart)
      ensures old(Consistent()) ==> Consistent()
    {
      RemoveKeepsInvariants(cart, product);
      cart := WithoutName(cart, product);
      SaveCart();
      Notify();
    }

    method ClearCart()
      modifies this`cart, this`deliveries, storage
      ensures cart == [] && storage.saved == Some([])
      ensures deliveries == old(deliveries) + Broadcast(listeners, [])
      ensures Consistent()
    {
      cart := [];
      SaveCart();
      Notify();
    }

    /** Σ price × quantity. */
    method GetCartTotal() returns (total: real)
      ensures total == Subtotal(cart)
    {
      ReduceSubtotalIsSum(cart, 0.0);
      total := ReduceSubtotal(cart, 0.0);
    }

    /** Σ quantity; at least the number of lines while the store is consistent. */
    method GetItemsCount() returns (count: int)
      ensures count == Quantities(cart)
      ensures Consistent() ==> count >= |cart|
    {
      ReduceQuantitiesIsSum(cart, 0);
      if Consistent() {
        QuantitiesAtLeastLines(cart);
      }
      count := ReduceQuantities(cart, 0);
    }

    /** A copy of the line list, equal to the cart. */
    method GetCartItems() returns (items: seq<Line>)
      ensures items == cart
    {
      items := cart[..];
    }
  }

  /**
   * Adding "Dates" at 45 twice to an empty store gives one line of two units, a subtotal
   * of 90 and, with shipping, a total of 105; a subscriber hears of both additions.
   */
  method DatesTwice() returns (store: CartManager)
    ensures |store.cart| == 1 && store.cart[0].product == "Dates" && store.cart[0].quantity == 2
    ensures Subtotal(store.cart) == 90.0 && Summary(store.cart).total == 105.0
    ensures |store.deliveries| == 2 && store.deliveries[1] == Delivery(7, store.cart)
  {
    var storage := new Storage(None);
    store := new CartManager(storage);
    store.Subscribe(7);
    var ok := store.AddItem("Dates", 45.0, "", "");
    ok := store.AddItem("Dates", 45.0, "", "");
    BroadcastCallsEachOnce([7], store.cart);
  }
}
