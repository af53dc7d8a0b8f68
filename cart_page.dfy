/**
 * The React cart page: it repairs corrupted stored lines on load, changes and removes lines
 * with `map`/`filter` (writing each result back to storage), shows the summary, keeps the
 * quantity controls at 1 or more, and submits the order.
 */
module CartPage {
  import opened Wrappers
  import opened JsStrings
  import opened CartLines

  /** The stored `product` field: a name, or (a known corruption) a whole catalog object. */
  datatype StoredProduct = Named(name: string) | Nested(id: Option<int>, name: string)

  /** A line as it may be found in storage before the page repairs it. */
  datatype StoredLine = StoredLine(product: StoredProduct, productId: Option<int>, price: real,
                                   quantity: int, image: Option<string>, farm: Option<string>)

  /**
   * The load-time repair of one line: a nested product object gives its name to `product`
   * and its id to `product_id`; every other field is kept.
   */
  function SanitiseLine(item: StoredLine): Line {
    match item.product
    case Nested(id, name) => Line(name, id, item.price, item.quantity, item.image, item.farm)
    case Named(name) => Line(name, item.productId, item.price, item.quantity, item.image, item.farm)
  }

  function Sanitise(saved: seq<StoredLine>): (r: seq<Line>)
    ensures |r| == |saved|
  {
    seq(|saved|, i requires 0 <= i < |saved| => SanitiseLine(saved[i]))
  }

  /** A repaired line as it is written back: `product` is a plain name. */
  function Embed(l: Line): StoredLine {
    StoredLine(Named(l.product), l.productId, l.price, l.quantity, l.image, l.farm)
  }

  function EmbedAll(cart: seq<Line>): (r: seq<StoredLine>)
    ensures |r| == |cart|
  {
    seq(|cart|, i requires 0 <= i < |cart| => Embed(cart[i]))
  }

  /** Lines whose product is already a name come through the repair unchanged. */
  lemma SanitiseRoundTrip(cart: seq<Line>)
    ensures Sanitise(EmbedAll(cart)) == cart
  {
    var r := Sanitise(EmbedAll(cart));
    forall i | 0 <= i < |cart| ensures r[i] == cart[i] {
      assert EmbedAll(cart)[i] == Embed(cart[i]);
    }
  }

  /** Repairing what the page wrote back changes nothing: the repair is idempotent. */
  lemma SanitiseIdempotent(saved: seq<StoredLine>)
    ensures Sanitise(EmbedAll(Sanitise(saved))) == Sanitise(saved)
  {
    SanitiseRoundTrip(Sanitise(saved));
  }

  /** A nested product object is flattened without losing its id, its name or any other field. */
  lemma SanitiseFlattensNested(saved: seq<StoredLine>, i: nat)
    requires i < |saved| && saved[i].product.Nested?
    ensures Embed(Sanitise(saved)[i]) ==
            saved[i].(product := Named(saved[i].product.name), productId := saved[i].product.id)
  {
  }

  /** The fixed shipping fee the page adds to every order total. */
  lemma EmptyCartTotalIsShipping()
    ensures Summary([]).total == ShippingFee && Summary([]).itemsCount == 0
  {
  }

  // ---------------------------------------------------------------- quantity controls

  /** `Math.max(1, q)`. */
  function AtLeastOne(q: int): int {
    if q < 1 then 1 else q
  }

  /** The quantity the "−" button asks for. */
  function DecrementTarget(quantity: int): (q: int)
    ensures q >= 1
    ensures quantity > 1 ==> q == quantity - 1
  {
    AtLeastOne(quantity - 1)
  }

  /** The quantity typed text asks for: `Math.max(1, parseInt(value) || 1)`. */
  function TypedTarget(value: string): (q: int)
    ensures q >= 1
    ensures ParseInt(value).None? ==> q == 1
    ensures ParseInt(value).Some? && ParseInt(value).value >= 1 ==> q == ParseInt(value).value
  {
    var parsed := ParseInt(value);
    AtLeastOne(if parsed.Some? && parsed.value != 0 then parsed.value else 1)
  }

  /** Typing a number of at least 1, whatever non-digit text follows, sets exactly that number. */
  lemma TypedNumberIsKept(n: nat, suffix: string)
    requires n >= 1 && (suffix == [] || !IsDigit(suffix[0]))
    ensures TypedTarget(DecimalString(n) + suffix) == n
  {
    ParseIntDecimal(n, suffix);
  }

  // ---------------------------------------------------------------- the order

  /** One entry of the order request's `items`. */
  datatype OrderItem = OrderItem(product: int, quantity: int, price: real)

  /** `item.product_id || 1`: a missing or zero id is sent as product 1. */
  function OrderProduct(l: Line): int {
    if l.productId.Some? && l.productId.value != 0 then l.productId.value else 1
  }

  function OrderPayload(cart: seq<Line>): (items: seq<OrderItem>)
    ensures |items| == |cart|
  {
    seq(|cart|, i requires 0 <= i < |cart| => OrderItem(OrderProduct(cart[i]), cart[i].quantity, cart[i].price))
  }

  function OrderUnits(items: seq<OrderItem>): int {
    if items == [] then 0 else items[0].quantity + OrderUnits(items[1..])
  }

  function OrderValue(items: seq<OrderItem>): real {
    if items == [] then 0.0 else items[0].price * items[0].quantity as real + OrderValue(items[1..])
  }

  /**
   * The order carries one item per line, in order, with the line's quantity and price, so it
   * holds the cart's unit count and its subtotal.
   */
  lemma {:induction false} PayloadKeepsTotals(cart: seq<Line>)
    ensures OrderUnits(OrderPayload(cart)) == Quantities(cart)
    ensures OrderValue(OrderPayload(cart)) == Subtotal(cart)
    ensures forall i :: 0 <= i < |cart| ==>
              OrderPayload(cart)[i].quantity == cart[i].quantity && OrderPayload(cart)[i].price == cart[i].price
  {
    if cart != [] {
      PayloadKeepsTotals(cart[1..]);
      assert OrderPayload(cart)[1..] == OrderPayload(cart[1..]);
    }
  }

  /** `localStorage.getItem('access_token')` is truthy: present and not ''. */
  predicate HasToken(token: Option<string>) {
    token.Some? && token.value != ""
  }

  /** What pressing checkout leads to before any request is sent. */
  datatype Gate = NeedsLogin | EmptyCart | Submit(items: seq<OrderItem>)

  function CheckoutGate(token: Option<string>, cart: seq<Line>): Gate {
    if !HasToken(token) then NeedsLogin
    else if |cart| == 0 then EmptyCart
    else Submit(OrderPayload(cart))
  }

  /**
   * The gate looks only at the token and at whether the cart is empty: a signed-in user with
   * more than ten units in the cart is not held back.
   */
  lemma GateIgnoresUnitCount(token: Option<string>, cart: seq<Line>)
    requires HasToken(token) && Quantities(cart) > 10
    ensures CheckoutGate(token, cart) == Submit(OrderPayload(cart))
  {
  }

  /**
   * The backend's answer to the order request. `Unreachable` is any answer that ends in the
   * catch: a failed fetch, or a response whose body `.json()` cannot read, on success or error.
   */
  datatype OrderResponse = Created(orderId: int) | Refused(error: Option<string>) | Unreachable

  datatype CheckoutResult =
    | LoginRequired
    | NothingToOrder
    | Placed(orderId: int)
    /** The alert shows the server's `error`, or the raw response when it has none. */
    | OrderFailed(error: Option<string>)
    | ConnectionFailed

  class CartView {
    var cart: seq<Line>
    const storage: Storage

    /** Loads the stored lines (`raw`, None when the key is absent), repairs them and saves the result. */
    constructor (storage: Storage, raw: Option<seq<StoredLine>>)
      modifies storage
      ensures this.storage == storage
      ensures cart == Sanitise(if raw.Some? then raw.value else [])
      ensures storage.saved == Some(cart)
    {
      this.storage := storage;
      var savedCart := if raw.Some? then raw.value else [];
      cart := Sanitise(savedCart);
      new;
      storage.saved := Some(cart);
    }

    /** Every line named `product` takes the new quantity; nothing else changes. */
    method UpdateQuantity(product: string, newQuantity: int)
      modifies this`cart, storage
      ensures cart == SetAllQuantities(old(cart), product, newQuantity)
      ensures storage.saved == Some(cart)
    {
      cart := SetAllQuantities(cart, product, newQuantity);
      storage.saved := Some(cart);
    }

    method RemoveItem(product: string)
      modifies this`cart, storage
      ensures cart == WithoutName(old(cart), product)
      ensures storage.saved == Some(cart)
    {
      cart := WithoutName(cart, product);
      storage.saved := Some(cart);
    }

    /** The "−" button of the line at `i`; the line count and positivity are kept. */
    method Decrement(i: nat)
      requires i < |cart|
      modifies this`cart, storage
      ensures cart == SetAllQuantities(old(cart), old(cart)[i].product, DecrementTarget(old(cart)[i].quantity))
      ensures storage.saved == Some(cart)
      ensures old(PositiveQuantities(cart)) ==> PositiveQuantities(cart)
    {
      UpdateQuantity(cart[i].product, DecrementTarget(cart[i].quantity));
    }

    /** The quantity field of the line at `i` after typing `value`. */
    method TypeQuantity(i: nat, value: string)
      requires i < |cart|
      modifies this`cart, storage
      ensures cart == SetAllQuantities(old(cart), old(cart)[i].product, TypedTarget(value))
      ensures storage.saved == Some(cart)
      ensures old(PositiveQuantities(cart)) ==> PositiveQuantities(cart)
    {
      UpdateQuantity(cart[i].product, TypedTarget(value));
    }

    /** The "+" button of the line at `i`. */
    method Increment(i: nat)
      requires i < |cart|
      modifies this`cart, storage
      ensures cart == SetAllQuantities(old(cart), old(cart)[i].product, old(cart)[i].quantity + 1)
      ensures storage.saved == Some(cart)
    {
      UpdateQuantity(cart[i].product, cart[i].quantity + 1);
    }

    /**
     * The checkout button: without a token or with an empty cart nothing is sent and
     * nothing changes; otherwise the payload is sent, and only a created order empties the
     * cart and removes the storage key.
     */
    method Checkout(token: Option<string>, response: OrderResponse)
      returns (result: CheckoutResult, request: Option<seq<OrderItem>>)
      modifies this`cart, storage
      ensures CheckoutGate(token, old(cart)) == NeedsLogin ==>
                result == LoginRequired && request == None && cart == old(cart) && storage.saved == old(storage.saved)
      ensures CheckoutGate(token, old(cart)) == EmptyCart ==>
                result == NothingToOrder && request == None && cart == old(cart) && storage.saved == old(storage.saved)
      ensures CheckoutGate(token, old(cart)).Submit? ==> request == Some(OrderPayload(old(cart)))
      ensures CheckoutGate(token, old(cart)).Submit? && response.Created? ==>
                result == Placed(response.orderId) && cart == [] && storage.saved == None
      ensures CheckoutGate(token, old(cart)).Submit? && !response.Created? ==>
                cart == old(cart) && storage.saved == old(storage.saved) &&
                result == (if response.Refused? then
                             OrderFailed(if response.error.Some? && response.error.value != "" then response.error else None)
                           else ConnectionFailed)
    {
      if !HasToken(token) {
        return LoginRequired, None;
      }
      if |cart| == 0 {
        return NothingToOrder, None;
      }
      request := Some(OrderPayload(cart));
      match response {
        case Created(orderId) =>
          cart := [];
          storage.saved := None;
          result := Placed(orderId);
        case Refused(error) =>
          result := OrderFailed(if error.Some? && error.value != "" then error else None);
        case Unreachable =>
          result := ConnectionFailed;
      }
    }
  }
}
