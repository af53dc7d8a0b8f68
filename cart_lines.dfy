/**
 * The cart line shared by every cart implementation of the storefront, the browser's 'cart'
 * storage key they all read and write, and the list operations they have in common: the
 * quantity and price sums, lookup of a line by product name, removal by name, and the
 * two ways of changing a quantity.
 */
module CartLines {
  import opened Wrappers
  import opened Sequences

  /**
   * One object of the stored JSON array: the product's display name, its catalog id when the
   * writer recorded one, the unit price, the quantity, and the image and farm fields that
   * some writers add.
   */
  datatype Line = Line(product: string, productId: Option<int>, price: real, quantity: int,
                       image: Option<string>, farm: Option<string>)

  /** The browser's durable 'cart' key; None while the key is absent. */
  class Storage {
    var saved: Option<seq<Line>>

    constructor (saved: Option<seq<Line>>)
      ensures this.saved == saved
    {
      this.saved := saved;
    }

    /** `JSON.parse(localStorage.getItem('cart')) || []`. */
    function Load(): seq<Line>
      reads this
    {
      if saved.Some? then saved.value else []
    }
  }

  // ---------------------------------------------------------------- invariants

  /** At most one line per product name. */
  predicate UniqueNames(cart: seq<Line>) {
    forall i, j :: 0 <= i < j < |cart| ==> cart[i].product != cart[j].product
  }

  /** Every line holds at least one unit. */
  predicate PositiveQuantities(cart: seq<Line>) {
    forall i :: 0 <= i < |cart| ==> cart[i].quantity >= 1
  }

  // ---------------------------------------------------------------- sums

  /** Σ quantity over the lines. */
  function Quantities(cart: seq<Line>): int {
    if cart == [] then 0 else cart[0].quantity + Quantities(cart[1..])
  }

  /** One line's price × quantity. */
  function LineTotal(l: Line): real {
    l.price * l.quantity as real
  }

  /** Σ price × quantity over the lines. */
  function Subtotal(cart: seq<Line>): real {
    if cart == [] then 0.0 else LineTotal(cart[0]) + Subtotal(cart[1..])
  }

  /** `cart.reduce((total, item) => total + item.quantity, acc)`, folding from the left. */
  function ReduceQuantities(cart: seq<Line>, acc: int): int {
    if cart == [] then acc else ReduceQuantities(cart[1..], acc + cart[0].quantity)
  }

  /** `cart.reduce((total, item) => total + item.price * item.quantity, acc)`. */
  function ReduceSubtotal(cart: seq<Line>, acc: real): real {
    if cart == [] then acc else ReduceSubtotal(cart[1..], acc + LineTotal(cart[0]))
  }

  lemma {:induction false} ReduceQuantitiesIsSum(cart: seq<Line>, acc: int)
    ensures ReduceQuantities(cart, acc) == acc + Quantities(cart)
  {
    if cart != [] {
      ReduceQuantitiesIsSum(cart[1..], acc + cart[0].quantity);
    }
  }

  lemma {:induction false} ReduceSubtotalIsSum(cart: seq<Line>, acc: real)
    ensures ReduceSubtotal(cart, acc) == acc + Subtotal(cart)
  {
    if cart != [] {
      ReduceSubtotalIsSum(cart[1..], acc + LineTotal(cart[0]));
    }
  }

  lemma {:induction false} SumsAppend(a: seq<Line>, b: seq<Line>)
    ensures Quantities(a + b) == Quantities(a) + Quantities(b)
    ensures Subtotal(a + b) == Subtotal(a) + Subtotal(b)
  {
    if a == [] {
      assert a + b == b;
    } else {
      assert (a + b)[0] == a[0] && (a + b)[1..] == a[1..] + b;
      SumsAppend(a[1..], b);
    }
  }

  /** Replacing one line changes each sum by that line's difference only. */
  lemma {:induction false} SumsUpdate(cart: seq<Line>, i: nat, l: Line)
    requires i < |cart|
    ensures Quantities(cart[i := l]) == Quantities(cart) - cart[i].quantity + l.quantity
    ensures Subtotal(cart[i := l]) ==
            Subtotal(cart) - LineTotal(cart[i]) + LineTotal(l)
  {
    if i > 0 {
      assert cart[i := l][1..] == cart[1..][i - 1 := l];
      SumsUpdate(cart[1..], i - 1, l);
    } else {
      assert cart[i := l][1..] == cart[1..];
    }
  }

  /** With every quantity at least 1, the unit count is at least the line count. */
  lemma {:induction false} QuantitiesAtLeastLines(cart: seq<Line>)
    requires PositiveQuantities(cart)
    ensures Quantities(cart) >= |cart|
  {
    if cart != [] {
      QuantitiesAtLeastLines(cart[1..]);
    }
  }

  // ---------------------------------------------------------------- summary

  /** The summary both cart pages show: units, subtotal, a fixed shipping fee and the total. */
  datatype CartSummary = CartSummary(itemsCount: int, subtotal: real, shipping: real, total: real)

  /** The fixed shipping fee, 15 currency units. */
  const ShippingFee: real := 15.0

  /** The summary's reduces agree with the sums, and the total always includes the fee. */
  function Summary(cart: seq<Line>): (s: CartSummary)
    ensures s.itemsCount == Quantities(cart) && s.subtotal == Subtotal(cart)
    ensures s.shipping == ShippingFee && s.total == Subtotal(cart) + ShippingFee
  {
    ReduceQuantitiesIsSum(cart, 0);
    ReduceSubtotalIsSum(cart, 0.0);
    var subtotal := ReduceSubtotal(cart, 0.0);
    CartSummary(ReduceQuantities(cart, 0), subtotal, ShippingFee, subtotal + ShippingFee)
  }

  // ---------------------------------------------------------------- lookup and removal

  /** `cart.find(item => item.product === name)`, as the position of the first such line. */
  function FindName(cart: seq<Line>, name: string): (r: Option<nat>)
    ensures r.Some? ==> r.value < |cart| && cart[r.value].product == name
    ensures r.Some? ==> forall j :: 0 <= j < r.value ==> cart[j].product != name
    ensures r.None? <==> forall j :: 0 <= j < |cart| ==> cart[j].product != name
  {
    if cart == [] then None
    else if cart[0].product == name then Some(0)
    else match FindName(cart[1..], name)
      case Some(k) => Some(k + 1)
      case None => None
  }

  /** The test `item => item.product !== name`. */
  function OtherName(name: string): Line -> bool {
    (l: Line) => l.product != name
  }

  /** `cart.filter(item => item.product !== name)`. */
  function WithoutName(cart: seq<Line>, name: string): seq<Line> {
    Filter(cart, OtherName(name))
  }

  /** Removal by name drops exactly the lines with that name and keeps the rest in order. */
  lemma WithoutNameDropsExactly(cart: seq<Line>, name: string)
    ensures forall i :: 0 <= i < |WithoutName(cart, name)| ==>
              WithoutName(cart, name)[i].product != name && WithoutName(cart, name)[i] in cart
    ensures forall i :: 0 <= i < |cart| && cart[i].product != name ==> cart[i] in WithoutName(cart, name)
    ensures SubsequenceOf(WithoutName(cart, name), cart)
    ensures FindName(WithoutName(cart, name), name).None?
  {
    FilterIsSubsequence(cart, OtherName(name));
  }

  /** Removing an absent name changes nothing. */
  lemma RemoveAbsentName(cart: seq<Line>, name: string)
    requires FindName(cart, name).None?
    ensures WithoutName(cart, name) == cart
  {
    FilterAllPass(cart, OtherName(name));
  }

  /** In a cart with one line per name, removal deletes exactly that one line. */
  lemma RemovePresentName(cart: seq<Line>, name: string, i: nat)
    requires UniqueNames(cart) && i < |cart| && cart[i].product == name
    ensures WithoutName(cart, name) == cart[..i] + cart[i + 1..]
    ensures |WithoutName(cart, name)| == |cart| - 1
  {
    var before, after := cart[..i], cart[i + 1..];
    assert cart == before + [cart[i]] + after;
    forall j | 0 <= j < |before| ensures OtherName(name)(before[j]) {
      assert before[j] == cart[j];
    }
    forall j | 0 <= j < |after| ensures OtherName(name)(after[j]) {
      assert after[j] == cart[i + 1 + j];
    }
    FilterDropsMiddle(before, cart[i], after, OtherName(name));
  }

  lemma {:induction false} FilterKeepsUnique(cart: seq<Line>, p: Line -> bool)
    requires UniqueNames(cart)
    ensures UniqueNames(Filter(cart, p))
  {
    if cart != [] {
      FilterKeepsUnique(cart[1..], p);
      var rest := Filter(cart[1..], p);
      if p(cart[0]) {
        forall j | 0 <= j < |rest| ensures rest[j].product != cart[0].product {
          var k :| 0 <= k < |cart[1..]| && cart[1..][k] == rest[j];
          assert cart[k + 1] == rest[j];
        }
      }
    }
  }

  /** Removal keeps both cart invariants. */
  lemma RemoveKeepsInvariants(cart: seq<Line>, name: string)
    ensures UniqueNames(cart) ==> UniqueNames(WithoutName(cart, name))
    ensures PositiveQuantities(cart) ==> PositiveQuantities(WithoutName(cart, name))
  {
    if UniqueNames(cart) {
      FilterKeepsUnique(cart, OtherName(name));
    }
    var r := WithoutName(cart, name);
    if PositiveQuantities(cart) {
      forall i | 0 <= i < |r| ensures r[i].quantity >= 1 {
        var k :| 0 <= k < |cart| && cart[k] == r[i];
      }
    }
  }

  // ---------------------------------------------------------------- adding and updating

  /**
   * Add one unit by name: the first line with the fresh line's name gains one unit, and
   * without such a line the fresh line is appended.
   */
  function IncrementOrAppend(cart: seq<Line>, added: Line): seq<Line> {
    match FindName(cart, added.product)
    case Some(i) => cart[i := cart[i].(quantity := cart[i].quantity + 1)]
    case None => cart + [added]
  }

  /**
   * Adding an existing name keeps the line count, raises that line by one unit and leaves
   * every other line alone, so the unit count grows by one and the subtotal by one unit price.
   */
  lemma IncrementExisting(cart: seq<Line>, added: Line, i: nat)
    requires FindName(cart, added.product) == Some(i)
    ensures var r := IncrementOrAppend(cart, added);
            |r| == |cart| && r[i] == cart[i].(quantity := cart[i].quantity + 1) &&
            (forall j :: 0 <= j < |cart| && j != i ==> r[j] == cart[j]) &&
            Quantities(r) == Quantities(cart) + 1 &&
            Subtotal(r) == Subtotal(cart) + cart[i].price
  {
    var l := cart[i];
    var bumped := l.(quantity := l.quantity + 1);
    var r := IncrementOrAppend(cart, added);
    assert r == cart[i := bumped];
    SumsUpdate(cart, i, bumped);
    OneMoreUnit(l);
  }

  /** One more unit adds one unit price to the line's total. */
  lemma OneMoreUnit(l: Line)
    ensures LineTotal(l.(quantity := l.quantity + 1)) == LineTotal(l) + l.price
  {
    var q := l.quantity as real;
    assert (l.quantity + 1) as real == q + 1.0;
    assert l.price * (q + 1.0) == l.price * q + l.price;
  }

  /** Adding a new name appends exactly the fresh line. */
  lemma AppendNew(cart: seq<Line>, added: Line)
    requires FindName(cart, added.product).None?
    ensures IncrementOrAppend(cart, added) == cart + [added]
    ensures Quantities(IncrementOrAppend(cart, added)) == Quantities(cart) + added.quantity
    ensures Subtotal(IncrementOrAppend(cart, added)) == Subtotal(cart) + LineTotal(added)
  {
    SumsAppend(cart, [added]);
  }

  /** Adding by name keeps one line per name and, for a added line of at least one unit, positivity. */
  lemma IncrementOrAppendKeepsInvariants(cart: seq<Line>, added: Line)
    ensures UniqueNames(cart) ==> UniqueNames(IncrementOrAppend(cart, added))
    ensures PositiveQuantities(cart) && added.quantity >= 1 ==>
              PositiveQuantities(IncrementOrAppend(cart, added))
    ensures FindName(IncrementOrAppend(cart, added), added.product).Some?
  {
    var r := IncrementOrAppend(cart, added);
    match FindName(cart, added.product)
    case Some(i) =>
      assert r[i].product == added.product;
    case None =>
      assert r[|cart|] == added;
  }

  /** `find` then `item.quantity = q`: only the first line with that name changes. */
  function SetFirstQuantity(cart: seq<Line>, name: string, q: int): seq<Line> {
    match FindName(cart, name)
    case Some(i) => cart[i := cart[i].(quantity := q)]
    case None => cart
  }

  /** `cart.map(item => item.product === name ? {...item, quantity: q} : item)`. */
  function SetAllQuantities(cart: seq<Line>, name: string, q: int): (r: seq<Line>)
    ensures |r| == |cart|
  {
    seq(|cart|, i requires 0 <= i < |cart| =>
      if cart[i].product == name then cart[i].(quantity := q) else cart[i])
  }

  /**
   * Setting a quantity by name changes only the quantity of the (first) line with that
   * name; the line count, the order and every other line stay as they were.
   */
  lemma SetFirstQuantityEffect(cart: seq<Line>, name: string, q: int)
    ensures |SetFirstQuantity(cart, name, q)| == |cart|
    ensures FindName(cart, name).None? ==> SetFirstQuantity(cart, name, q) == cart
    ensures FindName(cart, name).Some? ==>
              var i := FindName(cart, name).value;
              var r := SetFirstQuantity(cart, name, q);
              r[i] == cart[i].(quantity := q) &&
              (forall j :: 0 <= j < |cart| && j != i ==> r[j] == cart[j]) &&
              Quantities(r) == Quantities(cart) - cart[i].quantity + q
    ensures UniqueNames(cart) ==> UniqueNames(SetFirstQuantity(cart, name, q))
    ensures PositiveQuantities(cart) && q >= 1 ==> PositiveQuantities(SetFirstQuantity(cart, name, q))
  {
    if FindName(cart, name).Some? {
      var i := FindName(cart, name).value;
      SumsUpdate(cart, i, cart[i].(quantity := q));
    }
  }

  /** A new quantity of at least one keeps every line positive. */
  lemma SetFirstKeepsPositive(cart: seq<Line>, name: string, q: int)
    requires PositiveQuantities(cart) && q >= 1
    ensures PositiveQuantities(SetFirstQuantity(cart, name, q))
  {
    SetFirstQuantityEffect(cart, name, q);
  }

  /**
   * On a cart with one line per name, changing every matching line (the React cart page)
   * and changing the first match (the two cart managers) give the same cart.
   */
  lemma SetAllIsSetFirstWhenUnique(cart: seq<Line>, name: string, q: int)
    requires UniqueNames(cart)
    ensures SetAllQuantities(cart, name, q) == SetFirstQuantity(cart, name, q)
  {
    var r := SetAllQuantities(cart, name, q);
    match FindName(cart, name)
    case None =>
      assert r == cart;
    case Some(i) =>
      assert r == cart[i := cart[i].(quantity := q)];
  }

  /** Changing every matching line keeps one line per name and, for q ≥ 1, positivity. */
  lemma SetAllKeepsInvariants(cart: seq<Line>, name: string, q: int)
    ensures UniqueNames(cart) ==> UniqueNames(SetAllQuantities(cart, name, q))
    ensures PositiveQuantities(cart) && q >= 1 ==> PositiveQuantities(SetAllQuantities(cart, name, q))
  {
  }
}
