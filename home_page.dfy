/**
 * The React home page: the first four products are featured, and the order tracker's step
 * (0 nothing yet, 1 pending, 2 in progress, 3 completed) comes from the stored cart and the
 * signed-in user's latest order, with a progress line drawn from the step.
 */
module HomePage {
  import opened Wrappers
  import opened CartLines
  import opened ProductsPage
  import opened OrderTrackingPage
  import CartPage

  /** `products.slice(0, 4)` of `data.results || data`. */
  function Featured(data: ProductsResponse): (r: seq<ApiProduct>)
    ensures var all := ProductList(data);
            |r| == (if |all| < 4 then |all| else 4) && forall i :: 0 <= i < |r| ==> r[i] == all[i]
  {
    var products := ProductList(data);
    products[..if |products| < 4 then |products| else 4]
  }

  /**
   * The latest order: none without a token or without an answer (an error status or failed
   * fetch), otherwise the first order listed, if any.
   */
  function LatestOrder(token: Option<string>, answer: Option<OrdersResponse>): (o: Option<Order>)
    ensures o.Some? <==> CartPage.HasToken(token) && answer.Some? && |OrderList(answer.value)| > 0
    ensures o.Some? ==> o.value == OrderList(answer.value)[0]
  {
    if !CartPage.HasToken(token) || answer.None? then None
    else
      var orders := OrderList(answer.value);
      if |orders| > 0 then Some(orders[0]) else None
  }

  /** The tracker step for a cart of `cartLines` lines and the latest order. */
  function StepFor(cartLines: nat, order: Option<Order>): (step: int)
    ensures 0 <= step <= 3
    ensures order.None? ==> step == (if cartLines > 0 then 1 else 0)
    ensures order.Some? && order.value.status in {"pending", "confirmed"} ==> step == 1
    ensures order.Some? && order.value.status in {"preparing", "ready"} ==> step == 2
    ensures order.Some? && order.value.status == "completed" ==> step == 3
    ensures order.Some? && order.value.status !in {"pending", "confirmed", "preparing", "ready", "completed"} ==>
              step == (if cartLines > 0 then 1 else 0)
  {
    var fromCart := if cartLines > 0 then 1 else 0;
    if order.None? then fromCart
    else
      var s := order.value.status;
      if s == "pending" || s == "confirmed" then 1
      else if s == "preparing" || s == "ready" then 2
      else if s == "completed" then 3
      else fromCart
  }

  /** `checkStatus`: the step, reassigned as each condition is checked. */
  method CheckStatus(storage: Storage, order: Option<Order>) returns (step: int)
    ensures step == StepFor(|storage.Load()|, order)
  {
    var savedCart := storage.Load();
    step := 0;
    if |savedCart| > 0 {
      step := 1;
    }
    if order.Some? {
      var s := order.value.status;
      if s == "pending" || s == "confirmed" {
        step := 1;
      } else if s == "preparing" || s == "ready" {
        step := 2;
      } else if s == "completed" {
        step := 3;
      }
    }
  }

  /** The active progress line's width in percent. */
  function ProgressWidth(step: int): int {
    if step == 0 then 0 else if step == 1 then 0 else if step == 2 then 50 else 100
  }

  /**
   * The line is full exactly for a completed order, half-way exactly for an order being
   * prepared or ready, and empty otherwise, whatever the cart holds.
   */
  lemma ProgressShowsOrderStage(cartLines: nat, order: Option<Order>)
    ensures ProgressWidth(StepFor(cartLines, order)) == 100 <==> order.Some? && order.value.status == "completed"
    ensures ProgressWidth(StepFor(cartLines, order)) == 50 <==>
              order.Some? && order.value.status in {"preparing", "ready"}
    ensures ProgressWidth(StepFor(cartLines, order)) == 0 <==>
              order.None? || order.value.status !in {"preparing", "ready", "completed"}
  {
  }

  /** A listed order status decides the step whatever the cart holds. */
  lemma OrderOutranksCart(a: nat, b: nat, order: Order)
    requires order.status in {"pending", "confirmed", "preparing", "ready", "completed"}
    ensures StepFor(a, Some(order)) == StepFor(b, Some(order))
  {
  }
}
