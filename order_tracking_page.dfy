/**
 * The React order-tracking page: the five tracked statuses with their labels, the position of
 * an order's status among them, which step circles are completed and which label is active,
 * the progress bar's width, the badge label, and the search by tracking number.
 */
module OrderTrackingPage {
  import opened Wrappers

  datatype Step = Step(id: string, caption: string, icon: string)

  const StatusSteps: seq<Step> := [
    Step("pending", "قيد الانتظار", "fas fa-clock"),
    Step("confirmed", "تم التأكيد", "fas fa-check-circle"),
    Step("preparing", "قيد التجهيز", "fas fa-box-open"),
    Step("ready", "جاهز للتوصيل", "fas fa-truck-loading"),
    Step("completed", "تم التوصيل", "fas fa-box")
  ]

  /** `steps.findIndex(step => step.id === status)`: the first position, or -1. */
  function FindIndex(steps: seq<Step>, status: string): (r: int)
    ensures -1 <= r < |steps|
    ensures r >= 0 ==> steps[r].id == status && forall j :: 0 <= j < r ==> steps[j].id != status
    ensures r == -1 <==> forall j :: 0 <= j < |steps| ==> steps[j].id != status
  {
    if steps == [] then -1
    else if steps[0].id == status then 0
    else
      var r := FindIndex(steps[1..], status);
      if r == -1 then -1 else r + 1
  }

  function StepIndex(status: string): int {
    FindIndex(StatusSteps, status)
  }

  predicate Listed(status: string) {
    status in {"pending", "confirmed", "preparing", "ready", "completed"}
  }

  /**
   * Each tracked status sits at its own position, and every other status, 'cancelled' and
   * 'delivered' among them, is at -1.
   */
  lemma StepIndexOfStatus(status: string)
    ensures Listed(status) ==> 0 <= StepIndex(status) < 5 && StatusSteps[StepIndex(status)].id == status
    ensures !Listed(status) ==> StepIndex(status) == -1
    ensures StepIndex("pending") == 0 && StepIndex("completed") == 4
    ensures StepIndex("cancelled") == -1 && StepIndex("delivered") == -1
  {
    assert StatusSteps[0].id == "pending" && StatusSteps[4].id == "completed";
  }

  /** `getCurrentStepIndex(order.status) >= index`. */
  predicate IsCompleted(status: string, index: nat) {
    StepIndex(status) >= index
  }

  /** `order.status === step.id`. */
  predicate IsActive(status: string, index: nat)
    requires index < |StatusSteps|
  {
    status == StatusSteps[index].id
  }

  /**
   * The completed circles are the first StepIndex + 1 steps, and the only active label is the
   * order's own step; an unlisted status completes nothing and activates nothing.
   */
  lemma StepFlags(status: string)
    ensures forall i :: 0 <= i < 5 ==> (IsCompleted(status, i) <==> i <= StepIndex(status))
    ensures forall i :: 0 <= i < 5 ==> (IsActive(status, i) <==> i == StepIndex(status))
    ensures !Listed(status) ==> forall i :: 0 <= i < 5 ==> !IsCompleted(status, i) && !IsActive(status, i)
  {
    StepIndexOfStatus(status);
  }

  /** The green bar's width in percent: `index / (steps - 1) * 90`. */
  function ProgressWidth(status: string): real {
    StepIndex(status) as real / (|StatusSteps| - 1) as real * 90.0
  }

  /** A tracked status draws a bar from 0% to 90%; any other status gives a negative width. */
  lemma ProgressWidthRange(status: string)
    ensures Listed(status) ==> 0.0 <= ProgressWidth(status) <= 90.0
    ensures !Listed(status) ==> ProgressWidth(status) == -22.5
    ensures ProgressWidth("completed") == 90.0 && ProgressWidth("pending") == 0.0
  {
    StepIndexOfStatus(status);
    StepIndexOfStatus("completed");
    StepIndexOfStatus("pending");
    WidthPerStep(StepIndex(status));
    WidthPerStep(StepIndex("completed"));
    WidthPerStep(StepIndex("pending"));
  }

  lemma WidthPerStep(i: int)
    ensures i as real / (|StatusSteps| - 1) as real * 90.0 == i as real * 22.5
  {
    assert |StatusSteps| - 1 == 4;
  }

  /** `statusSteps.find(s => s.id === status)?.caption || status`. */
  function BadgeLabel(status: string): string {
    var i := StepIndex(status);
    if i >= 0 && StatusSteps[i].caption != "" then StatusSteps[i].caption else status
  }

  lemma BadgeLabelFallback(status: string)
    ensures Listed(status) ==> BadgeLabel(status) == StatusSteps[StepIndex(status)].caption
    ensures !Listed(status) ==> BadgeLabel(status) == status
    ensures BadgeLabel("ready") == "جاهز للتوصيل"
  {
    StepIndexOfStatus(status);
    StepIndexOfStatus("ready");
  }

  // ---------------------------------------------------------------- search

  datatype Order = Order(trackingNumber: string, status: string)

  /** The orders answer: paginated (`results`) or a bare list. */
  datatype OrdersResponse = PaginatedOrders(results: seq<Order>) | ListedOrders(items: seq<Order>)

  function OrderList(data: OrdersResponse): seq<Order> {
    match data
    case PaginatedOrders(results) => results
    case ListedOrders(items) => items
  }

  /** The backend's answer to the search: a JSON body, an error status, or a failed fetch. */
  datatype SearchAnswer = Answered(data: OrdersResponse) | ErrorStatus | Unreachable

  datatype TrackOutcome = NotSearched | Found(order: Order) | NotFound(message: string) | Failed(message: string)

  const NotFoundMessage: string := "عذراً، لم يتم العثور على طلب بهذا الرقم. يرجى التأكد من الرقم والمحاولة مرة أخرى."
  const SearchErrorMessage: string := "حدث خطأ أثناء البحث عن الطلب. يرجى المحاولة لاحقاً."
  const ConnectionMessage: string := "فشل الاتصال بالخادم. يرجى التحقق من اتصالك بالإنترنت."

  /**
   * An empty tracking number sends nothing; otherwise the first order of the answer is
   * shown, and an empty answer, an error status or a failed fetch each give their message.
   */
  function Track(trackingNumber: string, answer: SearchAnswer): (r: TrackOutcome)
    ensures trackingNumber == "" <==> r == NotSearched
    ensures r.Found? ==> answer.Answered? && |OrderList(answer.data)| > 0 && r.order == OrderList(answer.data)[0]
    ensures trackingNumber != "" && answer.Answered? && |OrderList(answer.data)| > 0 ==> r.Found?
    ensures trackingNumber != "" && answer.Answered? && OrderList(answer.data) == [] ==> r == NotFound(NotFoundMessage)
    ensures trackingNumber != "" && answer.ErrorStatus? ==> r == Failed(SearchErrorMessage)
    ensures trackingNumber != "" && answer.Unreachable? ==> r == Failed(ConnectionMessage)
  {
    if trackingNumber == "" then NotSearched
    else
      match answer
      case Answered(data) =>
        var orders := OrderList(data);
        if |orders| > 0 then Found(orders[0]) else NotFound(NotFoundMessage)
      case ErrorStatus => Failed(SearchErrorMessage)
      case Unreachable => Failed(ConnectionMessage)
  }
}
