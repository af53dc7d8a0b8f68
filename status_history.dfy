/** The Arabic labels of order-status codes in the backend's status history. */
module StatusHistory {

  /** The `status_map` literal inside `get_old_status_display`. */
  const OldStatusLabels: map<string, string> := map[
    "pending" := "قيد الانتظار",
    "confirmed" := "تم التأكيد",
    "preparing" := "قيد التحضير",
    "ready" := "جاهز للتسليم",
    "shipped" := "تم الشحن",
    "delivered" := "تم التوصيل",
    "cancelled" := "ملغي"
  ]

  /** The `status_map` literal inside `get_new_status_display`, written out separately. */
  const NewStatusLabels: map<string, string> := map[
    "pending" := "قيد الانتظار",
    "confirmed" := "تم التأكيد",
    "preparing" := "قيد التحضير",
    "ready" := "جاهز للتسليم",
    "shipped" := "تم الشحن",
    "delivered" := "تم التوصيل",
    "cancelled" := "ملغي"
  ]

  /** `status_map.get(code, code)`: the label of a known code, the code itself otherwise. */
  function StatusDisplay(labels: map<string, string>, code: string): string {
    if code in labels then labels[code] else code
  }

  /** One history entry: the status before and after a change ('' when there was none). */
  datatype StatusChange = StatusChange(oldStatus: string, newStatus: string)

  function GetOldStatusDisplay(h: StatusChange): string {
    StatusDisplay(OldStatusLabels, h.oldStatus)
  }

  function GetNewStatusDisplay(h: StatusChange): string {
    StatusDisplay(NewStatusLabels, h.newStatus)
  }

  /**
   * In either table the seven codes get seven different labels, every other code (the blank
   * one included) is shown as it is, and a label shown again is unchanged.
   */
  lemma StatusDisplayTable(labels: map<string, string>, code: string, other: string)
    requires labels == OldStatusLabels || labels == NewStatusLabels
    ensures labels.Keys == {"pending", "confirmed", "preparing", "ready", "shipped", "delivered", "cancelled"}
    ensures code in labels ==> StatusDisplay(labels, code) == labels[code]
    ensures code !in labels ==> StatusDisplay(labels, code) == code
    ensures StatusDisplay(labels, "") == ""
    ensures code in labels && other in labels && code != other ==>
              StatusDisplay(labels, code) != StatusDisplay(labels, other)
    ensures StatusDisplay(labels, StatusDisplay(labels, code)) == StatusDisplay(labels, code)
  {
  }

  /** The two literals hold the same codes with the same labels. */
  lemma TablesAgree()
    ensures OldStatusLabels == NewStatusLabels
  {
    assert OldStatusLabels.Keys == NewStatusLabels.Keys;
  }

  /** Old and new status show equal labels for equal codes, because the two tables agree. */
  lemma OldAndNewAgree(h: StatusChange)
    requires h.oldStatus == h.newStatus
    ensures GetOldStatusDisplay(h) == GetNewStatusDisplay(h)
  {
    TablesAgree();
  }
}
