/** Error fields of a JSON error body from the backend, and how the pages test and read them. */
module ApiErrors {
  import opened Wrappers

  /** A field's value: one message, or a list of messages (Django REST framework's usual shape). */
  datatype ErrorValue = Text(text: string) | List(items: seq<string>)

  /** `if (data.field)`: present, and not ''; any array, even an empty one, is truthy. */
  predicate Truthy(v: Option<ErrorValue>) {
    v.Some? && (v.value.List? || v.value.text != "")
  }

  /** The same test for a field that is always a single text. */
  predicate TruthyText(v: Option<string>) {
    v.Some? && v.value != ""
  }

  /** `Array.isArray(v) ? v[0] : v`; None is the `undefined` an empty array yields. */
  function FirstMessage(v: ErrorValue): (r: Option<string>)
    ensures v.Text? ==> r == Some(v.text)
    ensures v.List? ==> (r.Some? <==> v.items != []) && (r.Some? ==> r.value == v.items[0])
  {
    match v
    case Text(text) => Some(text)
    case List(items) => if items == [] then None else Some(items[0])
  }
}
