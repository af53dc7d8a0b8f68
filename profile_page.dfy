/**
 * The React profile page: the form filled from the profile answer, the per-field change
 * handler, the message for a refused update, the merge of an accepted one, and the role label.
 */
module ProfilePage {
  import opened Wrappers
  import opened ApiErrors

  const ProfileFields: set<string> := {"username", "email", "first_name", "last_name", "phone_number", "role"}

  const UpdateFailed: string := "فشل تحديث البيانات"
  const UpdateSucceeded: string := "تم تحديث البيانات بنجاح"
  const EmailPrefix: string := "البريد الإلكتروني: "
  const UsernamePrefix: string := "اسم المستخدم: "
  const FarmerLabel: string := "مزارع (بائع)"
  const ConsumerLabel: string := "مشتري (مستهلك)"

  /**
   * The loaded form: each of the six fields takes the answer's text, and a field the answer
   * lacks becomes '' (text fields only; a missing key stands for a missing or null value).
   */
  function LoadProfile(data: map<string, string>): (form: map<string, string>)
    ensures form.Keys == ProfileFields
    ensures forall k :: k in ProfileFields ==> form[k] == (if k in data then data[k] else "")
  {
    map k | k in ProfileFields :: if k in data then data[k] else ""
  }

  /** A loaded form never holds a field outside the six, whatever extra keys the answer has. */
  lemma LoadProfileIgnoresExtras(data: map<string, string>, extra: string, value: string)
    requires extra !in ProfileFields
    ensures LoadProfile(data[extra := value]) == LoadProfile(data)
  {
  }

  /** The fields of a refused update's body that the page looks at. */
  datatype ProfileErrors = ProfileErrors(detail: Option<string>, email: Option<ErrorValue>, username: Option<ErrorValue>)

  /**
   * `${field[0]}`: the first message of a list (the text "undefined" for an empty one), or,
   * for a plain text, its first character.
   */
  function IndexZero(v: ErrorValue): string {
    match v
    case List(items) => if items == [] then "undefined" else items[0]
    case Text(text) => if text == "" then "undefined" else [text[0]]
  }

  /** The message a refused update shows, by priority: username, then e-mail, then detail, then the default. */
  function ChosenMessage(data: ProfileErrors): string {
    if Truthy(data.username) then UsernamePrefix + IndexZero(data.username.value)
    else if Truthy(data.email) then EmailPrefix + IndexZero(data.email.value)
    else if TruthyText(data.detail) then data.detail.value
    else UpdateFailed
  }

  /** Each later check overwrites the message the earlier ones set, so the last truthy field wins. */
  method SubmitErrorMessage(data: ProfileErrors) returns (errorMsg: string)
    ensures errorMsg == ChosenMessage(data)
    ensures Truthy(data.username) ==> errorMsg == UsernamePrefix + IndexZero(data.username.value)
    ensures !Truthy(data.username) && Truthy(data.email) ==> errorMsg == EmailPrefix + IndexZero(data.email.value)
    ensures !Truthy(data.username) && !Truthy(data.email) ==>
              errorMsg == (if TruthyText(data.detail) then data.detail.value else UpdateFailed)
  {
    errorMsg := UpdateFailed;
    if TruthyText(data.detail) {
      errorMsg := data.detail.value;
    }
    if Truthy(data.email) {
      errorMsg := EmailPrefix + IndexZero(data.email.value);
    }
    if Truthy(data.username) {
      errorMsg := UsernamePrefix + IndexZero(data.username.value);
    }
  }

  /** A plain-text e-mail error shows only its first character after the prefix. */
  lemma TextErrorShowsFirstCharacter(text: string)
    requires text != ""
    ensures IndexZero(Text(text)) == [text[0]]
    ensures |EmailPrefix + IndexZero(Text(text))| == |EmailPrefix| + 1
  {
  }

  /** `role === 'farmer'` picks the farmer text; every other role, '' included, the consumer text. */
  function RoleLabel(role: string): (shown: string)
    ensures shown == FarmerLabel <==> role == "farmer"
    ensures shown == ConsumerLabel <==> role != "farmer"
  {
    if role == "farmer" then FarmerLabel else ConsumerLabel
  }

  class ProfileForm {
    var form: map<string, string>
    var error: string
    var success: string

    constructor (data: map<string, string>)
      ensures form == LoadProfile(data) && error == "" && success == ""
    {
      form := LoadProfile(data);
      error := "";
      success := "";
    }

    /** Typing into the field `name`: that field takes the value, and both messages clear. */
    method HandleChange(name: string, value: string)
      modifies this
      ensures form == old(form)[name := value]
      ensures forall k :: k in old(form) && k != name ==> k in form && form[k] == old(form)[k]
      ensures error == "" && success == ""
    {
      form := form[name := value];
      error := "";
      success := "";
    }

    /**
     * A submit the server accepts: both messages are cleared when the submit starts, the
     * success text is set, and the answer's fields overwrite the form's while the others stay.
     */
    method ApplySuccess(data: map<string, string>)
      modifies this
      ensures form == old(form) + data
      ensures forall k :: k in data ==> k in form && form[k] == data[k]
      ensures forall k :: k in old(form) && k !in data ==> k in form && form[k] == old(form)[k]
      ensures form.Keys == old(form).Keys + data.Keys
      ensures success == UpdateSucceeded && error == ""
    {
      error := "";
      success := "";
      success := UpdateSucceeded;
      form := form + data;
    }

    /**
     * A submit the server refuses: both messages are cleared when the submit starts, then the
     * chosen message is shown and the form is kept.
     */
    method ApplyFailure(data: ProfileErrors)
      modifies this
      ensures form == old(form) && success == ""
      ensures error == ChosenMessage(data)
      ensures Truthy(data.username) ==> error == UsernamePrefix + IndexZero(data.username.value)
      ensures !Truthy(data.username) && Truthy(data.email) ==> error == EmailPrefix + IndexZero(data.email.value)
      ensures !Truthy(data.username) && !Truthy(data.email) && TruthyText(data.detail) ==> error == data.detail.value
      ensures !Truthy(data.username) && !Truthy(data.email) && !TruthyText(data.detail) ==> error == UpdateFailed
    {
      error := "";
      success := "";
      error := SubmitErrorMessage(data);
    }
  }
}
