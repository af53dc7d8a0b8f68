/**
 * The React sign-up page: the role chosen from the URL, the two role flags sent to the
 * backend, and the message shown for a refused registration.
 */
module SignupPage {
  import opened Wrappers
  import opened JsStrings
  import opened ApiErrors

  const PasswordTooShort: string := "كلمة المرور قصيرة جداً. يجب أن تتكون من 8 خانات على الأقل."
  const PasswordCommon: string := "كلمة المرور شائعة جداً، يرجى اختيار كلمة مرور أصعب."
  const PasswordNumeric: string := "كلمة المرور يجب ألا تكون رقمية بالكامل."
  const EmailTaken: string := "البريد الإلكتروني مسجل مسبقاً."
  const SignupFailed: string := "فشل إنشاء الحساب. يرجى المحاولة مرة أخرى."
  const ConnectionError: string := "حدث خطأ في الاتصال بالخادم."

  /** The form's role from the `role` URL parameter (None when absent). */
  function InitialRole(roleFromUrl: Option<string>): (role: string)
    ensures role == "farmer" <==> roleFromUrl == Some("farmer")
    ensures role == "farmer" || role == "consumer"
  {
    if roleFromUrl == Some("farmer") then "farmer" else "consumer"
  }

  datatype RoleFlags = RoleFlags(isFarmer: bool, isConsumer: bool)

  function Flags(role: string): RoleFlags {
    RoleFlags(role == "farmer", role == "consumer")
  }

  /**
   * The flags are never both set; for a role taken from the URL exactly one is set, and it
   * is the farmer flag exactly when the URL asked for a farmer.
   */
  lemma FlagsExclusive(role: string, roleFromUrl: Option<string>)
    ensures !(Flags(role).isFarmer && Flags(role).isConsumer)
    ensures var f := Flags(InitialRole(roleFromUrl));
            f.isFarmer != f.isConsumer && (f.isFarmer <==> roleFromUrl == Some("farmer"))
  {
  }

  /** The fields of a refused registration's body that the page looks at. */
  datatype SignupErrors = SignupErrors(password: Option<ErrorValue>, email: Option<ErrorValue>,
                                       username: Option<ErrorValue>, detail: Option<string>)

  /** A password error mapped to its fixed text: 'too short', then 'common', then 'numeric'. */
  function PasswordMessage(passwordError: string): (r: string)
    ensures Contains(passwordError, "too short") ==> r == PasswordTooShort
    ensures !Contains(passwordError, "too short") && Contains(passwordError, "common") ==> r == PasswordCommon
    ensures !Contains(passwordError, "too short") && !Contains(passwordError, "common") ==>
              r == (if Contains(passwordError, "numeric") then PasswordNumeric else passwordError)
  {
    if Contains(passwordError, "too short") then PasswordTooShort
    else if Contains(passwordError, "common") then PasswordCommon
    else if Contains(passwordError, "numeric") then PasswordNumeric
    else passwordError
  }

  function EmailMessage(emailError: string): (r: string)
    ensures Contains(emailError, "unique") ==> r == EmailTaken
    ensures !Contains(emailError, "unique") ==> r == emailError
  {
    if Contains(emailError, "unique") then EmailTaken else emailError
  }

  /**
   * The shown message. The password error comes first, then the e-mail, then the username,
   * then `detail` or the default text. Calling `includes` on the `undefined` of an empty
   * password or e-mail list throws, and the page then shows its connection error. An empty
   * username list sets `undefined`, which shows nothing (None).
   */
  function SignupError(data: SignupErrors): Option<string> {
    if Truthy(data.password) then
      match FirstMessage(data.password.value)
      case Some(e) => Some(PasswordMessage(e))
      case None => Some(ConnectionError)
    else if Truthy(data.email) then
      match FirstMessage(data.email.value)
      case Some(e) => Some(EmailMessage(e))
      case None => Some(ConnectionError)
    else if Truthy(data.username) then FirstMessage(data.username.value)
    else if TruthyText(data.detail) then data.detail
    else Some(SignupFailed)
  }

  /** Which field the message came from: password > email > username > detail > default. */
  lemma SignupErrorPriority(data: SignupErrors)
    ensures Truthy(data.password) && FirstMessage(data.password.value).Some? ==>
              SignupError(data) == Some(PasswordMessage(FirstMessage(data.password.value).value))
    ensures Truthy(data.password) && FirstMessage(data.password.value).None? ==> SignupError(data) == Some(ConnectionError)
    ensures !Truthy(data.password) && Truthy(data.email) && FirstMessage(data.email.value).Some? ==>
              SignupError(data) == Some(EmailMessage(FirstMessage(data.email.value).value))
    ensures !Truthy(data.password) && Truthy(data.email) && FirstMessage(data.email.value).None? ==>
              SignupError(data) == Some(ConnectionError)
    ensures Truthy(data.password) ==> SignupError(data) == SignupError(data.(email := None, username := None, detail := None))
    ensures !Truthy(data.password) && Truthy(data.email) ==>
              SignupError(data) == SignupError(data.(username := None, detail := None))
    ensures !Truthy(data.password) && !Truthy(data.email) && Truthy(data.username) ==>
              SignupError(data) == FirstMessage(data.username.value)
    ensures !Truthy(data.password) && !Truthy(data.email) && !Truthy(data.username) ==>
              SignupError(data) == Some(if TruthyText(data.detail) then data.detail.value else SignupFailed)
  {
  }

  /** Django's "This password is too short…" list maps to the fixed too-short text. */
  lemma TooShortExample(rest: string)
    ensures SignupError(SignupErrors(Some(List(["This password is too short." + rest])), None, None, None)) ==
            Some(PasswordTooShort)
  {
    var e := "This password is too short." + rest;
    ContainsAt(e, "too short", 17);
  }

  /** A password error naming both 'common' and 'numeric' shows the 'common' text. */
  lemma CommonBeforeNumeric(e: string)
    requires !Contains(e, "too short") && Contains(e, "common") && Contains(e, "numeric")
    ensures SignupError(SignupErrors(Some(Text(e)), None, None, None)) == Some(PasswordCommon)
  {
  }

  /** An empty password list ends in the connection error, whatever the other fields say. */
  lemma EmptyPasswordListShowsConnectionError(data: SignupErrors)
    requires data.password == Some(List([]))
    ensures SignupError(data) == Some(ConnectionError)
  {
  }
}
