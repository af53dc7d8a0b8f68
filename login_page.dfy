/**
 * The React login page: the checks made before any request, the message chosen from a failed
 * login's response, and where the tokens of a successful one are read from.
 */
module LoginPage {
  import opened Wrappers
  import opened JsStrings
  import opened ApiErrors

  const WrongCredentials: string := "البريد الإلكتروني أو كلمة المرور غير صحيحة. يرجى المحاولة مرة أخرى."
  const BadInput: string := "البيانات المدخلة غير صحيحة. يرجى التحقق من البريد الإلكتروني وكلمة المرور."
  const LoginFailed: string := "فشل تسجيل الدخول. يرجى المحاولة مرة أخرى."
  const EmailRequired: string := "يرجى إدخال البريد الإلكتروني."
  const PasswordRequired: string := "يرجى إدخال كلمة المرور."

  /** The fields of a failed login's body that the page looks at. */
  datatype ErrorBody = ErrorBody(error: Option<string>, detail: Option<string>, email: Option<ErrorValue>,
                                 password: Option<ErrorValue>, nonFieldErrors: Option<ErrorValue>)

  /**
   * The shown message: the first truthy field among error, detail, email, password and
   * non_field_errors, then the status (401, 400), then a generic text. None is the
   * `undefined` of an empty array, which shows nothing.
   */
  function GetErrorMessage(data: ErrorBody, statusCode: int): (r: Option<string>)
    ensures r.None? ==> !TruthyText(data.error) && !TruthyText(data.detail) &&
                        (Truthy(data.email) || Truthy(data.password) || Truthy(data.nonFieldErrors))
    ensures TruthyText(data.error) ==> r.Some? && r.value != ""
    ensures !TruthyText(data.error) && TruthyText(data.detail) ==> r == data.detail
    ensures !TruthyText(data.error) && !TruthyText(data.detail) && Truthy(data.email) ==>
              r == FirstMessage(data.email.value)
    ensures !TruthyText(data.error) && !TruthyText(data.detail) && !Truthy(data.email) && Truthy(data.password) ==>
              r == FirstMessage(data.password.value)
    ensures !TruthyText(data.error) && !TruthyText(data.detail) && !Truthy(data.email) && !Truthy(data.password) && Truthy(data.nonFieldErrors) ==>
              r == FirstMessage(data.nonFieldErrors.value)
    ensures !TruthyText(data.error) && !TruthyText(data.detail) && !Truthy(data.email) &&
            !Truthy(data.password) && !Truthy(data.nonFieldErrors) ==>
              r == Some(if statusCode == 401 then WrongCredentials
                        else if statusCode == 400 then BadInput else LoginFailed)
  {
    if TruthyText(data.error) then
      if data.error.value == "Invalid credentials" then Some(WrongCredentials) else data.error
    else if TruthyText(data.detail) then data.detail
    else if Truthy(data.email) then FirstMessage(data.email.value)
    else if Truthy(data.password) then FirstMessage(data.password.value)
    else if Truthy(data.nonFieldErrors) then FirstMessage(data.nonFieldErrors.value)
    else if statusCode == 401 then Some(WrongCredentials)
    else if statusCode == 400 then Some(BadInput)
    else Some(LoginFailed)
  }

  /** Position of the first truthy field (0 error … 4 non_field_errors), 5 when there is none. */
  function FirstTruthy(data: ErrorBody): (k: nat)
    ensures k <= 5
  {
    if TruthyText(data.error) then 0
    else if TruthyText(data.detail) then 1
    else if Truthy(data.email) then 2
    else if Truthy(data.password) then 3
    else if Truthy(data.nonFieldErrors) then 4
    else 5
  }

  /** The body with every field after position `k` left out. */
  function KeepUpTo(data: ErrorBody, k: nat): ErrorBody {
    ErrorBody(data.error, if k >= 1 then data.detail else None, if k >= 2 then data.email else None,
              if k >= 3 then data.password else None, if k >= 4 then data.nonFieldErrors else None)
  }

  /**
   * First match wins: the message depends only on the first truthy field, not on any later
   * field nor on the status; the status decides only when no field is truthy.
   */
  lemma FirstTruthyFieldDecides(data: ErrorBody, s1: int, s2: int)
    ensures FirstTruthy(data) < 5 ==>
              GetErrorMessage(data, s1) == GetErrorMessage(KeepUpTo(data, FirstTruthy(data)), s2)
    ensures FirstTruthy(data) == 5 ==>
              GetErrorMessage(data, s1) == (if s1 == 401 then Some(WrongCredentials)
                                            else if s1 == 400 then Some(BadInput) else Some(LoginFailed))
  {
  }

  /** 'Invalid credentials' is translated; any other error text is shown as it came. */
  lemma ErrorFieldShown(data: ErrorBody, statusCode: int)
    requires TruthyText(data.error)
    ensures data.error.value == "Invalid credentials" ==> GetErrorMessage(data, statusCode) == Some(WrongCredentials)
    ensures data.error.value != "Invalid credentials" ==> GetErrorMessage(data, statusCode) == data.error
  {
  }

  /** A list-valued field gives its first message; an empty list gives nothing to show. */
  lemma ListFieldGivesFirst(data: ErrorBody, statusCode: int, items: seq<string>)
    requires FirstTruthy(data) == 2 && data.email == Some(List(items))
    ensures items != [] ==> GetErrorMessage(data, statusCode) == Some(items[0])
    ensures items == [] ==> GetErrorMessage(data, statusCode) == None
  {
  }

  /** The outcome of the checks made before a request. */
  datatype LoginCheck = EmailMissing | PasswordMissing | Send(email: string, password: string)

  /** The trimmed e-mail is checked first, then the password as typed. */
  function ValidateLogin(email: string, password: string): (r: LoginCheck)
    ensures r.Send? ==> r.email == Trim(email) && r.password == password
  {
    var emailValue := Trim(email);
    if emailValue == "" then EmailMissing
    else if password == "" then PasswordMissing
    else Send(emailValue, password)
  }

  /**
   * A blank e-mail (white space only) is refused before any request and before the password
   * is looked at; otherwise an empty password is refused; otherwise the request is sent.
   */
  lemma ValidateLoginOrder(email: string, password: string)
    ensures ValidateLogin(email, password) == EmailMissing <==> AllSpace(email)
    ensures ValidateLogin(email, password) == PasswordMissing <==> !AllSpace(email) && password == ""
    ensures ValidateLogin(email, password).Send? <==> !AllSpace(email) && password != ""
  {
    TrimEmptyIffBlank(email);
  }

  datatype TokenPair = TokenPair(access: string, refresh: string)

  /** The fields of a successful login's body that carry tokens. */
  datatype LoginBody = LoginBody(tokens: Option<TokenPair>, access: Option<string>, refresh: Option<string>)

  /**
   * The tokens written to storage: the nested `tokens` when present, otherwise the top-level
   * pair when both parts are truthy, otherwise none (the page still navigates home).
   */
  function SelectTokens(data: LoginBody): (r: Option<TokenPair>)
    ensures data.tokens.Some? ==> r == data.tokens
    ensures data.tokens.None? && TruthyText(data.access) && TruthyText(data.refresh) ==>
              r == Some(TokenPair(data.access.value, data.refresh.value))
    ensures data.tokens.None? && !(TruthyText(data.access) && TruthyText(data.refresh)) ==> r.None?
  {
    if data.tokens.Some? then data.tokens
    else if TruthyText(data.access) && TruthyText(data.refresh) then Some(TokenPair(data.access.value, data.refresh.value))
    else None
  }
}
