/**
 * The backend's user serializers: the registration checks and the field clean-up before an
 * account is created, the login check, and the role and admin fields of a serialised user.
 */
module Serializers {
  import opened Wrappers
  import opened JsStrings
  import opened UserModels

  /** A value of the request data: text or a boolean flag. */
  datatype Value = Str(s: string) | Flag(b: bool)

  /** Python truthiness of `data.get(key)`: a missing key, '', and False are false. */
  predicate TruthyGet(data: map<string, Value>, key: string) {
    key in data && match data[key] { case Str(s) => s != "" case Flag(b) => b }
  }

  const MismatchMessage: string := "Password fields didn't match."
  const MissingLoginMessage: string := "Either email or username must be provided."

  /**
   * Registration's cross-field check: a password error when the two passwords differ,
   * otherwise the data unchanged. Both fields are required, so both are present.
   */
  function ValidateRegistration(attrs: map<string, Value>): (r: Result<map<string, Value>, map<string, string>>)
    requires "password" in attrs && "password2" in attrs
    ensures r.Err? <==> attrs["password"] != attrs["password2"]
    ensures r.Err? ==> r.error == map["password" := MismatchMessage]
    ensures r.Ok? ==> r.value == attrs
  {
    if attrs["password"] != attrs["password2"] then Err(map["password" := MismatchMessage]) else Ok(attrs)
  }

  /**
   * `create`: the two passwords are popped from the data (the first one is kept apart for
   * hashing) and, when neither role flag is truthy, `is_consumer` is set to True.
   */
  method CreateFields(validatedData: map<string, Value>) returns (fields: map<string, Value>, password: Value)
    requires "password" in validatedData && "password2" in validatedData
    ensures password == validatedData["password"]
    ensures "password" !in fields && "password2" !in fields
    ensures !TruthyGet(validatedData, "is_farmer") && !TruthyGet(validatedData, "is_consumer") ==>
              fields == (validatedData - {"password", "password2"})["is_consumer" := Flag(true)]
    ensures TruthyGet(validatedData, "is_farmer") || TruthyGet(validatedData, "is_consumer") ==>
              fields == validatedData - {"password", "password2"}
  {
    fields := validatedData;
    fields := fields - {"password2"};
    password := fields["password"];
    fields := fields - {"password"};
    if !TruthyGet(fields, "is_farmer") && !TruthyGet(fields, "is_consumer") {
      fields := fields["is_consumer" := Flag(true)];
    }
  }

  /**
   * The account `create_user` makes from the fields: no admin flag, the farmer flag when
   * given (default false) and the consumer flag when given (default true).
   */
  function NewUser(fields: map<string, Value>): User {
    User(false, false, TruthyGet(fields, "is_farmer"),
         if "is_consumer" in fields then TruthyGet(fields, "is_consumer") else true)
  }

  /** A newly registered account always has the farmer or the consumer role and is never an admin. */
  lemma CreatedUserHasRole(validatedData: map<string, Value>, fields: map<string, Value>)
    requires "password" in validatedData && "password2" in validatedData
    requires !TruthyGet(validatedData, "is_farmer") && !TruthyGet(validatedData, "is_consumer") ==>
               fields == (validatedData - {"password", "password2"})["is_consumer" := Flag(true)]
    requires TruthyGet(validatedData, "is_farmer") || TruthyGet(validatedData, "is_consumer") ==>
               fields == validatedData - {"password", "password2"}
    ensures NewUser(fields).isFarmer || NewUser(fields).isConsumer
    ensures !IsAdmin(NewUser(fields))
    ensures RoleString(NewUser(fields)) in {"farmer", "consumer", "farmer_consumer"}
  {
    var u := NewUser(fields);
    if !TruthyGet(validatedData, "is_farmer") && !TruthyGet(validatedData, "is_consumer") {
      assert TruthyGet(fields, "is_consumer");
    } else {
      assert TruthyGet(validatedData, "is_farmer") ==> TruthyGet(fields, "is_farmer");
    }
    assert Join(["farmer", "consumer"], '_') == "farmer_consumer";
  }

  /** Login's check: refused when neither an e-mail nor a username is given. */
  function ValidateLogin(attrs: map<string, Value>): (r: Result<map<string, Value>, string>)
    ensures r.Err? <==> !TruthyGet(attrs, "email") && !TruthyGet(attrs, "username")
    ensures r.Err? ==> r.error == MissingLoginMessage
    ensures r.Ok? ==> r.value == attrs
  {
    var email := TruthyGet(attrs, "email");
    var username := TruthyGet(attrs, "username");
    if !email && !username then Err(MissingLoginMessage) else Ok(attrs)
  }

  /** The two computed fields of a serialised user. */
  datatype UserData = UserData(role: string, isAdmin: bool)

  /** The serialised role is never empty and names 'admin' exactly when `is_admin` is true. */
  function SerializeUser(u: User): (d: UserData)
    ensures d.role == RoleString(u) && d.isAdmin == IsAdmin(u)
    ensures d.role != "" && (d.isAdmin <==> "admin" in Split(d.role, '_'))
  {
    RoleStringParts(u);
    UserData(RoleString(u), IsAdmin(u))
  }

  /** The serialised `is_admin` is true exactly when the serialised role names 'admin'. */
  lemma SerializedAdminAgrees(u: User)
    ensures SerializeUser(u).isAdmin <==> "admin" in Split(SerializeUser(u).role, '_')
  {
    RoleStringParts(u);
  }
}
