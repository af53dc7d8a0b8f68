/**
 * The backend's user and product rules: a user's role string built from the admin, farmer
 * and consumer flags, the admin test, the browse-and-buy permission, and a product's stock test.
 */
module UserModels {
  import opened JsStrings

  /** The role flags of a user account. */
  datatype User = User(isSuperuser: bool, isStaff: bool, isFarmer: bool, isConsumer: bool)

  predicate IsAdmin(u: User) {
    u.isSuperuser || u.isStaff
  }

  /** Every account may browse and buy, whatever its flags. */
  function CanBrowseAndBuy(u: User): (allowed: bool)
    ensures allowed
  {
    true
  }

  /** The roles present, in the fixed order admin, farmer, consumer. */
  function Roles(u: User): (roles: seq<string>)
    ensures |roles| <= 3
    ensures "admin" in roles <==> IsAdmin(u)
    ensures "farmer" in roles <==> u.isFarmer
    ensures "consumer" in roles <==> u.isConsumer
  {
    (if IsAdmin(u) then ["admin"] else []) + (if u.isFarmer then ["farmer"] else []) +
    (if u.isConsumer then ["consumer"] else [])
  }

  /** The roles joined with '_', or 'consumer' when there is none. */
  function RoleString(u: User): string {
    var roles := Roles(u);
    if roles == [] then "consumer" else Join(roles, '_')
  }

  /** `get_user_role`: the list of roles grows one `append` at a time, then is joined. */
  method GetUserRole(u: User) returns (role: string)
    ensures role == RoleString(u)
  {
    var roles: seq<string> := [];
    if u.isSuperuser || u.isStaff {
      roles := roles + ["admin"];
    }
    if u.isFarmer {
      roles := roles + ["farmer"];
    }
    if u.isConsumer {
      roles := roles + ["consumer"];
    }
    assert roles == Roles(u);
    if roles == [] {
      return "consumer";
    }
    role := Join(roles, '_');
  }

  /**
   * The role string splits back into the roles present, so 'admin' appears in it exactly for
   * an admin and 'farmer' exactly for a farmer; with no flag at all it is 'consumer'.
   */
  lemma RoleStringParts(u: User)
    ensures RoleString(u) != ""
    ensures Roles(u) != [] ==> Split(RoleString(u), '_') == Roles(u)
    ensures Roles(u) == [] ==> RoleString(u) == "consumer"
    ensures "admin" in Split(RoleString(u), '_') <==> IsAdmin(u)
    ensures "farmer" in Split(RoleString(u), '_') <==> u.isFarmer
  {
    var roles := Roles(u);
    assert '_' !in "admin" && '_' !in "farmer" && '_' !in "consumer";
    if roles == [] {
      SplitPlain("consumer", '_');
    } else {
      SplitJoin(roles, '_');
      JoinNotEmpty(roles);
    }
  }

  lemma JoinNotEmpty(roles: seq<string>)
    requires roles != [] && roles[0] != ""
    ensures Join(roles, '_') != ""
  {
    if |roles| > 1 {
      assert Join(roles, '_')[0] == roles[0][0];
    }
  }

  /** A product is in stock exactly when it has units left and is marked available. */
  datatype StockedProduct = StockedProduct(stockQuantity: int, isAvailable: bool)

  function IsInStock(p: StockedProduct): (r: bool)
    ensures r ==> p.isAvailable && p.stockQuantity >= 1
    ensures !p.isAvailable || p.stockQuantity <= 0 ==> !r
  {
    p.stockQuantity > 0 && p.isAvailable
  }

  /** Adding units never takes an available product out of stock, and selling every unit does. */
  lemma StockChanges(p: StockedProduct, added: nat)
    ensures IsInStock(p) ==> IsInStock(p.(stockQuantity := p.stockQuantity + added))
    ensures !IsInStock(p.(stockQuantity := 0))
    ensures p.isAvailable && added > 0 && p.stockQuantity >= 0 ==>
              IsInStock(p.(stockQuantity := p.stockQuantity + added))
  {
  }
}
