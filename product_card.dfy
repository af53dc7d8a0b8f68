/**
 * The React product card: its "add to cart" action, which works directly on the stored cart
 * (match by catalog id or by name, a cap of five distinct lines for new products, a soft
 * warning above ten units), and its star row.
 */
module ProductCard {
  import opened Wrappers
  import opened CartLines
  import opened StarRating

  /** The catalog fields the card's action reads. */
  datatype CatalogProduct = CatalogProduct(id: int, name: string, price: real)

  datatype NoticeKind = Warning | Success

  /** One `showNotification` call: message, kind, and whether it stays until dismissed. */
  datatype Notice = Notice(message: string, kind: NoticeKind, persist: bool)

  /** The most distinct lines a new product may join. */
  const MaxLines := 5

  /** The unit count above which the soft warning is raised. */
  const SoftLimit := 10

  const CapMessage := "عذراً، لا يمكنك إضافة أكثر من 5 أصناف مختلفة في الطلب الواحد"
  const SoftLimitMessage := "عذراً، نود تنبيهك بأن طلبك يحتوي الآن على أكثر من 10 منتجات. يرجى مراجعة الكميات المختارة لضمان دقة الطلب وتفادي أي تأخير."

  function AddedMessage(name: string): string {
    name + " تمت الإضافة إلى السلة"
  }

  /**
   * `(item.product_id && item.product_id === product.id) || item.product === product.name`;
   * an id of 0 is falsy and never matches.
   */
  predicate Matches(item: Line, p: CatalogProduct) {
    (item.productId.Some? && item.productId.value != 0 && item.productId.value == p.id)
    || item.product == p.name
  }

  /** `savedCart.find(...)` with that test, as the position of the first matching line. */
  function FindMatch(cart: seq<Line>, p: CatalogProduct): (r: Option<nat>)
    ensures r.Some? ==> r.value < |cart| && Matches(cart[r.value], p)
    ensures r.Some? ==> forall j :: 0 <= j < r.value ==> !Matches(cart[j], p)
    ensures r.None? <==> forall j :: 0 <= j < |cart| ==> !Matches(cart[j], p)
  {
    if cart == [] then None
    else if Matches(cart[0], p) then Some(0)
    else match FindMatch(cart[1..], p)
      case Some(k) => Some(k + 1)
      case None => None
  }

  /** A product that matches no line is refused once the cart has five lines. */
  predicate Refused(saved: seq<Line>, p: CatalogProduct) {
    FindMatch(saved, p).None? && |saved| >= MaxLines
  }

  /** The line a new product adds. */
  function NewLine(p: CatalogProduct): Line {
    Line(p.name, Some(p.id), p.price, 1, None, None)
  }

  /** The stored cart after an accepted add. */
  function CardAdd(saved: seq<Line>, p: CatalogProduct): seq<Line> {
    match FindMatch(saved, p)
    case Some(i) => saved[i := saved[i].(quantity := saved[i].quantity + 1)]
    case None => saved + [NewLine(p)]
  }

  /** The notifications one click shows, in call order. */
  function AddNotices(saved: seq<Line>, p: CatalogProduct): seq<Notice> {
    if Refused(saved, p) then [Notice(CapMessage, Warning, false)]
    else (if Quantities(saved) + 1 > SoftLimit then [Notice(SoftLimitMessage, Warning, true)] else [])
         + [Notice(AddedMessage(p.name), Success, false)]
  }

  /**
   * `addToCart`: a refused add writes nothing; an accepted one raises the matching line by
   * one unit or appends a new line, and writes the cart back.
   */
  method AddToCart(storage: Storage, p: CatalogProduct) returns (notices: seq<Notice>)
    modifies storage
    ensures notices == AddNotices(old(storage.Load()), p)
    ensures Refused(old(storage.Load()), p) ==> storage.saved == old(storage.saved)
    ensures !Refused(old(storage.Load()), p) ==> storage.saved == Some(CardAdd(old(storage.Load()), p))
  {
    var savedCart := storage.Load();
    var existing := FindMatch(savedCart, p);
    if existing.None? && |savedCart| >= MaxLines {
      notices := [Notice(CapMessage, Warning, false)];
      return;
    }
    notices := [];
    ReduceQuantitiesIsSum(savedCart, 0);
    var currentTotalQuantity := ReduceQuantities(savedCart, 0);
    if currentTotalQuantity + 1 > SoftLimit {
      notices := notices + [Notice(SoftLimitMessage, Warning, true)];
    }
    match existing {
      case Some(i) =>
        savedCart := savedCart[i := savedCart[i].(quantity := savedCart[i].quantity + 1)];
      case None =>
        savedCart := savedCart + [NewLine(p)];
    }
    storage.saved := Some(savedCart);
    notices := notices + [Notice(AddedMessage(p.name), Success, false)];
  }

  /**
   * Every accepted add raises the unit count by exactly one and the line count by at most
   * one; a matching add keeps the line count and changes only the matched line.
   */
  lemma AcceptedAddEffect(saved: seq<Line>, p: CatalogProduct)
    requires !Refused(saved, p)
    ensures Quantities(CardAdd(saved, p)) == Quantities(saved) + 1
    ensures |saved| <= |CardAdd(saved, p)| <= |saved| + 1
    ensures FindMatch(saved, p).None? ==> CardAdd(saved, p) == saved + [NewLine(p)]
    ensures FindMatch(saved, p).Some? ==>
              var i := FindMatch(saved, p).value;
              |CardAdd(saved, p)| == |saved| &&
              CardAdd(saved, p)[i].quantity == saved[i].quantity + 1 &&
              forall j :: 0 <= j < |saved| && j != i ==> CardAdd(saved, p)[j] == saved[j]
  {
    match FindMatch(saved, p)
    case Some(i) =>
      SumsUpdate(saved, i, saved[i].(quantity := saved[i].quantity + 1));
    case None =>
      SumsAppend(saved, [NewLine(p)]);
  }

  /** An accepted add keeps a cart of at most five lines at most five lines. */
  lemma AcceptedAddKeepsCap(saved: seq<Line>, p: CatalogProduct)
    requires |saved| <= MaxLines && !Refused(saved, p)
    ensures |CardAdd(saved, p)| <= MaxLines
  {
  }

  /** An add keeps one line per name, and the added product always has a line afterwards. */
  lemma CardAddKeepsUnique(saved: seq<Line>, p: CatalogProduct)
    requires UniqueNames(saved)
    ensures UniqueNames(CardAdd(saved, p))
    ensures FindMatch(CardAdd(saved, p), p).Some?
  {
    var r := CardAdd(saved, p);
    match FindMatch(saved, p)
    case Some(i) =>
      assert Matches(r[i], p);
    case None =>
      assert r[|saved|] == NewLine(p);
  }

  /** The stored cart after a run of clicks, refused ones included. */
  function AddAll(saved: seq<Line>, ps: seq<CatalogProduct>): seq<Line>
    decreases |ps|
  {
    if ps == [] then saved
    else AddAll(if Refused(saved, ps[0]) then saved else CardAdd(saved, ps[0]), ps[1..])
  }

  /** Whatever products are clicked, a cart that starts with at most five lines never exceeds five. */
  lemma {:induction false} CapHoldsForAnyClicks(saved: seq<Line>, ps: seq<CatalogProduct>)
    requires |saved| <= MaxLines
    ensures |AddAll(saved, ps)| <= MaxLines
    decreases |ps|
  {
    if ps != [] {
      var next := if Refused(saved, ps[0]) then saved else CardAdd(saved, ps[0]);
      assert |next| <= MaxLines;
      CapHoldsForAnyClicks(next, ps[1..]);
    }
  }

  /** A refused add shows only the cap warning, which is not persistent. */
  lemma RefusedAddOnlyWarns(saved: seq<Line>, p: CatalogProduct)
    requires Refused(saved, p)
    ensures AddNotices(saved, p) == [Notice(CapMessage, Warning, false)]
  {
  }

  /** The notification left on screen: the last `showNotification` call wins. */
  function Displayed(notices: seq<Notice>): Option<Notice> {
    if notices == [] then None else Some(notices[|notices| - 1])
  }

  /**
   * As written, the soft warning is raised but the success call that follows replaces it,
   * so what stays on screen is a success notice that closes itself.
   */
  lemma SoftWarningIsReplaced(saved: seq<Line>, p: CatalogProduct)
    requires !Refused(saved, p) && Quantities(saved) + 1 > SoftLimit
    ensures Notice(SoftLimitMessage, Warning, true) in AddNotices(saved, p)
    ensures Displayed(AddNotices(saved, p)) == Some(Notice(AddedMessage(p.name), Success, false))
  {
    assert AddNotices(saved, p)[0] == Notice(SoftLimitMessage, Warning, true);
  }

  /** Ten units already in the cart, one more click on a new product. */
  lemma SoftWarningReplacedExample()
    ensures var saved := [Line("تمر سكري", Some(1), 45.0, 10, None, None)];
            var p := CatalogProduct(2, "فراولة طازجة", 40.0);
            !Refused(saved, p) && Quantities(saved) + 1 > SoftLimit &&
            Displayed(AddNotices(saved, p)).value.persist == false
  {
    var saved := [Line("تمر سكري", Some(1), 45.0, 10, None, None)];
    var p := CatalogProduct(2, "فراولة طازجة", 40.0);
    assert FindMatch(saved, p).None?;
    SoftWarningIsReplaced(saved, p);
  }

  /**
   * The evidently intended notices: above the soft limit the persistent warning is the one
   * left on screen; otherwise the success notice is shown.
   */
  function IntendedAddNotices(saved: seq<Line>, p: CatalogProduct): seq<Notice> {
    if Refused(saved, p) then [Notice(CapMessage, Warning, false)]
    else if Quantities(saved) + 1 > SoftLimit then
      [Notice(AddedMessage(p.name), Success, false), Notice(SoftLimitMessage, Warning, true)]
    else [Notice(AddedMessage(p.name), Success, false)]
  }

  /** With the intended order, the warning stays on screen exactly when the add goes above ten units. */
  lemma IntendedWarningStays(saved: seq<Line>, p: CatalogProduct)
    requires !Refused(saved, p)
    ensures Displayed(IntendedAddNotices(saved, p)).value.persist <==> Quantities(CardAdd(saved, p)) > SoftLimit
  {
    AcceptedAddEffect(saved, p);
  }

  /**
   * `generateStars`: full stars, a half star when the rating is fractional, then empty
   * stars until the row has five icons.
   */
  method GenerateStars(rating: real) returns (stars: seq<Star>)
    ensures stars == StarRow(rating)
  {
    stars := [];
    var fullStars := rating.Floor;
    var hasHalfStar := rating != rating.Floor as real;
    var i := 0;
    while i < fullStars
      invariant 0 <= i <= (if fullStars < 0 then 0 else fullStars)
      invariant stars == Repeat(Full, i)
    {
      assert Repeat(Full, i + 1) == Repeat(Full, i) + [Full];
      stars := stars + [Full];
      i := i + 1;
    }
    assert |Repeat(Full, fullStars)| == i;
    assert stars == Repeat(Full, fullStars);
    if hasHalfStar {
      stars := stars + [Half];
    }
    var lead := stars;
    var emptyStars := 5 - |stars|;
    i := 0;
    while i < emptyStars
      invariant 0 <= i <= (if emptyStars < 0 then 0 else emptyStars)
      invariant stars == lead + Repeat(Empty, i)
    {
      assert Repeat(Empty, i + 1) == Repeat(Empty, i) + [Empty];
      stars := stars + [Empty];
      i := i + 1;
    }
    assert |Repeat(Empty, emptyStars)| == i;
    assert stars == lead + Repeat(Empty, emptyStars);
  }

  /** `product.rating || 4.5`: a missing rating, and a rating of 0, are drawn as 4.5. */
  function ShownRating(rating: Option<real>): (r: real)
    ensures rating.None? || rating.value == 0.0 ==> r == 4.5
    ensures rating.Some? && rating.value != 0.0 ==> r == rating.value
  {
    if rating.Some? && rating.value != 0.0 then rating.value else 4.5
  }
}
