/**
 * The static site's product page script: the fixed catalog, the star markup, the category
 * and price-range filter, the price and image scrapers used when an add-to-cart button lacks
 * its data attributes, the add that runs when no cart object is loaded, and the header
 * badge count.
 */
module LegacyProducts {
  import opened Wrappers
  import opened JsStrings
  import opened Sequences
  import opened CartLines
  import opened StarRating
  import opened PriceFilter

  /** A catalog entry; every price in this catalog is a whole number of riyals. */
  datatype Product = Product(id: int, name: string, price: nat, category: string, farm: string,
                             image: string, rating: real, reviews: nat)

  const Catalog: seq<Product> := [
    Product(1, "تمر سكري", 45, "dates", "مزرعة النخيل",
            "https://images.unsplash.com/photo-1594736797933-d0d69e1e5d3f?ixlib=rb-4.0.3&auto=format&fit=crop&w=1000&q=80", 4.5, 128),
    Product(2, "فراولة طازجة", 40, "fruits", "مزرعة الفواكه",
            "https://images.unsplash.com/photo-1464965911861-746a04b4bca6?ixlib=rb-4.0.3&auto=format&fit=crop&w=1000&q=80", 4.2, 95),
    Product(3, "طماطم عضوية", 15, "vegetables", "مزارع الوادي",
            "https://images.unsplash.com/photo-1546470427-e212b7d310a2?ixlib=rb-4.0.3&auto=format&fit=crop&w=1000&q=80", 4.8, 210),
    Product(4, "حليب طازج", 12, "dairy", "مزرعة الألبان",
            "https://images.unsplash.com/photo-1563636619-e9143da7973b?ixlib=rb-4.0.3&auto=format&fit=crop&w=1000&q=80", 4.6, 167),
    Product(5, "تمر خلاص", 60, "dates", "مزرعة النخيل",
            "https://images.unsplash.com/photo-1574323347407-f5e1ad6d020b?ixlib=rb-4.0.3&auto=format&fit=crop&w=1000&q=80", 4.9, 89),
    Product(6, "عنب أحمر", 35, "fruits", "مزرعة الفواكه",
            "https://images.unsplash.com/photo-1591206369813-3e02ad795e68?ixlib=rb-4.0.3&auto=format&fit=crop&w=1000&q=80", 4.3, 76)
  ]

  /** Every catalog rating lies between 0 and 5, so every catalog card draws five icons. */
  lemma CatalogDrawsFiveStars()
    ensures forall i :: 0 <= i < |Catalog| ==> |StarRow(Catalog[i].rating)| == 5
  {
    forall i | 0 <= i < |Catalog| ensures |StarRow(Catalog[i].rating)| == 5 {
      StarRowOfRating(Catalog[i].rating);
    }
  }

  // ---------------------------------------------------------------- star markup

  const FullIcon: string := "<i class=\"fas fa-star\"></i>"
  const HalfIcon: string := "<i class=\"fas fa-star-half-alt\"></i>"
  const EmptyIcon: string := "<i class=\"far fa-star\"></i>"

  function Icon(s: Star): string {
    match s
    case Full => FullIcon
    case Half => HalfIcon
    case Empty => EmptyIcon
  }

  /** The markup pushed for a row of icons, one string per icon. */
  function Icons(row: seq<Star>): (r: seq<string>)
    ensures |r| == |row|
  {
    seq(|row|, i requires 0 <= i < |row| => Icon(row[i]))
  }

  lemma IconsSnoc(row: seq<Star>, s: Star)
    ensures Icons(row + [s]) == Icons(row) + [Icon(s)]
  {
  }

  /** `parts.join('')`. */
  function Concat(parts: seq<string>): string {
    if parts == [] then [] else parts[0] + Concat(parts[1..])
  }

  /**
   * The markup for a rating: the pushed icons are those of the shared star row, and the
   * result is their concatenation.
   */
  method GenerateStars(rating: real) returns (html: string)
    ensures html == Concat(Icons(StarRow(rating)))
  {
    var stars: seq<string> := [];
    var fullStars := rating.Floor;
    var hasHalfStar := rating != rating.Floor as real;
    var i := 0;
    while i < fullStars
      invariant 0 <= i <= (if fullStars < 0 then 0 else fullStars)
      invariant stars == Icons(Repeat(Full, i))
    {
      assert Repeat(Full, i + 1) == Repeat(Full, i) + [Full];
      IconsSnoc(Repeat(Full, i), Full);
      stars := stars + [FullIcon];
      i := i + 1;
    }
    assert |Repeat(Full, fullStars)| == i;
    var lead := Repeat(Full, fullStars) + (if hasHalfStar then [Half] else []);
    if hasHalfStar {
      IconsSnoc(Repeat(Full, fullStars), Half);
      stars := stars + [HalfIcon];
    }
    assert stars == Icons(lead) && |stars| == |lead|;
    var emptyStars := 5 - |stars|;
    i := 0;
    while i < emptyStars
      invariant 0 <= i <= (if emptyStars < 0 then 0 else emptyStars)
      invariant stars == Icons(lead + Repeat(Empty, i))
    {
      assert lead + Repeat(Empty, i + 1) == (lead + Repeat(Empty, i)) + [Empty];
      IconsSnoc(lead + Repeat(Empty, i), Empty);
      stars := stars + [EmptyIcon];
      i := i + 1;
    }
    assert |Repeat(Empty, emptyStars)| == i;
    assert StarRow(rating) == lead + Repeat(Empty, emptyStars);
    html := Concat(stars);
  }

  // ---------------------------------------------------------------- filter

  function InCategory(category: string): Product -> bool {
    (p: Product) => p.category == category
  }

  /** `price >= min && price <= max`: any comparison with NaN or undefined is false. */
  function InPriceRange(bounds: (Option<int>, Option<int>)): Product -> bool {
    (p: Product) => bounds.0.Some? && bounds.1.Some? && bounds.0.value <= p.price && p.price <= bounds.1.value
  }

  function FilterProducts(products: seq<Product>, categoryFilter: string, priceFilter: string): seq<Product> {
    var byCategory := if categoryFilter != "all" then Filter(products, InCategory(categoryFilter)) else products;
    if priceFilter != "all" then Filter(byCategory, InPriceRange(PriceBounds(priceFilter))) else byCategory
  }

  /** Whether one product passes both filters. */
  predicate Passes(p: Product, categoryFilter: string, priceFilter: string) {
    (categoryFilter == "all" || p.category == categoryFilter) &&
    (priceFilter == "all" || InPriceRange(PriceBounds(priceFilter))(p))
  }

  /**
   * The result keeps the products' order, holds only products that pass both filters, and
   * holds every product that does; 'all' imposes nothing.
   */
  lemma FilterProductsExact(products: seq<Product>, categoryFilter: string, priceFilter: string)
    ensures var r := FilterProducts(products, categoryFilter, priceFilter);
            SubsequenceOf(r, products) &&
            (forall i :: 0 <= i < |r| ==> r[i] in products && Passes(r[i], categoryFilter, priceFilter)) &&
            (forall i :: 0 <= i < |products| && Passes(products[i], categoryFilter, priceFilter) ==> products[i] in r)
  {
    var byCategory := if categoryFilter != "all" then Filter(products, InCategory(categoryFilter)) else products;
    var r := FilterProducts(products, categoryFilter, priceFilter);
    if categoryFilter != "all" {
      FilterIsSubsequence(products, InCategory(categoryFilter));
    } else {
      SubsequenceRefl(products);
    }
    if priceFilter != "all" {
      FilterIsSubsequence(byCategory, InPriceRange(PriceBounds(priceFilter)));
      SubsequenceTrans(r, byCategory, products);
    }
    forall i | 0 <= i < |products| && Passes(products[i], categoryFilter, priceFilter)
      ensures products[i] in r
    {
      assert products[i] in byCategory;
    }
  }

  /** A range written 'lo-hi' keeps exactly the prices from lo to hi, both ends included. */
  lemma RangeIsInclusive(lo: nat, hi: nat, p: Product)
    ensures InPriceRange(PriceBounds(DecimalString(lo) + "-" + DecimalString(hi)))(p) <==> lo <= p.price <= hi
  {
    RangeBounds(lo, hi);
  }

  /** A bound that is not a number (NaN) leaves nothing: every product fails the range. */
  lemma NaNBoundKeepsNothing(products: seq<Product>, categoryFilter: string, priceFilter: string)
    requires priceFilter != "all"
    requires PriceBounds(priceFilter).0.None? || PriceBounds(priceFilter).1.None?
    ensures FilterProducts(products, categoryFilter, priceFilter) == []
  {
    var byCategory := if categoryFilter != "all" then Filter(products, InCategory(categoryFilter)) else products;
    FilterNonePass(byCategory, InPriceRange(PriceBounds(priceFilter)));
  }

  // ---------------------------------------------------------------- price and image scrapers

  function FirstDigit(s: string): (r: Option<nat>)
    ensures r.Some? ==> r.value < |s| && IsDigit(s[r.value]) &&
                        forall j :: 0 <= j < r.value ==> !IsDigit(s[j])
    ensures r.None? ==> forall j :: 0 <= j < |s| ==> !IsDigit(s[j])
  {
    if s == [] then None
    else if IsDigit(s[0]) then Some(0)
    else
      var r := FirstDigit(s[1..]);
      if r.None? then None else Some(r.value + 1)
  }

  /** A decimal number as `\d+(\.\d+)?` spells it: digits, or digits, a point and digits. */
  predicate IsDecimal(s: string) {
    (s != [] && AllDigits(s)) ||
    exists k :: 0 < k < |s| - 1 && s[k] == '.' && AllDigits(s[..k]) && AllDigits(s[k + 1..])
  }

  /** A run of digits at the start of the text is never longer than its maximal digit run. */
  lemma DigitRunWithin(t: string, n: nat)
    requires n <= |t| && AllDigits(t[..n])
    ensures n <= |DigitPrefix(t)|
  {
    assert forall i :: 0 <= i < n ==> IsDigit(t[i]) by {
      forall i | 0 <= i < n ensures IsDigit(t[i]) { assert t[..n][i] == t[i]; }
    }
  }

  /**
   * A decimal prefix of the text is at most the digit run, or, when a point and a digit follow
   * that run, at most the run, the point and the digits after it.
   */
  lemma DecimalPrefixWithin(t: string, n: nat)
    requires n <= |t| && IsDecimal(t[..n])
    ensures var w := DigitPrefix(t);
            var rest := t[|w|..];
            n <= |w| ||
            (|rest| >= 2 && rest[0] == '.' && IsDigit(rest[1]) && n <= |w| + 1 + |DigitPrefix(rest[1..])|)
  {
    var p := t[..n];
    var w := DigitPrefix(t);
    if AllDigits(p) {
      DigitRunWithin(t, n);
    } else {
      var k :| 0 < k < |p| - 1 && p[k] == '.' && AllDigits(p[..k]) && AllDigits(p[k + 1..]);
      assert t[..k] == p[..k];
      DigitRunWithin(t, k);
      assert forall i :: 0 <= i < |w| ==> IsDigit(t[i]) by {
        forall i | 0 <= i < |w| ensures IsDigit(t[i]) { assert w[i] == t[i]; }
      }
      assert k == |w|;
      var rest := t[|w|..];
      assert rest[0] == t[k] == '.';
      assert rest[1] == p[k + 1];
      var after := rest[1..];
      assert after[..n - k - 1] == p[k + 1..];
      DigitRunWithin(after, n - k - 1);
    }
  }

  /** No prefix of the text longer than m is a decimal number. */
  lemma LongestDecimalPrefix(t: string, m: nat)
    requires var w := DigitPrefix(t);
             var rest := t[|w|..];
             if |rest| >= 2 && rest[0] == '.' && IsDigit(rest[1])
             then m == |w| + 1 + |DigitPrefix(rest[1..])| else m == |w|
    ensures forall n :: m < n <= |t| ==> !IsDecimal(t[..n])
  {
    forall n | m < n <= |t|
      ensures !IsDecimal(t[..n])
    {
      if IsDecimal(t[..n]) {
        DecimalPrefixWithin(t, n);
      }
    }
  }

  /**
   * What `(\d+(\.\d+)?)` takes at a digit: the longest prefix of the text that is a decimal
   * number, the digit run and a fraction when `.` and a digit follow.
   */
  function NumberAt(t: string): (r: string)
    requires t != [] && IsDigit(t[0])
    ensures |r| <= |t| && r == t[..|r|] && IsDecimal(r)
    ensures forall n :: |r| < n <= |t| ==> !IsDecimal(t[..n])
  {
    var whole := DigitPrefix(t);
    var rest := t[|whole|..];
    if |rest| >= 2 && rest[0] == '.' && IsDigit(rest[1]) then
      var frac := DigitPrefix(rest[1..]);
      var r := whole + "." + frac;
      assert t[..|whole| + 1 + |frac|] == r;
      assert r[..|whole|] == whole && r[|whole| + 1..] == frac;
      LongestDecimalPrefix(t, |r|);
      r
    else
      assert whole != [] by { assert t[..1] == [t[0]]; DigitRunWithin(t, 1); }
      LongestDecimalPrefix(t, |whole|);
      whole
  }

  /**
   * The first decimal number in the text, or '0' when the text has no digit: the match starts at
   * the first digit and is the longest decimal number starting there.
   */
  function ExtractPrice(priceText: string): (r: string)
    ensures r != []
    ensures FirstDigit(priceText).None? ==> r == "0"
    ensures FirstDigit(priceText).Some? ==>
              var i := FirstDigit(priceText).value;
              i + |r| <= |priceText| && r == priceText[i..i + |r|] && IsDecimal(r) &&
              forall n :: i + |r| < n <= |priceText| ==> !IsDecimal(priceText[i..n])
  {
    match FirstDigit(priceText)
    case None => "0"
    case Some(i) =>
      var t := priceText[i..];
      var r := NumberAt(t);
      assert forall n :: i + |r| < n <= |priceText| ==> priceText[i..n] == t[..n - i];
      r
  }

  /** The price text a card shows for a catalog price. */
  function PriceLabel(price: nat): string {
    DecimalString(price) + " ريال / كجم"
  }

  lemma {:induction false} FirstDigitAfter(prefix: string, rest: string)
    requires forall j :: 0 <= j < |prefix| ==> !IsDigit(prefix[j])
    requires rest != [] && IsDigit(rest[0])
    ensures FirstDigit(prefix + rest) == Some(|prefix|)
  {
    if prefix != [] {
      assert (prefix + rest)[1..] == prefix[1..] + rest;
      FirstDigitAfter(prefix[1..], rest);
    }
  }

  /**
   * Scraping a rendered whole price, with any digit-free text before it and a unit after it,
   * gives back exactly the rendered number.
   */
  lemma ExtractPriceReadsLabel(prefix: string, price: nat)
    requires forall j :: 0 <= j < |prefix| ==> !IsDigit(prefix[j])
    ensures ExtractPrice(prefix + PriceLabel(price)) == DecimalString(price)
  {
    var d := DecimalString(price);
    var suffix := " ريال / كجم";
    assert prefix + PriceLabel(price) == prefix + (d + suffix);
    FirstDigitAfter(prefix, d + suffix);
    assert (prefix + (d + suffix))[|prefix|..] == d + suffix;
    DigitPrefixOf(d, suffix);
  }

  /** Text without digits scrapes to '0'. */
  lemma ExtractPriceWithoutDigits(priceText: string)
    requires forall j :: 0 <= j < |priceText| ==> !IsDigit(priceText[j])
    ensures ExtractPrice(priceText) == "0"
  {
  }

  /**
   * The image URL behind an element's `style.backgroundImage` (None for a missing element):
   * a value starting with 'url' loses its first five and last two characters; anything else
   * gives ''.
   */
  function ExtractBackgroundImage(element: Option<string>): (r: string)
    ensures element.None? || !StartsWith(element.value, "url") ==> r == ""
  {
    if element.None? then ""
    else
      var style := element.value;
      if style != "" && StartsWith(style, "url") then Slice(style, 5, -2) else ""
  }

  /** The browser's serialised form of `url('x')` is `url("x")`, which scrapes back to x. */
  lemma BackgroundImageRoundTrip(url: string)
    ensures ExtractBackgroundImage(Some("url(\"" + url + "\")")) == url
  {
    var style := "url(\"" + url + "\")";
    assert style[..3] == "url";
    assert style[5..|style| - 2] == url;
  }

  // ---------------------------------------------------------------- add-to-cart button

  const DefaultFarm: string := "مزارع الوادي"

  /** `value || fallback` for an attribute or text that may be absent or empty. */
  function OrElse(value: Option<string>, fallback: string): (r: string)
    ensures value.Some? && value.value != "" ==> r == value.value
    ensures value.None? || value.value == "" ==> r == fallback
  {
    if value.Some? && value.value != "" then value.value else fallback
  }

  /** The price, image and farm the button handler passes on. */
  datatype ButtonFields = ButtonFields(price: string, image: string, farm: string)

  /**
   * Each field comes from the button's data attribute when set, otherwise from the card:
   * the scraped price, the scraped background image, the farm text or the default farm.
   */
  function ResolveFields(dataPrice: Option<string>, priceText: string, dataImage: Option<string>,
                         imageStyle: Option<string>, dataFarm: Option<string>, farmText: Option<string>): (f: ButtonFields)
    ensures f.price != "" && f.farm != ""
    ensures dataPrice.Some? && dataPrice.value != "" ==> f.price == dataPrice.value
    ensures (dataPrice.None? || dataPrice.value == "") ==> f.price == ExtractPrice(priceText)
    ensures dataImage.Some? && dataImage.value != "" ==> f.image == dataImage.value
    ensures (dataImage.None? || dataImage.value == "") ==> f.image == ExtractBackgroundImage(imageStyle)
    ensures dataFarm.Some? && dataFarm.value != "" ==> f.farm == dataFarm.value
    ensures (dataFarm.None? || dataFarm.value == "") && farmText.Some? && farmText.value != "" ==>
              f.farm == farmText.value
    ensures (dataFarm.None? || dataFarm.value == "") && (farmText.None? || farmText.value == "") ==>
              f.farm == DefaultFarm
  {
    ButtonFields(OrElse(dataPrice, ExtractPrice(priceText)),
                 OrElse(dataImage, ExtractBackgroundImage(imageStyle)),
                 OrElse(dataFarm, OrElse(farmText, DefaultFarm)))
  }

  function FallbackAlert(name: string): string {
    "تمت إضافة " + name + " إلى السلة"
  }

  /**
   * The add used when neither a global add function nor a cart manager is loaded: a new
   * one-unit line is always pushed, even when a line with that name exists, and the badge
   * count is the stored cart's unit count.
   */
  method FallbackAdd(storage: Storage, name: string, price: real, image: string, farm: string)
    returns (alert: string, badge: int)
    modifies storage
    ensures storage.saved == Some(old(storage.Load()) + [Line(name, None, price, 1, Some(image), Some(farm))])
    ensures alert == FallbackAlert(name)
    ensures badge == Quantities(storage.Load())
  {
    alert := FallbackAlert(name);
    var cart := storage.Load();
    cart := cart + [Line(name, None, price, 1, Some(image), Some(farm))];
    storage.saved := Some(cart);
    badge := UpdateCartCount(storage);
  }

  /** The fallback add raises the unit count by one and, for a name already present, duplicates it. */
  lemma FallbackDuplicates(cart: seq<Line>, line: Line)
    requires line.quantity == 1
    ensures Quantities(cart + [line]) == Quantities(cart) + 1
    ensures FindName(cart, line.product).Some? ==> !UniqueNames(cart + [line])
  {
    SumsAppend(cart, [line]);
    if FindName(cart, line.product).Some? {
      var i := FindName(cart, line.product).value;
      assert (cart + [line])[i].product == (cart + [line])[|cart|].product;
    }
  }

  /** The number every `.cart-count` badge shows: Σ quantity of the stored cart. */
  method UpdateCartCount(storage: Storage) returns (totalItems: int)
    ensures totalItems == Quantities(storage.Load())
  {
    var cart := storage.Load();
    ReduceQuantitiesIsSum(cart, 0);
    totalItems := ReduceQuantities(cart, 0);
  }
}
