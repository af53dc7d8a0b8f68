/** The price filter's value 'min-max', read as `priceFilter.split('-').map(Number)`. */
module PriceFilter {
  import opened Wrappers
  import opened JsStrings

  /** The two bounds; None stands for NaN, or for a missing second bound (undefined). */
  function PriceBounds(priceFilter: string): (Option<int>, Option<int>) {
    var parts := Split(priceFilter, '-');
    (ToNumber(parts[0]), if |parts| > 1 then ToNumber(parts[1]) else None)
  }

  /** A filter value 'lo-hi' reads back as its two bounds. */
  lemma RangeBounds(lo: nat, hi: nat)
    ensures PriceBounds(DecimalString(lo) + "-" + DecimalString(hi)) == (Some(lo), Some(hi))
  {
    var a, b := DecimalString(lo), DecimalString(hi);
    assert !IsDigit('-');
    assert '-' !in a && '-' !in b;
    assert Join([b], '-') == b;
    assert Join([a, b], '-') == a + "-" + b;
    SplitJoin([a, b], '-');
    var parts := Split(a + "-" + b, '-');
    assert parts == [a, b];
    ToNumberDecimal(lo);
    ToNumberDecimal(hi);
  }

  /** A value without '-' (such as a single number) has no second bound. */
  lemma SingleValueHasNoUpperBound(priceFilter: string)
    requires '-' !in priceFilter
    ensures PriceBounds(priceFilter).1.None?
  {
    SplitPlain(priceFilter, '-');
  }
}
