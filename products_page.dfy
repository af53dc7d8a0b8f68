/**
 * The React products page: the list comes from the API response (the `results` of a
 * paginated answer, or the answer itself), and the shown list keeps the products whose
 * price is not outside the chosen range. The category select is disabled and ignored.
 */
module ProductsPage {
  import opened Wrappers
  import opened JsStrings
  import opened Sequences
  import opened PriceFilter

  /** A product as the API returns it; `price` is `parseFloat(product.price)`, None for NaN. */
  datatype ApiProduct = ApiProduct(id: int, name: string, price: Option<real>)

  /** The two shapes of the products answer. */
  datatype ProductsResponse = Paginated(count: nat, results: seq<ApiProduct>) | Listed(items: seq<ApiProduct>)

  /** `data.results` when present (an array is truthy even when empty), else `data`. */
  function ProductList(data: ProductsResponse): (products: seq<ApiProduct>)
    ensures data.Paginated? ==> products == data.results
    ensures data.Listed? ==> products == data.items
  {
    match data
    case Paginated(_, results) => results
    case Listed(items) => items
  }

  /**
   * `!(price < min || price > max)`: a product is dropped only by a comparison that holds,
   * and every comparison with NaN or undefined is false.
   */
  function NotOutside(bounds: (Option<int>, Option<int>)): ApiProduct -> bool {
    (p: ApiProduct) =>
      !((bounds.0.Some? && p.price.Some? && p.price.value < bounds.0.value as real) ||
        (bounds.1.Some? && p.price.Some? && p.price.value > bounds.1.value as real))
  }

  function FilteredProducts(products: seq<ApiProduct>, categoryFilter: string, priceFilter: string): seq<ApiProduct> {
    if priceFilter != "all" then Filter(products, NotOutside(PriceBounds(priceFilter))) else products
  }

  /** 'all' keeps every product, and any filter keeps the products' order. */
  lemma FilteredProductsKeepOrder(products: seq<ApiProduct>, categoryFilter: string, priceFilter: string)
    ensures priceFilter == "all" ==> FilteredProducts(products, categoryFilter, priceFilter) == products
    ensures SubsequenceOf(FilteredProducts(products, categoryFilter, priceFilter), products)
  {
    if priceFilter != "all" {
      FilterIsSubsequence(products, NotOutside(PriceBounds(priceFilter)));
    } else {
      SubsequenceRefl(products);
    }
  }

  /** The category choice never changes the shown list. */
  lemma CategoryIgnored(products: seq<ApiProduct>, c1: string, c2: string, priceFilter: string)
    ensures FilteredProducts(products, c1, priceFilter) == FilteredProducts(products, c2, priceFilter)
  {
  }

  predicate InRangeOrNaN(p: ApiProduct, lo: nat, hi: nat) {
    p.price.None? || lo as real <= p.price.value <= hi as real
  }

  /**
   * With a range 'lo-hi', a product with a price is shown exactly when lo ≤ price ≤ hi; a
   * product whose price is not a number is always shown.
   */
  lemma RangeKeepsExactly(products: seq<ApiProduct>, categoryFilter: string, lo: nat, hi: nat)
    ensures var r := FilteredProducts(products, categoryFilter, DecimalString(lo) + "-" + DecimalString(hi));
            (forall i :: 0 <= i < |r| ==>
               r[i] in products && (r[i].price.Some? ==> lo as real <= r[i].price.value <= hi as real)) &&
            (forall i :: 0 <= i < |products| && InRangeOrNaN(products[i], lo, hi) ==> products[i] in r)
  {
    var f := DecimalString(lo) + "-" + DecimalString(hi);
    assert f != "all" by {
      assert IsDigit(f[0]) && !IsDigit('a');
    }
    RangeBounds(lo, hi);
  }

  /** Bounds that are both NaN drop nothing (the legacy filter drops everything instead). */
  lemma NaNBoundsKeepEverything(products: seq<ApiProduct>, categoryFilter: string, priceFilter: string)
    requires PriceBounds(priceFilter).0.None? && PriceBounds(priceFilter).1.None?
    ensures FilteredProducts(products, categoryFilter, priceFilter) == products
  {
    if priceFilter != "all" {
      FilterAllPass(products, NotOutside(PriceBounds(priceFilter)));
    }
  }

  /**
   * A single number as the filter value leaves the upper bound undefined, and the lower bound
   * still applies: a product with a price is shown exactly when its price is at least that
   * number, and a product whose price is not a number is always shown.
   */
  lemma LowerBoundOnly(products: seq<ApiProduct>, categoryFilter: string, lo: nat)
    ensures var r := FilteredProducts(products, categoryFilter, DecimalString(lo));
            (forall i :: 0 <= i < |r| ==>
               r[i] in products && (r[i].price.Some? ==> lo as real <= r[i].price.value)) &&
            (forall i :: 0 <= i < |products| && (products[i].price.None? || lo as real <= products[i].price.value) ==>
               products[i] in r)
  {
    var f := DecimalString(lo);
    assert f != "all" by {
      assert IsDigit(f[0]) && !IsDigit('a');
    }
    assert '-' !in f by {
      assert !IsDigit('-');
    }
    SplitPlain(f, '-');
    ToNumberDecimal(lo);
    assert PriceBounds(f) == (Some(lo), None);
  }
}
