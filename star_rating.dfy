/**
 * The star row both product listings draw for a rating: `Math.floor(rating)` full stars, one
 * half star when `rating % 1 !== 0`, then empty stars up to five icons in all.
 */
module StarRating {

  datatype Star = Full | Half | Empty

  /** `n` copies of one icon; none when `n` is not positive, as a `for (i = 0; i < n; i++)` loop gives. */
  function Repeat(s: Star, n: int): (r: seq<Star>)
    ensures |r| == (if n <= 0 then 0 else n)
    ensures forall i :: 0 <= i < |r| ==> r[i] == s
    decreases n
  {
    if n <= 0 then [] else [s] + Repeat(s, n - 1)
  }

  /** `rating % 1 !== 0`: the rating has a fractional part. */
  predicate HasHalf(rating: real) {
    rating != rating.Floor as real
  }

  /** The icons the source's loops push, in order. */
  function StarRow(rating: real): seq<Star> {
    var lead := Repeat(Full, rating.Floor) + (if HasHalf(rating) then [Half] else []);
    lead + Repeat(Empty, 5 - |lead|)
  }

  /**
   * For a rating between 0 and 5 the row has exactly five icons: ⌊rating⌋ full ones, then a
   * half one exactly when the rating is fractional, then empty ones.
   */
  lemma StarRowOfRating(rating: real)
    requires 0.0 <= rating <= 5.0
    ensures |StarRow(rating)| == 5
    ensures forall i :: 0 <= i < 5 ==> (StarRow(rating)[i] == Full <==> i < rating.Floor)
    ensures forall i :: 0 <= i < 5 ==>
              (StarRow(rating)[i] == Half <==> HasHalf(rating) && i == rating.Floor)
  {
    var f := rating.Floor;
    assert 0 <= f <= 5;
    assert f == 5 ==> !HasHalf(rating);
  }

  /** A rating above 5 is not capped: from 6 on, the row has more than five icons. */
  lemma StarRowAboveFive(rating: real)
    requires rating >= 6.0
    ensures |StarRow(rating)| > 5
  {
  }
}
