/** The average star rating of a book, shared by the detail dialog and the
    book card (both compute `sum / length`, or 0 for no ratings). */
module Ratings {
  import opened Types

  function RatingSum(rs: seq<Rating>): int {
    if rs == [] then 0 else rs[0].rating + RatingSum(rs[1..])
  }

  function AverageRating(rs: seq<Rating>): (avg: real)
    ensures |rs| == 0 ==> avg == 0.0
    ensures |rs| > 0 ==> avg * (|rs| as real) == RatingSum(rs) as real
  {
    if |rs| == 0 then 0.0 else RatingSum(rs) as real / |rs| as real
  }

  predicate RatingsWithin(rs: seq<Rating>, lo: int, hi: int) {
    forall i :: 0 <= i < |rs| ==> lo <= rs[i].rating <= hi
  }

  lemma {:induction false} SumWithin(rs: seq<Rating>, lo: int, hi: int)
    requires RatingsWithin(rs, lo, hi)
    ensures lo * |rs| <= RatingSum(rs) <= hi * |rs|
  {
    if rs != [] {
      SumWithin(rs[1..], lo, hi);
      assert lo * |rs| == lo + lo * |rs[1..]|;
      assert hi * |rs| == hi + hi * |rs[1..]|;
    }
  }

  /** Converting a product of integers to a real. */
  lemma RealOfProduct(a: int, b: int)
    ensures (a * b) as real == (a as real) * (b as real)
  {
  }

  /** Dividing both sides of c * n <= x * n by a positive n. */
  lemma ScaleBack(c: real, x: real, n: real)
    requires n > 0.0 && c * n <= x * n
    ensures c <= x
  {
    var d := x - c;
    assert d * n == x * n - c * n;
    assert d * n >= 0.0;
  }

  /** A mean of values between lo and hi lies between lo and hi. */
  lemma MeanWithin(sum: real, n: real, avg: real, lo: real, hi: real)
    requires n > 0.0 && avg * n == sum && lo * n <= sum <= hi * n
    ensures lo <= avg <= hi
  {
    ScaleBack(lo, avg, n);
    ScaleBack(avg, hi, n);
  }

  /** The average of ratings that all lie in [lo, hi] lies in [lo, hi]. */
  lemma AverageWithin(rs: seq<Rating>, lo: int, hi: int)
    requires |rs| > 0 && RatingsWithin(rs, lo, hi)
    ensures lo as real <= AverageRating(rs) <= hi as real
  {
    SumWithin(rs, lo, hi);
    RealOfProduct(lo, |rs|);
    RealOfProduct(hi, |rs|);
    MeanWithin(RatingSum(rs) as real, |rs| as real, AverageRating(rs), lo as real, hi as real);
  }
}
