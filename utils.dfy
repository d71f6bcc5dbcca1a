/**
 * The two computing helpers of `src/lib/utils.ts`: `truncateText` and
 * `calculateAverageRating`. Ratings are exact reals rather than
 * floating-point numbers.
 */
module Utils {

  /**
   * The end index `text.slice(0, end)` stops at, for a text of length `len`:
   * a negative end counts back from the end of the text, and either kind is
   * clamped to the text.
   */
  function SliceEnd(len: nat, end: int): (e: nat)
    ensures e <= len
    ensures 0 <= end <= len ==> e == end
    ensures end < 0 && 0 <= len + end ==> e == len + end
    ensures len < end ==> e == len
    ensures len + end < 0 ==> e == 0
  {
    if end >= 0 then (if end <= len then end else len)
    else if len + end >= 0 then len + end
    else 0
  }

  /**
   * `truncateText`: a text no longer than `maxLength` is returned as it is;
   * a longer one is cut with `slice(0, maxLength)` and gets "..." appended.
   */
  function TruncateText(text: string, maxLength: int): (r: string)
    ensures |text| <= maxLength ==> r == text
    ensures 0 <= maxLength < |text| ==> r == text[..maxLength] + "..." && |r| == maxLength + 3
    ensures maxLength < 0 ==> r == text[..SliceEnd(|text|, maxLength)] + "..."
  {
    if |text| <= maxLength then text else text[..SliceEnd(|text|, maxLength)] + "..."
  }

  /** For a non-negative limit, the result starts with as much of the text as the limit allows and is at most three longer than the limit. */
  lemma TruncateKeepsPrefix(text: string, maxLength: int)
    requires 0 <= maxLength
    ensures text[..if |text| < maxLength then |text| else maxLength] <= TruncateText(text, maxLength)
    ensures |TruncateText(text, maxLength)| <= maxLength + 3
  {
  }

  /**
   * Truncating again to the same non-negative limit gives the same text: a
   * cut text is cut again at the same place and gets the same "...".
   */
  lemma TruncateIdempotent(text: string, maxLength: int)
    requires 0 <= maxLength
    ensures TruncateText(TruncateText(text, maxLength), maxLength) == TruncateText(text, maxLength)
  {
    if maxLength < |text| {
      var once := TruncateText(text, maxLength);
      assert once[..maxLength] == text[..maxLength];
    }
  }

  /** `ratings.reduce((acc, curr) => acc + curr, 0)`, a left fold. */
  function Sum(ratings: seq<real>): real
  {
    if ratings == [] then 0.0 else Sum(ratings[..|ratings| - 1]) + ratings[|ratings| - 1]
  }

  /** `calculateAverageRating`: 0 for no ratings, otherwise their mean. */
  function CalculateAverageRating(ratings: seq<real>): (avg: real)
    ensures ratings == [] ==> avg == 0.0
    ensures ratings != [] ==> avg * (|ratings| as real) == Sum(ratings)
  {
    if |ratings| == 0 then 0.0 else Sum(ratings) / (|ratings| as real)
  }

  /** Every rating lies in [lo, hi]. */
  predicate Within(ratings: seq<real>, lo: real, hi: real)
  {
    forall j :: 0 <= j < |ratings| ==> lo <= ratings[j] <= hi
  }

  lemma {:induction false} SumBounds(ratings: seq<real>, lo: real, hi: real)
    requires Within(ratings, lo, hi)
    ensures (|ratings| as real) * lo <= Sum(ratings) <= (|ratings| as real) * hi
  {
    if ratings != [] {
      var prefix := ratings[..|ratings| - 1];
      assert Within(prefix, lo, hi) by {
        forall j | 0 <= j < |prefix|
          ensures lo <= prefix[j] <= hi
        {
          assert prefix[j] == ratings[j];
        }
      }
      SumBounds(prefix, lo, hi);
    }
  }

  /** The average of ratings in [lo, hi] is in [lo, hi]: five-star ratings average to at most five stars. */
  lemma AverageBounds(ratings: seq<real>, lo: real, hi: real)
    requires ratings != [] && Within(ratings, lo, hi)
    ensures lo <= CalculateAverageRating(ratings) <= hi
  {
    SumBounds(ratings, lo, hi);
    var n := |ratings| as real;
    var avg := CalculateAverageRating(ratings);
    CancelPositive(lo, avg, n);
    CancelPositive(avg, hi, n);
  }

  /** Dividing both sides of an inequality by a positive number. */
  lemma CancelPositive(a: real, b: real, n: real)
    requires 0.0 < n && n * a <= b * n
    ensures a <= b
  {
  }

  /** Equal ratings average to that rating. */
  lemma AverageOfEqual(ratings: seq<real>, rating: real)
    requires ratings != [] && Within(ratings, rating, rating)
    ensures CalculateAverageRating(ratings) == rating
  {
    AverageBounds(ratings, rating, rating);
  }
}
