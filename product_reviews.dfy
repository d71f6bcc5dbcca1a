/**
 * The review helpers of `src/components/product/ProductReviews.tsx`: the
 * one-vote-per-review map behind the Helpful / Not Helpful buttons, the
 * "Most Helpful" ordering, the per-rating histogram and the star-fill rule.
 */
module ProductReviews {
  import opened Common

  datatype Review = Review(
    id: int,
    author: string,
    rating: int,
    date: string,
    title: string,
    comment: string,
    helpful: int,
    notHelpful: int,
    verified: bool)

  // ---------------------------------------------------------------------
  // Helpful votes

  /**
   * `handleHelpfulVote` on the vote map: a review that already has a vote
   * keeps it; otherwise the vote is recorded. Other reviews are untouched.
   */
  function Vote(votes: map<int, bool>, reviewId: int, isHelpful: bool): (r: map<int, bool>)
    ensures reviewId in r
    ensures r[reviewId] == if reviewId in votes then votes[reviewId] else isHelpful
    ensures forall id :: id != reviewId ==> (id in r <==> id in votes)
    ensures forall id :: id != reviewId && id in votes ==> r[id] == votes[id]
  {
    if reviewId in votes then votes else votes[reviewId := isHelpful]
  }

  /** A second vote on the same review changes nothing. */
  lemma VoteOnce(votes: map<int, bool>, reviewId: int, first: bool, second: bool)
    ensures Vote(Vote(votes, reviewId, first), reviewId, second) == Vote(votes, reviewId, first)
  {
  }

  /** Votes cast one after another: (review id, isHelpful) clicks. */
  function ApplyVotes(votes: map<int, bool>, clicks: seq<(int, bool)>): map<int, bool>
    decreases |clicks|
  {
    if clicks == [] then votes else ApplyVotes(Vote(votes, clicks[0].0, clicks[0].1), clicks[1..])
  }

  /** The first click on `reviewId`, if any. */
  function FirstClick(clicks: seq<(int, bool)>, reviewId: int): Option<bool>
  {
    if clicks == [] then None
    else if clicks[0].0 == reviewId then Some(clicks[0].1)
    else FirstClick(clicks[1..], reviewId)
  }

  /**
   * After any sequence of clicks, a review's recorded vote is the one it
   * already had, else its first click; reviews never clicked have none.
   */
  lemma {:induction false} FirstVoteWins(votes: map<int, bool>, clicks: seq<(int, bool)>, reviewId: int)
    ensures reviewId in votes ==>
      reviewId in ApplyVotes(votes, clicks) && ApplyVotes(votes, clicks)[reviewId] == votes[reviewId]
    ensures reviewId !in votes ==>
      (reviewId in ApplyVotes(votes, clicks) <==> FirstClick(clicks, reviewId).Some?)
    ensures reviewId !in votes && FirstClick(clicks, reviewId).Some? ==>
      ApplyVotes(votes, clicks)[reviewId] == FirstClick(clicks, reviewId).value
    decreases |clicks|
  {
    if clicks != [] {
      FirstVoteWins(Vote(votes, clicks[0].0, clicks[0].1), clicks[1..], reviewId);
    }
  }

  /** The review panel's state. */
  class ReviewPanel {
    var helpfulVotes: map<int, bool>

    constructor ()
      ensures helpfulVotes == map[]
    {
      helpfulVotes := map[];
    }

    /**
     * `handleHelpfulVote`: a click on a review whose buttons are disabled
     * changes nothing, and after any click that review's buttons are disabled.
     */
    method HandleHelpfulVote(reviewId: int, isHelpful: bool)
      modifies this
      ensures old(VoteDisabled(reviewId)) ==> helpfulVotes == old(helpfulVotes)
      ensures VoteDisabled(reviewId)
      ensures helpfulVotes == Vote(old(helpfulVotes), reviewId, isHelpful)
    {
      if reviewId in helpfulVotes {
        return;
      }
      helpfulVotes := helpfulVotes[reviewId := isHelpful];
    }

    /** Both vote buttons of a review are disabled once it has a vote. */
    predicate VoteDisabled(reviewId: int)
      reads this
    {
      reviewId in helpfulVotes
    }
  }

  // ---------------------------------------------------------------------
  // "Most Helpful" ordering

  /** Non-increasing in `helpful`. */
  predicate MostHelpfulFirst(s: seq<Review>)
  {
    forall i, j :: 0 <= i < j < |s| ==> s[i].helpful >= s[j].helpful
  }

  /**
   * Puts `x` in front of the first review whose helpful count is not above
   * its own, so that among equal counts `x` comes first.
   */
  function Insert(x: Review, s: seq<Review>): (r: seq<Review>)
    ensures multiset(r) == multiset(s) + multiset{x}
    ensures |r| == |s| + 1
  {
    if s == [] || s[0].helpful <= x.helpful then [x] + s
    else (assert s == [s[0]] + s[1..]; [s[0]] + Insert(x, s[1..]))
  }

  /**
   * `[...reviews].sort((a, b) => b.helpful - a.helpful)`: a stable sort of a
   * copy, most helpful first.
   */
  function SortByHelpful(reviews: seq<Review>): (r: seq<Review>)
    ensures multiset(r) == multiset(reviews)
    ensures |r| == |reviews|
  {
    if reviews == [] then []
    else (assert reviews == [reviews[0]] + reviews[1..]; Insert(reviews[0], SortByHelpful(reviews[1..])))
  }

  lemma {:induction false} InsertSorted(x: Review, s: seq<Review>)
    requires MostHelpfulFirst(s)
    ensures MostHelpfulFirst(Insert(x, s))
  {
    if s != [] && s[0].helpful > x.helpful {
      InsertSorted(x, s[1..]);
      var r := Insert(x, s);
      assert r == [s[0]] + Insert(x, s[1..]);
      forall j | 0 < j < |r|
        ensures r[0].helpful >= r[j].helpful
      {
        assert r[j] in multiset(Insert(x, s[1..]));
        assert r[j] in multiset(s[1..]) + multiset{x};
        if r[j] != x {
          assert r[j] in s[1..];
        }
      }
    }
  }

  /** The "Most Helpful" list is ordered by helpful count, highest first. */
  lemma {:induction false} SortByHelpfulSorted(reviews: seq<Review>)
    ensures MostHelpfulFirst(SortByHelpful(reviews))
  {
    if reviews != [] {
      SortByHelpfulSorted(reviews[1..]);
      InsertSorted(reviews[0], SortByHelpful(reviews[1..]));
    }
  }

  function HasHelpful(count: int): Review -> bool
  {
    (r: Review) => r.helpful == count
  }

  /** One step of `filter` on a list with a known first element. */
  lemma FilterCons(y: Review, t: seq<Review>, p: Review -> bool)
    ensures Filter([y] + t, p) == (if p(y) then [y] else []) + Filter(t, p)
  {
    assert ([y] + t)[1..] == t;
  }

  /** Two neighbours that `filter` does not both keep can trade places. */
  lemma FilterSwap(a: Review, b: Review, t: seq<Review>, p: Review -> bool)
    requires !(p(a) && p(b))
    ensures Filter([a] + ([b] + t), p) == Filter([b] + ([a] + t), p)
  {
    var rest := Filter(t, p);
    FilterCons(a, [b] + t, p);
    FilterCons(b, t, p);
    FilterCons(b, [a] + t, p);
    FilterCons(a, t, p);
    if p(a) {
      assert Filter([b] + t, p) == rest;
      assert Filter([a] + t, p) == [a] + rest;
    } else if p(b) {
      assert Filter([a] + t, p) == rest;
      assert Filter([b] + t, p) == [b] + rest;
    } else {
      assert Filter([a] + t, p) == rest;
      assert Filter([b] + t, p) == rest;
    }
  }

  lemma {:induction false} InsertStable(x: Review, s: seq<Review>, count: int)
    requires MostHelpfulFirst(s)
    ensures Filter(Insert(x, s), HasHelpful(count)) == Filter([x] + s, HasHelpful(count))
  {
    var p := HasHelpful(count);
    if s != [] && s[0].helpful > x.helpful {
      var head, tail := s[0], s[1..];
      assert Insert(x, s) == [head] + Insert(x, tail);
      InsertStable(x, tail, count);
      FilterCons(head, Insert(x, tail), p);
      FilterCons(head, [x] + tail, p);
      FilterSwap(head, x, tail, p);
      assert [head] + tail == s;
    } else {
      assert Insert(x, s) == [x] + s;
    }
  }

  /**
   * The sort is stable: the reviews with any one helpful count appear in
   * the sorted list in their original order.
   */
  lemma {:induction false} SortByHelpfulStable(reviews: seq<Review>, count: int)
    ensures Filter(SortByHelpful(reviews), HasHelpful(count)) == Filter(reviews, HasHelpful(count))
  {
    if reviews != [] {
      SortByHelpfulStable(reviews[1..], count);
      SortByHelpfulSorted(reviews[1..]);
      InsertStable(reviews[0], SortByHelpful(reviews[1..]), count);
      assert ([reviews[0]] + SortByHelpful(reviews[1..]))[1..] == SortByHelpful(reviews[1..]);
    }
  }

  // ---------------------------------------------------------------------
  // Rating histogram

  /** The number of reviews with the given rating. */
  function CountRating(reviews: seq<Review>, rating: int): nat
  {
    if reviews == [] then 0
    else CountRating(reviews[..|reviews| - 1], rating) + (if reviews[|reviews| - 1].rating == rating then 1 else 0)
  }

  ghost predicate HasRating(reviews: seq<Review>, rating: int)
  {
    exists j :: 0 <= j < |reviews| && reviews[j].rating == rating
  }

  /**
   * `ratingCounts`: one pass over the reviews, bumping the entry of each
   * review's rating (a missing entry counting as 0).
   */
  method RatingCounts(reviews: seq<Review>) returns (acc: map<int, nat>)
    ensures forall rating :: rating in acc <==> HasRating(reviews, rating)
    ensures forall rating :: rating in acc ==> acc[rating] == CountRating(reviews, rating)
  {
    acc := map[];
    var i := 0;
    while i < |reviews|
      invariant 0 <= i <= |reviews|
      invariant forall rating :: rating in acc <==> HasRating(reviews[..i], rating)
      invariant forall rating :: rating in acc ==> acc[rating] == CountRating(reviews[..i], rating)
    {
      var review := reviews[i];
      if review.rating !in acc {
        NoRatingNoCount(reviews[..i], review.rating);
      }
      var previous := if review.rating in acc then acc[review.rating] else 0;
      acc := acc[review.rating := previous + 1];
      assert reviews[..i + 1][..i] == reviews[..i];
      forall rating
        ensures rating in acc <==> HasRating(reviews[..i + 1], rating)
      {
        if HasRating(reviews[..i + 1], rating) && rating != review.rating {
          var j :| 0 <= j < i + 1 && reviews[..i + 1][j].rating == rating;
          assert reviews[..i][j].rating == rating;
        }
        if HasRating(reviews[..i], rating) {
          var j :| 0 <= j < i && reviews[..i][j].rating == rating;
          assert reviews[..i + 1][j].rating == rating;
        }
        if rating == review.rating {
          assert reviews[..i + 1][i].rating == rating;
        }
      }
      forall rating | rating !in acc
        ensures CountRating(reviews[..i + 1], rating) == 0
      {
        NoRatingNoCount(reviews[..i + 1], rating);
      }
      i := i + 1;
    }
    assert reviews[..i] == reviews;
  }

  lemma {:induction false} NoRatingNoCount(reviews: seq<Review>, rating: int)
    requires !HasRating(reviews, rating)
    ensures CountRating(reviews, rating) == 0
  {
    if reviews != [] {
      var prefix := reviews[..|reviews| - 1];
      assert reviews[|reviews| - 1].rating != rating;
      NoRatingNoCount(prefix, rating);
    }
  }

  /** `ratingCounts[rating] || 0`, as the distribution rows read it. */
  function CountShown(acc: map<int, nat>, rating: int): nat
  {
    if rating in acc then acc[rating] else 0
  }

  /** Every distribution row shows the number of reviews with its rating. */
  lemma CountShownIsCount(reviews: seq<Review>, acc: map<int, nat>, rating: int)
    requires forall r :: r in acc <==> HasRating(reviews, r)
    requires forall r :: r in acc ==> acc[r] == CountRating(reviews, r)
    ensures CountShown(acc, rating) == CountRating(reviews, rating)
  {
    if rating !in acc {
      NoRatingNoCount(reviews, rating);
    }
  }

  /** Ratings are whole stars from 1 to 5. */
  predicate StarRatings(reviews: seq<Review>)
  {
    forall j :: 0 <= j < |reviews| ==> 1 <= reviews[j].rating <= 5
  }

  /** With whole-star ratings, the five rows 5, 4, 3, 2, 1 together count every review once. */
  lemma {:induction false} DistributionCoversAll(reviews: seq<Review>)
    requires StarRatings(reviews)
    ensures CountRating(reviews, 5) + CountRating(reviews, 4) + CountRating(reviews, 3)
      + CountRating(reviews, 2) + CountRating(reviews, 1) == |reviews|
  {
    if reviews != [] {
      DistributionCoversAll(reviews[..|reviews| - 1]);
    }
  }

  // ---------------------------------------------------------------------
  // Star rating

  /** `StarRating`: star k (1 to 5, at index k - 1) is filled exactly when k <= rating. */
  function Stars(rating: real): (filled: seq<bool>)
    ensures |filled| == 5
    ensures forall i :: 0 <= i < 5 ==> (filled[i] <==> (i + 1) as real <= rating)
  {
    seq(5, i => (i + 1) as real <= rating)
  }

  /** The filled stars are the first `n`, for any rating between n and n + 1 (n + 1 excluded up to 5). */
  lemma StarsArePrefix(rating: real, n: nat)
    requires n <= 5 && n as real <= rating
    requires n < 5 ==> rating < (n + 1) as real
    ensures forall i :: 0 <= i < 5 ==> (Stars(rating)[i] <==> i < n)
  {
  }
}
