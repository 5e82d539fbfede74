// components/review-system.tsx: the simpler review section. A form with a star
// rating, a title and a text, a publish button guarded like the richer
// component's, and a histogram whose counts are computed from the reviews shown.

module ReviewSystem {

  import opened Text
  import opened Seqs
  import opened ReviewRules

  datatype ReviewAuthor = ReviewAuthor(name: string, avatar: string, verified: bool)

  datatype Review = Review(
    id: int, user: ReviewAuthor, rating: int, date: string, title: string, content: string,
    likes: int, helpful: int, images: seq<string>)

  // ---------------------------------------------------------------- stars

  /** The star buttons, left to right (also those of components/star-rating.tsx). */
  const Stars: seq<int> := [1, 2, 3, 4, 5]

  /** Star `k` is drawn filled, and reported checked, when it is at most the rating. */
  predicate StarFilled(k: int, rating: int)
  {
    k <= rating
  }

  function LitBy(rating: int): int -> bool
  {
    (k: int) => StarFilled(k, rating)
  }

  function FilledStars(rating: int): (r: seq<int>)
    ensures forall k | k in r :: k in Stars && StarFilled(k, rating)
    ensures forall k | k in Stars && StarFilled(k, rating) :: k in r
  {
    Filter(Stars, LitBy(rating))
  }

  /** A rating of `r` stars lights exactly the first `r` stars. */
  lemma FilledStarsArePrefix(rating: int)
    requires 0 <= rating <= 5
    ensures FilledStars(rating) == Stars[..rating]
  {
    FilterKeepsPrefix(Stars, LitBy(rating), rating);
  }

  // ---------------------------------------------------------------- histogram

  function RatingIs(stars: int): Review -> bool
  {
    (x: Review) => x.rating == stars
  }

  function RatingInRange(): Review -> bool
  {
    (x: Review) => 1 <= x.rating <= 5
  }

  /** `reviews.filter((r) => r.rating === stars)`. */
  function RatedExactly(reviews: seq<Review>, stars: int): (r: seq<Review>)
    ensures forall x | x in r :: x in reviews && x.rating == stars
    ensures forall x | x in reviews && x.rating == stars :: x in r
    ensures IsSubsequence(r, reviews)
    ensures |r| <= |reviews|
  {
    FilterIsSubsequence(reviews, RatingIs(stars));
    Filter(reviews, RatingIs(stars))
  }

  /** The reviews whose rating is one of the five bucket values. */
  function RatedInRange(reviews: seq<Review>): (r: seq<Review>)
    ensures forall x | x in r :: x in reviews && 1 <= x.rating <= 5
  {
    Filter(reviews, RatingInRange())
  }

  /** How many reviews carry a rating of exactly `stars`, counted one review at a time. */
  function RatingCount(reviews: seq<Review>, stars: int): nat
  {
    if reviews == [] then 0
    else (if reviews[0].rating == stars then 1 else 0) + RatingCount(reviews[1..], stars)
  }

  /** A bucket holds as many reviews as carry its star count. */
  lemma {:induction false} RatedExactlyCount(reviews: seq<Review>, stars: int)
    ensures |Filter(reviews, RatingIs(stars))| == RatingCount(reviews, stars)
    decreases |reviews|
  {
    if reviews != [] {
      RatedExactlyCount(reviews[1..], stars);
      FilterCons(reviews, RatingIs(stars));
    }
  }

  /** The count beside each bucket, from five stars down to one. */
  function StarCounts(reviews: seq<Review>): (r: seq<int>)
    ensures |r| == 5
    ensures forall i :: 0 <= i < 5 ==> r[i] == |RatedExactly(reviews, 5 - i)| <= |reviews|
  {
    seq(5, i requires 0 <= i < 5 => |RatedExactly(reviews, 5 - i)|)
  }

  /** Count `i` is the number of reviews rated exactly `5 - i` stars. */
  lemma StarCountCountsRatings(reviews: seq<Review>, i: int)
    requires 0 <= i < 5
    ensures StarCounts(reviews)[i] == RatingCount(reviews, 5 - i)
  {
    RatedExactlyCount(reviews, 5 - i);
  }

  /** Each count is the number of reviews rated exactly that many stars. */
  lemma StarCountsCountRatings(reviews: seq<Review>)
    ensures forall i :: 0 <= i < 5 ==> StarCounts(reviews)[i] == RatingCount(reviews, 5 - i)
  {
    forall i | 0 <= i < 5 {
      StarCountCountsRatings(reviews, i);
    }
  }

  /** The five bar widths. */
  function StarPercentages(reviews: seq<Review>, totalReviews: int): (r: seq<real>)
    ensures |r| == 5
    ensures forall i :: 0 <= i < 5 ==> r[i] == Percentage(StarCounts(reviews)[i], totalReviews)
    ensures totalReviews <= 0 ==> forall i :: 0 <= i < 5 ==> r[i] == 0.0
    ensures totalReviews >= |reviews| ==> forall i :: 0 <= i < 5 ==> 0.0 <= r[i] <= 100.0
  {
    Percentages(StarCounts(reviews), totalReviews)
  }

  lemma SumOfFive(s: seq<int>)
    requires |s| == 5
    ensures SumInts(s) == s[0] + s[1] + s[2] + s[3] + s[4]
  {
    assert SumInts(s[4..]) == s[4] by {
      assert s[4..][1..] == [];
    }
    assert SumInts(s[3..]) == s[3] + s[4] by {
      assert s[3..][1..] == s[4..];
    }
    assert SumInts(s[2..]) == s[2] + s[3] + s[4] by {
      assert s[2..][1..] == s[3..];
    }
    assert SumInts(s[1..]) == s[1] + s[2] + s[3] + s[4] by {
      assert s[1..][1..] == s[2..];
    }
  }

  /** The five counts add up to the number of reviews rated from one to five. */
  lemma {:induction false} StarCountsSum(reviews: seq<Review>)
    ensures SumInts(StarCounts(reviews)) == |RatedInRange(reviews)|
    decreases |reviews|
  {
    if reviews == [] {
      SumOfFive(StarCounts(reviews));
    } else {
      StarCountsSum(reviews[1..]);
      SumOfFive(StarCounts(reviews));
      SumOfFive(StarCounts(reviews[1..]));
      FilterCons(reviews, RatingInRange());
      FilterCons(reviews, RatingIs(5));
      FilterCons(reviews, RatingIs(4));
      FilterCons(reviews, RatingIs(3));
      FilterCons(reviews, RatingIs(2));
      FilterCons(reviews, RatingIs(1));
    }
  }

  /** When every review is rated one to five and `totalReviews` is their number,
      the bars add up to 100%. */
  lemma StarPercentagesSumTo100(reviews: seq<Review>, totalReviews: int)
    requires forall x | x in reviews :: 1 <= x.rating <= 5
    requires totalReviews == |reviews| > 0
    ensures SumReals(StarPercentages(reviews, totalReviews)) == 100.0
  {
    StarCountsSum(reviews);
    FilterKeepsAll(reviews, RatingInRange());
    PercentagesSumTo100(StarCounts(reviews), totalReviews);
  }

  // ---------------------------------------------------------------- form

  datatype FormState = FormState(userRating: int, reviewTitle: string, reviewContent: string, isSubmitting: bool)

  const InitialForm := FormState(0, "", "", false)

  class ReviewForm {
    var userRating: int
    var reviewTitle: string
    var reviewContent: string
    var isSubmitting: bool

    function State(): FormState
      reads this
    {
      FormState(userRating, reviewTitle, reviewContent, isSubmitting)
    }

    /** The rating is 0 (none chosen) or one of the stars. */
    ghost predicate Valid()
      reads this
    {
      0 <= userRating <= 5
    }

    constructor ()
      ensures Valid() && State() == InitialForm
    {
      userRating, reviewTitle, reviewContent, isSubmitting := 0, "", "", false;
    }

    /** `handleStarClick(rating)`, called with the number of the star clicked. */
    method HandleStarClick(rating: int)
      requires Valid() && rating in Stars
      modifies this
      ensures Valid() && State() == old(State()).(userRating := rating)
    {
      userRating := rating;
    }

    method SetReviewTitle(title: string)
      requires Valid()
      modifies this
      ensures Valid() && State() == old(State()).(reviewTitle := title)
    {
      reviewTitle := title;
    }

    method SetReviewContent(content: string)
      requires Valid()
      modifies this
      ensures Valid() && State() == old(State()).(reviewContent := content)
    {
      reviewContent := content;
    }

    /** The guard, then `isSubmitting` is raised for the simulated request. */
    method StartSubmit() returns (accepted: bool)
      requires Valid()
      modifies this
      ensures Valid()
      ensures accepted == CanSubmit(old(userRating), old(reviewContent))
      ensures State() == if accepted then old(State()).(isSubmitting := true) else old(State())
    {
      if userRating == 0 || IsBlank(reviewContent) {
        return false;
      }
      isSubmitting := true;
      return true;
    }

    /** The reset once the delay has elapsed. */
    method FinishSubmit()
      requires Valid()
      modifies this
      ensures Valid() && State() == InitialForm
    {
      userRating := 0;
      reviewTitle := "";
      reviewContent := "";
      isSubmitting := false;
    }

    /** `handleSubmitReview` with the delay taken as one step. */
    method HandleSubmitReview() returns (accepted: bool)
      requires Valid()
      modifies this
      ensures Valid()
      ensures accepted == CanSubmit(old(userRating), old(reviewContent))
      ensures State() == if accepted then InitialForm else old(State())
    {
      accepted := StartSubmit();
      if accepted {
        FinishSubmit();
      }
    }

    predicate PublishDisabled()
      reads this
    {
      SubmitDisabled(userRating, reviewContent, isSubmitting)
    }
  }
}
