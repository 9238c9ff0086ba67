/**
 * components/hotel-reviews.tsx: a hotel's reviews, its overall rating with a
 * row of five stars, a fixed rating distribution, and per-review star rows
 * and avatars. A star row is a sequence of five flags, `true` for a filled star.
 */
module HotelReviews {
  import Seqs

  datatype ReviewUser = ReviewUser(name: string, avatar: string, country: string)

  datatype Review = Review(
    id: nat,
    hotelId: nat,
    user: ReviewUser,
    rating: real,
    date: string,
    title: string,
    comment: string,
    helpful: nat,
    stayType: string)

  function OfHotel(hotelId: nat): Review -> bool {
    (r: Review) => r.hotelId == hotelId
  }

  /** `reviews.filter((review) => review.hotelId === hotelId)`. */
  function HotelReviews(reviews: seq<Review>, hotelId: nat): seq<Review> {
    Seqs.Filter(reviews, OfHotel(hotelId))
  }

  /** The reviews shown are exactly the hotel's, in their original order. */
  lemma HotelReviewsExact(reviews: seq<Review>, hotelId: nat, r: Review)
    ensures r in HotelReviews(reviews, hotelId) <==> r in reviews && r.hotelId == hotelId
    ensures Seqs.IsSubsequence(HotelReviews(reviews, hotelId), reviews)
  {
    Seqs.FilterMembership(reviews, OfHotel(hotelId), r);
    Seqs.FilterIsSubsequence(reviews, OfHotel(hotelId));
  }

  /** `x` limited to the range `[lo, hi]`. */
  function Clamp(x: int, lo: int, hi: int): int
    requires lo <= hi
  {
    if x < lo then lo else if x > hi then hi else x
  }

  /** The least integer not below `r`. */
  function Ceiling(r: real): int {
    -((-r).Floor)
  }

  /** The number of filled stars in a row. */
  function FilledCount(stars: seq<bool>): (n: nat)
    ensures n <= |stars|
  {
    if stars == [] then 0
    else FilledCount(stars[..|stars| - 1]) + (if stars[|stars| - 1] then 1 else 0)
  }

  /** The row of `k` stars whose first `t` are filled. */
  function Threshold(k: nat, t: int): (s: seq<bool>)
    ensures |s| == k && forall i :: 0 <= i < k ==> s[i] == (i < t)
  {
    seq(k, i => i < t)
  }

  /** Filling the stars below `t` fills `t` of them, kept within the row. */
  lemma {:induction false} ThresholdCount(k: nat, t: int)
    ensures FilledCount(Threshold(k, t)) == Clamp(t, 0, k)
  {
    if k > 0 {
      ThresholdCount(k - 1, t);
      assert Threshold(k, t)[..k - 1] == Threshold(k - 1, t);
    }
  }

  /** The overall row: star `i` is filled when `i < Math.floor(rating)`. */
  function OverallStars(rating: real): (s: seq<bool>)
    ensures |s| == 5
    ensures forall i :: 0 <= i < 5 ==> (s[i] <==> i < rating.Floor)
  {
    seq(5, i => i < rating.Floor)
  }

  /** A review's row: star `i` is filled when `i < review.rating`. */
  function ReviewStars(rating: real): (s: seq<bool>)
    ensures |s| == 5
    ensures forall i :: 0 <= i < 5 ==> (s[i] <==> (i as real) < rating)
  {
    seq(5, i => (i as real) < rating)
  }

  /** The overall row has `floor(rating)` filled stars, kept within 0 to 5. */
  lemma OverallFilledCount(rating: real)
    ensures FilledCount(OverallStars(rating)) == Clamp(rating.Floor, 0, 5)
  {
    assert OverallStars(rating) == Threshold(5, rating.Floor);
    ThresholdCount(5, rating.Floor);
  }

  /** An integer is below `r` exactly when it is below the ceiling of `r`. */
  lemma BelowCeiling(i: int, r: real)
    ensures (i as real) < r <==> i < Ceiling(r)
  {
    var f := (-r).Floor;
    assert (f as real) <= -r < (f as real) + 1.0;
  }

  /** A review's row has `ceil(rating)` filled stars, kept within 0 to 5: 4.5 shows five. */
  lemma ReviewFilledCount(rating: real)
    ensures FilledCount(ReviewStars(rating)) == Clamp(Ceiling(rating), 0, 5)
  {
    forall i | 0 <= i < 5
      ensures ReviewStars(rating)[i] == Threshold(5, Ceiling(rating))[i]
    {
      BelowCeiling(i, rating);
    }
    assert ReviewStars(rating) == Threshold(5, Ceiling(rating));
    ThresholdCount(5, Ceiling(rating));
  }

  /** The two rows disagree on a fractional rating: 4.5 fills four overall stars and five review stars. */
  lemma HalfStarRoundsBothWays()
    ensures FilledCount(OverallStars(4.5)) == 4
    ensures FilledCount(ReviewStars(4.5)) == 5
  {
    OverallFilledCount(4.5);
    ReviewFilledCount(4.5);
    assert (4.5).Floor == 4;
    assert (-4.5).Floor == -5;
  }

  /** The percentage shown for each star count, whatever the hotel. */
  const RatingDistribution: map<int, int> := map[5 := 65, 4 := 25, 3 := 7, 2 := 2, 1 := 1]

  datatype DistributionRow = DistributionRow(stars: int, caption: string, percent: int)

  /** The distribution rows, 5 stars down to 1; every caption says "stars", "1 stars" included. */
  function DistributionRows(): (rows: seq<DistributionRow>)
    ensures |rows| == 5
    ensures forall i :: 0 <= i < 5 ==> rows[i].stars == 5 - i
    ensures forall i :: 0 <= i < 5 ==>
              rows[i].stars in RatingDistribution && rows[i].percent == RatingDistribution[rows[i].stars]
    ensures rows[4].caption == "1 stars"
  {
    [ DistributionRow(5, "5 stars", RatingDistribution[5]),
      DistributionRow(4, "4 stars", RatingDistribution[4]),
      DistributionRow(3, "3 stars", RatingDistribution[3]),
      DistributionRow(2, "2 stars", RatingDistribution[2]),
      DistributionRow(1, "1 stars", RatingDistribution[1]) ]
  }

  /** The fixed percentages add up to 100. */
  lemma DistributionSumsTo100()
    ensures DistributionRows()[0].percent + DistributionRows()[1].percent + DistributionRows()[2].percent
            + DistributionRows()[3].percent + DistributionRows()[4].percent == 100
  {
  }

  /** `review.user.avatar || "/placeholder.svg"`. */
  function AvatarSource(user: ReviewUser): (src: string)
    ensures src != ""
    ensures user.avatar != "" ==> src == user.avatar
    ensures user.avatar == "" ==> src == "/placeholder.svg"
  {
    if user.avatar != "" then user.avatar else "/placeholder.svg"
  }

  /** `review.user.name.charAt(0)`: the first character, or "" for an empty name. */
  function AvatarFallback(user: ReviewUser): (initial: string)
    ensures |initial| <= 1
    ensures user.name != "" ==> initial == [user.name[0]]
    ensures user.name == "" ==> initial == ""
  {
    if user.name != "" then user.name[..1] else ""
  }

  datatype OverallPanel = OverallPanel(rating: real, stars: seq<bool>, reviewCount: int)

  datatype ReviewCard = ReviewCard(review: Review, avatar: string, initial: string, stars: seq<bool>)

  datatype ReviewsView = ReviewsView(overall: OverallPanel, distribution: seq<DistributionRow>,
                                     cards: seq<ReviewCard>)

  function Card(r: Review): ReviewCard {
    ReviewCard(r, AvatarSource(r.user), AvatarFallback(r.user), ReviewStars(r.rating))
  }

  /** The whole component for the given props. */
  function View(reviews: seq<Review>, hotelId: nat, rating: real, reviewCount: int): (v: ReviewsView)
    ensures |v.cards| == |HotelReviews(reviews, hotelId)|
    ensures forall i :: 0 <= i < |v.cards| ==> v.cards[i] == Card(HotelReviews(reviews, hotelId)[i])
    ensures v.overall.stars == OverallStars(rating) && v.distribution == DistributionRows()
  {
    var shown := HotelReviews(reviews, hotelId);
    ReviewsView(OverallPanel(rating, OverallStars(rating), reviewCount), DistributionRows(),
                seq(|shown|, i requires 0 <= i < |shown| => Card(shown[i])))
  }

  /**
   * The overall rating and review count come from the props: the hotel's
   * reviews, however many are shown, never change them.
   */
  lemma OverallFromProps(reviews: seq<Review>, other: seq<Review>, hotelId: nat, rating: real, reviewCount: int)
    ensures View(reviews, hotelId, rating, reviewCount).overall == View(other, hotelId, rating, reviewCount).overall
    ensures View(reviews, hotelId, rating, reviewCount).overall.rating == rating
    ensures View(reviews, hotelId, rating, reviewCount).overall.reviewCount == reviewCount
  {
  }
}
