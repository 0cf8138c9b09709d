/**
 * Reviews and the hostel rating: a new review is stored first, then the
 * hostel's rating is overwritten with the mean over all its reviews.
 * The mean is an exact rational.
 */
module ReviewController {
  import opened Wrappers
  import opened Seqs
  import opened HostelSchema
  import opened Store

  /** `Review.find({ hostel })`: the reviews of one hostel, in stored order. */
  function HostelReviews(reviews: seq<Review>, hostel: HostelId): (r: seq<Review>)
    ensures forall x :: x in r <==> x in reviews && x.hostel == hostel
    ensures SubsequenceOf(r, reviews)
  {
    Filter(reviews, (x: Review) => x.hostel == hostel)
  }

  /** A review of the hostel is listed as often as it is stored; no other review is listed. */
  lemma HostelReviewsCounts(reviews: seq<Review>, hostel: HostelId)
    ensures var r := HostelReviews(reviews, hostel);
      forall x :: multiset(r)[x] == if x.hostel == hostel then multiset(reviews)[x] else 0
  {
    FilterKeepsCounts(reviews, (x: Review) => x.hostel == hostel);
  }

  function Rating(x: Review): int {
    x.rating
  }

  /** `reviews.reduce((sum, r) => sum + r.rating, 0) / reviews.length` */
  function MeanRating(reviews: seq<Review>): (m: real)
    requires reviews != []
    ensures m * (|reviews| as real) == Sum(reviews, Rating) as real
  {
    (Sum(reviews, Rating) as real) / (|reviews| as real)
  }

  predicate OnScale(x: Review) {
    1 <= x.rating <= 5
  }

  lemma {:induction false} RatingSumBounds(reviews: seq<Review>)
    requires forall x :: x in reviews ==> OnScale(x)
    ensures |reviews| <= Sum(reviews, Rating) <= 5 * |reviews|
    decreases |reviews|
  {
    if reviews != [] {
      assert OnScale(reviews[0]);
      RatingSumBounds(reviews[1..]);
    }
  }

  /** When every rating is between 1 and 5, so is their mean. */
  lemma MeanWithinScale(reviews: seq<Review>)
    requires reviews != []
    requires forall x :: x in reviews ==> OnScale(x)
    ensures 1.0 <= MeanRating(reviews) <= 5.0
  {
    RatingSumBounds(reviews);
    QuotientBounds(Sum(reviews, Rating) as real, |reviews| as real, 1.0, 5.0);
  }

  /** Bounds on a sum over n items bound the mean. */
  lemma QuotientBounds(s: real, n: real, lo: real, hi: real)
    requires n > 0.0 && lo * n <= s <= hi * n
    ensures lo <= s / n <= hi
  {
    var q := s / n;
    assert q * n == s;
    assert (q - lo) * n >= 0.0;
    assert (hi - q) * n >= 0.0;
  }

  /** The review just stored is the last of its hostel's reviews, so the
      mean is taken over at least one review and includes it. */
  lemma {:induction false} NewReviewCounted(reviews: seq<Review>, x: Review)
    ensures HostelReviews(reviews + [x], x.hostel) == HostelReviews(reviews, x.hostel) + [x]
    ensures |HostelReviews(reviews + [x], x.hostel)| >= 1
  {
    FilterAppend(reviews, [x], (y: Review) => y.hostel == x.hostel);
  }

  /** After one more review the mean is the old rating sum plus the new
      rating, over one more review than before. */
  lemma {:induction false} MeanAfterReview(reviews: seq<Review>, x: Review)
    ensures
      var before := HostelReviews(reviews, x.hostel);
      var after := HostelReviews(reviews + [x], x.hostel);
      && after != []
      && MeanRating(after) == ((Sum(before, Rating) + x.rating) as real) / ((|before| + 1) as real)
  {
    NewReviewCounted(reviews, x);
    var before := HostelReviews(reviews, x.hostel);
    var after := HostelReviews(reviews + [x], x.hostel);
    SumAppend(before, [x], Rating);
    assert Sum(after, Rating) == Sum(before, Rating) + x.rating;
    assert |after| == |before| + 1;
  }

  method CreateReview(db: Database, requester: UserId, hostel: HostelId, rating: int, comment: string)
    returns (review: Review)
    requires db.Valid()
    modifies db
    ensures db.Valid()
    ensures review == Review(requester, hostel, rating, comment)
    ensures db.reviews == old(db.reviews) + [review]
    ensures db.bookings == old(db.bookings) && db.users == old(db.users)
    ensures db.nextHostelId == old(db.nextHostelId) && db.nextUserId == old(db.nextUserId)
    ensures hostel !in old(db.hostels) ==> db.hostels == old(db.hostels)
    ensures hostel in old(db.hostels) ==>
      db.hostels == old(db.hostels)[hostel := old(db.hostels)[hostel].(rating := MeanRating(HostelReviews(db.reviews, hostel)))]
    ensures AllSeatsConsistent(old(db.hostels)) ==> AllSeatsConsistent(db.hostels)
  {
    review := Review(requester, hostel, rating, comment);
    db.reviews := db.reviews + [review];
    NewReviewCounted(old(db.reviews), review);
    var mine := HostelReviews(db.reviews, hostel);
    var avg := MeanRating(mine);
    if hostel in db.hostels {
      // findByIdAndUpdate on a missing id updates nothing
      db.hostels := db.hostels[hostel := db.hostels[hostel].(rating := avg)];
    }
  }
}
