/** Review metrics of a provider: the SQL aggregates, the rounded average and the sentiment band. */
module Ratings {
  import opened Domain
  import opened Counting
  import opened Listing
  import R = ReviewSpec

  /** The provider's reviews with one rating. */
  function Bucket(s: Store, provider: Id, rating: int): set<Id> {
    set i | i in s.reviews && s.reviews[i].provider == provider && s.reviews[i].rating == rating
  }

  function Stars(s: Store, provider: Id): nat {
    |Bucket(s, provider, 1)| + 2 * |Bucket(s, provider, 2)| + 3 * |Bucket(s, provider, 3)| +
    4 * |Bucket(s, provider, 4)| + 5 * |Bucket(s, provider, 5)|
  }

  /** The average reported, in hundredths, under the rounding `round`. */
  function Average(s: Store, provider: Id, round: real -> int): int {
    var n := |ReviewsFor(s, provider)|;
    if n == 0 then 0 else round(Stars(s, provider) as real / n as real)
  }

  datatype Summary = Summary(count: nat, average: int, distribution: map<int, nat>)

  function SummaryOf(s: Store, provider: Id, round: real -> int): Summary {
    Summary(|ReviewsFor(s, provider)|, Average(s, provider, round), map v | 1 <= v <= 5 :: |Bucket(s, provider, v)|)
  }

  /** Rounding to two decimals, whichever way ties fall. */
  ghost predicate Nearest(round: real -> int) {
    forall x: real :: -0.5 <= round(x) as real - 100.0 * x <= 0.5
  }

  datatype Sentiment = NoReviews | Dissatisfied | Mixed | Favorable | Positive

  function Band(count: nat, average: int): Sentiment {
    if count == 0 then NoReviews
    else if average >= 450 then Positive
    else if average >= 350 then Favorable
    else if average >= 250 then Mixed
    else Dissatisfied
  }

  /** What a queued job reports: the metrics and the band its text expresses. */
  datatype Report = Report(summary: Summary, sentiment: Sentiment)

  function ReportOf(s: Store, provider: Id, round: real -> int): Report {
    var m := SummaryOf(s, provider, round);
    Report(m, Band(m.count, m.average))
  }

  predicate AtLeast(a: Sentiment, b: Sentiment) {
    match b
    case NoReviews => true
    case Dissatisfied => a != NoReviews
    case Mixed => a == Mixed || a == Favorable || a == Positive
    case Favorable => a == Favorable || a == Positive
    case Positive => a == Positive
  }

  // ---------- The aggregates against the plain list of ratings ----------

  function CountOf(ratings: seq<int>, v: int): nat {
    if ratings == [] then 0 else (if ratings[0] == v then 1 else 0) + CountOf(ratings[1..], v)
  }

  function Sum(ratings: seq<int>): int {
    if ratings == [] then 0 else ratings[0] + Sum(ratings[1..])
  }

  ghost predicate InRange(ratings: seq<int>) {
    forall n :: 0 <= n < |ratings| ==> 1 <= ratings[n] <= 5
  }

  function Weighted(ratings: seq<int>): nat {
    CountOf(ratings, 1) + 2 * CountOf(ratings, 2) + 3 * CountOf(ratings, 3) +
    4 * CountOf(ratings, 4) + 5 * CountOf(ratings, 5)
  }

  function Tallied(ratings: seq<int>): nat {
    CountOf(ratings, 1) + CountOf(ratings, 2) + CountOf(ratings, 3) + CountOf(ratings, 4) + CountOf(ratings, 5)
  }

  lemma {:induction false} CountsAddUp(ratings: seq<int>)
    requires InRange(ratings)
    ensures Tallied(ratings) == |ratings| && Weighted(ratings) == Sum(ratings)
  {
    if ratings != [] {
      assert 1 <= ratings[0] <= 5;
      CountsAddUp(ratings[1..]);
    }
  }

  /** The ratings along a list of reviews. */
  function RatingsOf(reviews: map<Id, Review>, order: seq<Id>): (r: seq<int>)
    requires forall n :: 0 <= n < |order| ==> order[n] in reviews
    ensures |r| == |order| && forall n :: 0 <= n < |order| ==> r[n] == reviews[order[n]].rating
  {
    if order == [] then [] else [reviews[order[0]].rating] + RatingsOf(reviews, order[1..])
  }

  ghost function IdsWith(reviews: map<Id, Review>, order: seq<Id>, v: int): set<Id>
    requires forall n :: 0 <= n < |order| ==> order[n] in reviews
  {
    if order == [] then {}
    else (if reviews[order[0]].rating == v then {order[0]} else {}) + IdsWith(reviews, order[1..], v)
  }

  lemma {:induction false} IdsWithMembers(reviews: map<Id, Review>, order: seq<Id>, v: int, i: Id)
    requires forall n :: 0 <= n < |order| ==> order[n] in reviews
    ensures i in IdsWith(reviews, order, v) <==> exists n :: 0 <= n < |order| && order[n] == i && reviews[i].rating == v
  {
    if order != [] {
      IdsWithMembers(reviews, order[1..], v, i);
      if n :| 0 <= n < |order| && order[n] == i && reviews[i].rating == v {
        if n > 0 {
          assert order[1..][n - 1] == order[n];
        }
      }
    }
  }

  lemma {:induction false} IdsWithCount(reviews: map<Id, Review>, order: seq<Id>, v: int)
    requires forall n :: 0 <= n < |order| ==> order[n] in reviews
    requires Distinct(order)
    ensures |IdsWith(reviews, order, v)| == CountOf(RatingsOf(reviews, order), v)
  {
    if order != [] {
      IdsWithCount(reviews, order[1..], v);
      IdsWithMembers(reviews, order[1..], v, order[0]);
    }
  }

  /** A bucket of the GROUP BY is the plain count of that rating along the provider's reviews. */
  lemma BucketIsCount(s: Store, provider: Id, order: seq<Id>, v: int)
    requires Lists(order, ReviewsFor(s, provider))
    ensures |Bucket(s, provider, v)| == CountOf(RatingsOf(s.reviews, order), v)
  {
    forall i
      ensures i in Bucket(s, provider, v) <==> i in IdsWith(s.reviews, order, v)
    {
      IdsWithMembers(s.reviews, order, v, i);
      assert i in Bucket(s, provider, v) ==> i in ReviewsFor(s, provider);
    }
    SameMembers(Bucket(s, provider, v), IdsWith(s.reviews, order, v));
    IdsWithCount(s.reviews, order, v);
  }

  /** The buckets partition the provider's reviews. */
  lemma BucketsPartition(s: Store, provider: Id)
    requires ReviewTable(s)
    ensures |ReviewsFor(s, provider)| ==
            |Bucket(s, provider, 1)| + |Bucket(s, provider, 2)| + |Bucket(s, provider, 3)| +
            |Bucket(s, provider, 4)| + |Bucket(s, provider, 5)|
  {
    forall i
      ensures i in ReviewsFor(s, provider) <==>
              || i in Bucket(s, provider, 1) || i in Bucket(s, provider, 2) || i in Bucket(s, provider, 3)
              || i in Bucket(s, provider, 4) || i in Bucket(s, provider, 5)
    {
      if i in ReviewsFor(s, provider) {
        RatedReview(s, i);
      }
    }
    FiveParts(ReviewsFor(s, provider), Bucket(s, provider, 1), Bucket(s, provider, 2), Bucket(s, provider, 3),
              Bucket(s, provider, 4), Bucket(s, provider, 5));
  }

  /** A set made of five disjoint parts. */
  lemma FiveParts<T>(whole: set<T>, a: set<T>, b: set<T>, c: set<T>, d: set<T>, e: set<T>)
    requires forall x :: x in whole <==> x in a || x in b || x in c || x in d || x in e
    requires a !! b !! c !! d !! e
    ensures |whole| == |a| + |b| + |c| + |d| + |e|
  {
    FiveCount(a, b, c, d, e);
    SameMembers(whole, a + b + c + d + e);
  }

  lemma FiveCount<T>(a: set<T>, b: set<T>, c: set<T>, d: set<T>, e: set<T>)
    requires a !! b !! c !! d !! e
    ensures |a + b + c + d + e| == |a| + |b| + |c| + |d| + |e|
  {
    assert (a + b) !! c && (a + b + c) !! d && (a + b + c + d) !! e;
  }

  lemma RatedInRange(s: Store, provider: Id, order: seq<Id>)
    requires ReviewTable(s) && Lists(order, ReviewsFor(s, provider))
    ensures InRange(RatingsOf(s.reviews, order))
  {
    forall n | 0 <= n < |order|
      ensures 1 <= RatingsOf(s.reviews, order)[n] <= 5
    {
      RatedReview(s, order[n]);
    }
  }

  lemma RatedReview(s: Store, i: Id)
    requires ReviewTable(s) && i in s.reviews
    ensures 1 <= s.reviews[i].rating <= 5
  {
    assert ReviewRow(s, s.reviews[i]);
  }

  /** On any state, the grouped counts agree with the plain list of the provider's ratings: each
      bucket is the count of its rating, the buckets add up to the number of reviews, and weighted
      by rating they add up to the sum of the ratings. */
  lemma AggregationIsExact(s: Store, provider: Id, order: seq<Id>)
    requires ReviewTable(s) && Lists(order, ReviewsFor(s, provider))
    ensures forall v :: |Bucket(s, provider, v)| == CountOf(RatingsOf(s.reviews, order), v)
    ensures |ReviewsFor(s, provider)| == |order|
    ensures Stars(s, provider) == Sum(RatingsOf(s.reviews, order))
  {
    forall v
      ensures |Bucket(s, provider, v)| == CountOf(RatingsOf(s.reviews, order), v)
    {
      BucketIsCount(s, provider, order, v);
    }
    RatedInRange(s, provider, order);
    CountsAddUp(RatingsOf(s.reviews, order));
    BucketsPartition(s, provider);
  }

  // ---------- Rounding ----------

  lemma RoundingIsMonotone(round: real -> int, x: real, y: real)
    requires Nearest(round) && x <= y
    ensures round(x) <= round(y)
  {
    if x < y {
      assert round(x) as real - 100.0 * x <= 0.5 && -0.5 <= round(y) as real - 100.0 * y;
    }
  }

  /** The reported average is within half a hundredth of the exact one, lies between 1 and 5 when
      there are reviews, and is 0 when there are none. */
  lemma AverageIsClose(s: Store, provider: Id, round: real -> int)
    requires ReviewTable(s) && Nearest(round)
    ensures var n, r := |ReviewsFor(s, provider)|, Average(s, provider, round);
            if n == 0 then r == 0
            else
              && 100 <= r <= 500
              && -0.5 <= r as real - 100.0 * (Stars(s, provider) as real / n as real) <= 0.5
  {
    var n, total := |ReviewsFor(s, provider)|, Stars(s, provider);
    BucketsPartition(s, provider);
    if n > 0 {
      QuotientBounds(total, n);
      var x := total as real / n as real;
      assert -0.5 <= round(x) as real - 100.0 * x <= 0.5;
    }
  }

  lemma QuotientBounds(total: nat, n: nat)
    requires 0 < n <= total <= 5 * n
    ensures 1.0 <= total as real / n as real <= 5.0
  {
    var x := total as real / n as real;
    assert x * n as real == total as real;
    if x < 1.0 {
      LessProduct(x, 1.0, n as real);
    }
    if x > 5.0 {
      LessProduct(5.0, x, n as real);
    }
  }

  lemma LessProduct(x: real, y: real, n: real)
    requires x < y && n > 0.0
    ensures x * n < y * n
  {
    assert (y - x) * n > 0.0;
  }

  lemma ProductReflects(x: real, y: real, n: real)
    requires n > 0.0 && x * n <= y * n
    ensures x <= y
  {
    if y < x {
      LessProduct(y, x, n);
    }
  }

  // ---------- The sentiment against the exact average ----------

  /** Rounding moves an average to a hundredth of at least `c` exactly when it lies above half a hundredth
      below it; on the border it may do either. */
  lemma RoundedAgainst(round: real -> int, total: nat, n: nat, c: int)
    requires Nearest(round) && n > 0
    ensures 1000 * total > (10 * c - 5) * n ==> round(total as real / n as real) >= c
    ensures 1000 * total < (10 * c - 5) * n ==> round(total as real / n as real) < c
  {
    var x := total as real / n as real;
    assert -0.5 <= round(x) as real - 100.0 * x <= 0.5;
    assert (1000 * total) as real == 1000.0 * x * n as real by {
      QuotientTimes(total as real, n as real);
    }
    assert ((10 * c - 5) * n) as real == (10 * c - 5) as real * n as real;
    if 1000 * total > (10 * c - 5) * n {
      if 1000.0 * x <= (10 * c - 5) as real {
        NotLess(1000.0 * x, (10 * c - 5) as real, n as real);
      }
    }
    if 1000 * total < (10 * c - 5) * n {
      if 1000.0 * x >= (10 * c - 5) as real {
        NotLess((10 * c - 5) as real, 1000.0 * x, n as real);
      }
    }
  }

  lemma NotLess(x: real, y: real, n: real)
    requires x <= y && n > 0.0
    ensures x * n <= y * n
  {
    if x < y {
      LessProduct(x, y, n);
    }
  }

  /** The sentiment of `total` stars on `n` reviews: positive from an average of 4.495 on, favorable from
      3.495, mixed from 2.495, and none without reviews. */
  predicate FitsAverage(sentiment: Sentiment, total: nat, n: nat) {
    && (n == 0 <==> sentiment == NoReviews)
    && (n > 0 && 1000 * total > 4495 * n ==> sentiment == Positive)
    && (n > 0 && 1000 * total < 4495 * n ==> sentiment != Positive)
    && (n > 0 && 3495 * n < 1000 * total < 4495 * n ==> sentiment == Favorable)
    && (n > 0 && 1000 * total < 3495 * n ==> sentiment != Favorable)
    && (n > 0 && 2495 * n < 1000 * total < 3495 * n ==> sentiment == Mixed)
    && (n > 0 && 1000 * total < 2495 * n ==> sentiment == Dissatisfied)
  }

  lemma SentimentFitsAverage(s: Store, provider: Id, round: real -> int)
    requires Nearest(round)
    ensures FitsAverage(ReportOf(s, provider, round).sentiment, Stars(s, provider), |ReviewsFor(s, provider)|)
  {
    var n, total := |ReviewsFor(s, provider)|, Stars(s, provider);
    if n > 0 {
      RoundedAgainst(round, total, n, 450);
      RoundedAgainst(round, total, n, 350);
      RoundedAgainst(round, total, n, 250);
    }
  }

  // ---------- Better reviews never look worse ----------

  lemma QuotientTimes(a: real, n: real)
    requires n > 0.0
    ensures (a / n) * n == a
  {
  }

  lemma QuotientMonotone(a: real, b: real, n: real)
    requires n > 0.0 && a <= b
    ensures a / n <= b / n
  {
    QuotientTimes(a, n);
    QuotientTimes(b, n);
    ProductReflects(a / n, b / n, n);
  }

  /** Adding a value at or above the quotient does not lower it. */
  lemma QuotientWithOneMore(a: real, r: real, n: real)
    requires n > 0.0 && r * n >= a
    ensures a / n <= (a + r) / (n + 1.0)
  {
    QuotientTimes(a, n);
    QuotientTimes(a + r, n + 1.0);
    MeanGrows(a, r, n, a / n, (a + r) / (n + 1.0));
  }

  lemma MeanGrows(a: real, r: real, n: real, x: real, y: real)
    requires n > 0.0 && r * n >= a && x * n == a && y * (n + 1.0) == a + r
    ensures x <= y
  {
    assert x * n <= r * n;
    ProductReflects(x, r, n);
    assert x * (n + 1.0) == x * n + x;
    ProductReflects(x, y, n + 1.0);
  }

  /** More stars on the same number of reviews, or one more review at or above the exact average. */
  lemma QuotientGrows(total: nat, n: nat, total': nat, n': nat)
    requires n > 0
    requires || (n' == n && total' >= total)
             || (n' == n + 1 && total' >= total && (total' - total) * n >= total)
    ensures total as real / n as real <= total' as real / n' as real
  {
    if n' == n {
      QuotientMonotone(total as real, total' as real, n as real);
    } else {
      var r := total' - total;
      assert (r * n) as real == r as real * n as real;
      QuotientWithOneMore(total as real, r as real, n as real);
    }
  }

  /** The number of reviews and of stars with an average at least as good, through averaging,
      rounding and thresholds together. */
  ghost predicate NotWorse(s: Store, s': Store, provider: Id, round: real -> int) {
    var n, n' := |ReviewsFor(s, provider)|, |ReviewsFor(s', provider)|;
    var r, r' := Average(s, provider, round), Average(s', provider, round);
    r <= r' && AtLeast(Band(n', r'), Band(n, r))
  }

  lemma BetterStars(s: Store, s': Store, provider: Id, round: real -> int)
    requires ReviewTable(s) && ReviewTable(s') && Nearest(round)
    requires var n, n', total, total' :=
               |ReviewsFor(s, provider)|, |ReviewsFor(s', provider)|, Stars(s, provider), Stars(s', provider);
             || (n' == n && total' >= total)
             || (n' == n + 1 && total' >= total && (total' - total) * n >= total)
    ensures NotWorse(s, s', provider, round)
  {
    var n, n', total, total' :=
      |ReviewsFor(s, provider)|, |ReviewsFor(s', provider)|, Stars(s, provider), Stars(s', provider);
    if n > 0 {
      QuotientGrows(total, n, total', n');
      RoundingIsMonotone(round, total as real / n as real, total' as real / n' as real);
    } else {
      AverageIsClose(s, provider, round);
      AverageIsClose(s', provider, round);
    }
  }

  /** Raising one review's rating never lowers its provider's average or sentiment. */
  lemma RaisedRatingIsNotWorse(s: Store, id: Id, rating: int, comment: Option<string>, user: User, round: real -> int)
    requires ReviewTable(s) && Nearest(round)
    requires id in s.reviews && s.reviews[id].rating <= rating <= 5
    ensures forall p :: NotWorse(s, R.Update(s, id, Some(rating), comment, user).store, p, round)
  {
    var s' := R.Update(s, id, Some(rating), comment, user).store;
    assert ReviewRow(s, s.reviews[id]);
    if s' != s {
      forall p
        ensures NotWorse(s, s', p, round)
      {
        EditedNotWorse(s, s', p, id, rating, round);
      }
    } else {
      forall p
        ensures NotWorse(s, s, p, round)
      {
      }
    }
  }

  lemma EditedNotWorse(s: Store, s': Store, provider: Id, id: Id, rating: int, round: real -> int)
    requires ReviewTable(s) && ReviewTable(s') && Nearest(round)
    requires id in s.reviews && 1 <= s.reviews[id].rating <= rating <= 5
    requires id in s'.reviews && s'.reviews == s.reviews[id := s'.reviews[id]]
    requires s'.reviews[id].provider == s.reviews[id].provider && s'.reviews[id].rating == rating
    ensures NotWorse(s, s', provider, round)
  {
    EditedBuckets(s, s', provider, id, s.reviews[id].rating, rating);
    BucketsPartition(s, provider);
    BucketsPartition(s', provider);
    BetterStars(s, s', provider, round);
  }

  lemma EditedBuckets(s: Store, s': Store, provider: Id, id: Id, was: int, rating: int)
    requires id in s.reviews && s.reviews[id].rating == was
    requires id in s'.reviews && s'.reviews == s.reviews[id := s'.reviews[id]]
    requires s'.reviews[id].provider == s.reviews[id].provider && s'.reviews[id].rating == rating
    ensures forall v :: |Bucket(s', provider, v)| == |Bucket(s, provider, v)| +
                          if s.reviews[id].provider != provider || was == rating then 0
                          else if v == rating then 1 else if v == was then -1 else 0
  {
    forall v
      ensures |Bucket(s', provider, v)| == |Bucket(s, provider, v)| +
                if s.reviews[id].provider != provider || was == rating then 0
                else if v == rating then 1 else if v == was then -1 else 0
    {
      var before, after := Bucket(s, provider, v), Bucket(s', provider, v);
      if s.reviews[id].provider != provider || was == rating || (v != rating && v != was) {
        SameMembers(after, before);
      } else if v == rating {
        SameMembers(after, before + {id});
      } else {
        SameMembers(before, after + {id});
      }
    }
  }

  /** One more review, rated at least the exact current average of its provider, never lowers the
      average or the sentiment. */
  lemma GoodReviewIsNotWorse(s: Store, r: Review, round: real -> int)
    requires ReviewTable(s) && Nearest(round)
    requires R.Insert(s, r).result.Success?
    requires r.rating * |ReviewsFor(s, r.provider)| >= Stars(s, r.provider)
    ensures NotWorse(s, R.Insert(s, r).store, r.provider, round)
  {
    var s' := R.Insert(s, r).store;
    AddedBuckets(s, s', r);
    BucketsPartition(s, r.provider);
    BucketsPartition(s', r.provider);
    BetterStars(s, s', r.provider, round);
  }

  /** The same of the request: a review written with a rating at or above the exact average. */
  lemma GoodRequestIsNotWorse(s: Store, id: Id, user: User, booking: Id, rating: int, comment: Option<string>,
                              round: real -> int)
    requires ReviewTable(s) && Nearest(round)
    requires R.Create(s, id, user, booking, rating, comment).result.Success?
    requires var p := s.bookings[booking].provider; rating * |ReviewsFor(s, p)| >= Stars(s, p)
    ensures booking in s.bookings
    ensures NotWorse(s, R.Create(s, id, user, booking, rating, comment).store, s.bookings[booking].provider, round)
  {
    GoodReviewIsNotWorse(s, R.Draft(s, id, user, booking, rating, comment), round);
  }

  lemma AddedBuckets(s: Store, s': Store, r: Review)
    requires r.id !in s.reviews && s'.reviews == s.reviews[r.id := r]
    ensures forall v :: |Bucket(s', r.provider, v)| == |Bucket(s, r.provider, v)| + if v == r.rating then 1 else 0
  {
    forall v
      ensures |Bucket(s', r.provider, v)| == |Bucket(s, r.provider, v)| + if v == r.rating then 1 else 0
    {
      var before, after := Bucket(s, r.provider, v), Bucket(s', r.provider, v);
      if v == r.rating {
        SameMembers(after, before + {r.id});
      } else {
        SameMembers(after, before);
      }
    }
  }
}
