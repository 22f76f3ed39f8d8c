/** The two computations of a provider's review metrics: the synchronous endpoint and the queued job. */
module ReviewSummary {
  import opened Domain
  import opened Counting
  import opened Listing
  import opened Ratings
  import opened Sessions

  /** What the synchronous endpoint answers when its queries are. */
  function Summarise(s: Store, provider: Id, round: real -> int): Result<Summary> {
    if provider !in s.users then Failure(NotFound)
    else if s.users[provider].role != Provider then Failure(BadRequest)
    else Success(SummaryOf(s, provider, round))
  }

  /** The same over a connection of `budget` round trips: a provider's metrics take three, refusing
      takes one. */
  function Answered<T>(full: Result<T>, budget: nat): Result<T> {
    if budget == 0 || (full.Success? && budget < 3) then Failure(Unavailable) else full
  }

  // ---------- The queries ----------

  lemma {:induction false} CountAppend(ratings: seq<int>, r: int, v: int)
    ensures CountOf(ratings + [r], v) == CountOf(ratings, v) + if r == v then 1 else 0
  {
    if ratings != [] {
      assert (ratings + [r])[1..] == ratings[1..] + [r];
      CountAppend(ratings[1..], r, v);
    }
  }

  lemma {:induction false} SumAppend(ratings: seq<int>, r: int)
    ensures Sum(ratings + [r]) == Sum(ratings) + r
  {
    if ratings != [] {
      assert (ratings + [r])[1..] == ratings[1..] + [r];
      SumAppend(ratings[1..], r);
    }
  }

  method AddRatings(ratings: seq<int>) returns (total: int)
    ensures total == Sum(ratings)
  {
    total := 0;
    for n := 0 to |ratings|
      invariant total == Sum(ratings[..n])
    {
      assert ratings[..n + 1] == ratings[..n] + [ratings[n]];
      SumAppend(ratings[..n], ratings[n]);
      total := total + ratings[n];
    }
    assert ratings[..|ratings|] == ratings;
  }

  /** SELECT count, avg: the number of rows and the sum of the ratings, whose quotient is the average
      of one or more rows. */
  method SelectStats(db: Session, provider: Id) returns (r: Result<(nat, nat)>)
    requires ReviewTable(db.tx)
    modifies db`budget
    ensures old(db.budget) == 0 ==> r == Failure(Unavailable) && db.budget == 0
    ensures old(db.budget) > 0 ==>
              && db.budget == old(db.budget) - 1
              && r == Success((|ReviewsFor(db.tx, provider)|, Stars(db.tx, provider)))
  {
    var _ :- db.RoundTrip();
    var order := List(ReviewsFor(db.tx, provider));
    var total := AddRatings(RatingsOf(db.tx.reviews, order));
    AggregationIsExact(db.tx, provider, order);
    return Success((|order|, total));
  }

  /** The rows of SELECT rating, count GROUP BY rating: one for each rating that occurs. */
  ghost predicate Groups(s: Store, provider: Id, groups: map<int, nat>) {
    forall v :: (v in groups <==> |Bucket(s, provider, v)| > 0)
          && (v in groups ==> groups[v] == |Bucket(s, provider, v)|)
  }

  /** The groups of the first ratings of a list. */
  ghost predicate GroupsOf(ratings: seq<int>, groups: map<int, nat>) {
    forall v :: (v in groups <==> CountOf(ratings, v) > 0) && (v in groups ==> groups[v] == CountOf(ratings, v))
  }

  lemma GroupOneMore(ratings: seq<int>, groups: map<int, nat>, r: int)
    requires GroupsOf(ratings, groups)
    ensures GroupsOf(ratings + [r], groups[r := if r in groups then groups[r] + 1 else 1])
  {
    forall v
      ensures CountOf(ratings + [r], v) == CountOf(ratings, v) + if r == v then 1 else 0
    {
      CountAppend(ratings, r, v);
    }
  }

  lemma GroupsAreBuckets(s: Store, provider: Id, order: seq<Id>, groups: map<int, nat>)
    requires ReviewTable(s) && Lists(order, ReviewsFor(s, provider))
    requires GroupsOf(RatingsOf(s.reviews, order), groups)
    ensures Groups(s, provider, groups)
  {
    AggregationIsExact(s, provider, order);
  }

  method GroupRatings(ratings: seq<int>) returns (groups: map<int, nat>)
    ensures GroupsOf(ratings, groups)
  {
    groups := map[];
    for n := 0 to |ratings|
      invariant GroupsOf(ratings[..n], groups)
    {
      assert ratings[..n + 1] == ratings[..n] + [ratings[n]];
      GroupOneMore(ratings[..n], groups, ratings[n]);
      groups := groups[ratings[n] := if ratings[n] in groups then groups[ratings[n]] + 1 else 1];
    }
    assert ratings[..|ratings|] == ratings;
  }

  method SelectGroups(db: Session, provider: Id) returns (r: Result<map<int, nat>>)
    requires ReviewTable(db.tx)
    modifies db`budget
    ensures old(db.budget) == 0 ==> r == Failure(Unavailable) && db.budget == 0
    ensures old(db.budget) > 0 ==>
              db.budget == old(db.budget) - 1 && r.Success? && Groups(db.tx, provider, r.value)
  {
    var _ :- db.RoundTrip();
    var order := List(ReviewsFor(db.tx, provider));
    var groups := GroupRatings(RatingsOf(db.tx.reviews, order));
    GroupsAreBuckets(db.tx, provider, order, groups);
    return Success(groups);
  }

  // ---------- The loop over the groups ----------

  /** Fills the distribution, which starts with every rating at zero, from the groups in any order. */
  method Distribute(groups: map<int, nat>) returns (distribution: map<int, nat>)
    requires forall v :: v in groups ==> 1 <= v <= 5
    ensures distribution == map v | 1 <= v <= 5 :: if v in groups then groups[v] else 0
  {
    distribution := map[1 := 0, 2 := 0, 3 := 0, 4 := 0, 5 := 0];
    var rest := groups.Keys;
    while rest != {}
      invariant rest <= groups.Keys
      invariant forall v :: v in distribution <==> 1 <= v <= 5
      invariant forall v :: 1 <= v <= 5 ==> distribution[v] == if v in groups && v !in rest then groups[v] else 0
      decreases rest
    {
      ghost var some := Element(rest);
      var v :| v in rest;
      distribution := distribution[v := groups[v]];
      rest := rest - {v};
    }
  }

  /** The aggregation both computations perform: two queries and the loop. */
  method Aggregate(db: Session, provider: Id, round: real -> int) returns (r: Result<Summary>)
    requires ReviewTable(db.tx)
    modifies db`budget
    ensures r == if old(db.budget) < 2 then Failure(Unavailable) else Success(SummaryOf(db.tx, provider, round))
  {
    var stats :- SelectStats(db, provider);
    var average := if stats.0 > 0 then round(stats.1 as real / stats.0 as real) else 0;
    var groups :- SelectGroups(db, provider);
    forall v | v in groups
      ensures 1 <= v <= 5
    {
      RatingOfBucket(db.tx, provider, v);
    }
    var distribution := Distribute(groups);
    assert distribution == SummaryOf(db.tx, provider, round).distribution;
    return Success(Summary(stats.0, average, distribution));
  }

  lemma RatingOfBucket(s: Store, provider: Id, v: int)
    requires ReviewTable(s) && |Bucket(s, provider, v)| > 0
    ensures 1 <= v <= 5
  {
    var i := Element(Bucket(s, provider, v));
    assert ReviewRow(s, s.reviews[i]);
  }

  method GetProviderReviewSummary(db: Session, provider: Id, round: real -> int) returns (r: Result<Summary>)
    requires ReviewTable(db.tx)
    modifies db`budget
    ensures r == Answered(Summarise(db.tx, provider, round), old(db.budget))
  {
    var found :- db.GetUser(provider);
    if found.None? {
      return Failure(NotFound);
    }
    if found.value.role != Provider {
      return Failure(BadRequest);
    }
    r := Aggregate(db, provider, round);
  }
}
