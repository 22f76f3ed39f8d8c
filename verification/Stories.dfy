/** A run from empty tables to a reviewed booking: what the platform is for can happen. */
module Stories {
  import opened Domain
  import opened Engine
  import opened Runs
  import opened Reminders
  import B = BookingSpec

  /** The customer books, the provider confirms and completes, and the customer reviews with any rating
      and comment the schema admits. */
  lemma BookedToReviewed(rating: int, comment: Option<string>) returns (ss: seq<Store>, es: seq<Event>)
    requires 1 <= rating <= 5
    ensures Run(ss, es) && |es| == 4
    ensures es[0].req.CreateBooking? && es[3].req == CreateReview(CUSTOMER, 1, VISIT, rating, comment)
    ensures es[1].req == UpdateBooking(PROVIDER, VISIT, B.BookingUpdate(None, None, None, Some(Confirmed)))
    ensures es[2].req == UpdateBooking(PROVIDER, VISIT, B.BookingUpdate(None, None, None, Some(Completed)))
    ensures ss[4].bookings == map[VISIT := Visit(5, 6, Completed)]
    ensures ss[4].reviews == map[1 := Review(1, VISIT, CUSTOMER, PROVIDER, rating, comment)]
  {
    var confirm := B.BookingUpdate(None, None, None, Some(Confirmed));
    var complete := B.BookingUpdate(None, None, None, Some(Completed));
    var ss1, es1 := OpenedTale(5, 6);
    var ss2, es2 := PatchedTale(ss1, es1, Visit(5, 6, Pending), PROVIDER, confirm, Visit(5, 6, Confirmed));
    var ss3, es3 := PatchedTale(ss2, es2, Visit(5, 6, Confirmed), PROVIDER, complete, Visit(5, 6, Completed));
    NoReviewYet(ss3, es3, 3);
    ss, es := ReviewedTale(ss3, es3, rating, comment);
  }

  lemma {:induction false} NoReviewYet(ss: seq<Store>, es: seq<Event>, n: nat)
    requires Run(ss, es) && n < |ss|
    requires forall m :: 0 <= m < |es| ==> !es[m].req.CreateReview?
    ensures ss[n].reviews == map[]
  {
    if n > 0 {
      NoReviewYet(ss, es, n - 1);
      assert Applied(ss, es, n - 1);
      NoReviewAdded(ss[n - 1], es[n - 1], ss[n]);
    }
  }

  lemma NoReviewAdded(s: Store, e: Event, s': Store)
    requires s' == Apply(s, e) && !e.req.CreateReview? && s.reviews == map[]
    ensures s'.reviews == map[]
  {
    if e.req.UpdateReview? || e.req.DeleteReview? {
    } else if e.req.WritesBooking() {
      assert Apply(s, e) == s.(bookings := Apply(s, e).bookings, notifications := Apply(s, e).notifications);
    } else {
      assert Apply(s, e) == s.(notifications := Apply(s, e).notifications);
    }
  }

  lemma ReviewedTale(ss: seq<Store>, es: seq<Event>, rating: int, comment: Option<string>)
    returns (ss': seq<Store>, es': seq<Event>)
    requires Tale(ss, es, Visit(5, 6, Completed)) && ss[|es|].reviews == map[] && 1 <= rating <= 5
    ensures Run(ss', es') && es' == es + [Event(0, CreateReview(CUSTOMER, 1, VISIT, rating, comment))]
    ensures ss'[|es'|].bookings == ss[|es|].bookings
    ensures ss'[|es'|].reviews == map[1 := Review(1, VISIT, CUSTOMER, PROVIDER, rating, comment)]
  {
    var s, e := ss[|es|], Event(0, CreateReview(CUSTOMER, 1, VISIT, rating, comment));
    var s' := Apply(s, e);
    RunGrowsBy(ss, es, e, s');
    ss', es' := ss + [s'], es + [e];
  }
}
