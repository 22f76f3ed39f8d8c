/** What bookings and reviews say, column by column, read off the requests of a run alone. */
module Contents {
  import opened Domain
  import opened Rules
  import opened Engine
  import opened Invariants
  import opened Runs
  import opened Acceptance
  import C = Counting

  // ---------- One step ----------

  predicate Cancels(req: Request, b: Id) {
    (req.CancelBooking? || req.DeleteBooking?) && req.id == b
  }

  /** The row of booking `b` after a step: created, overwritten in the fields given, cancelled, or as it
      was. */
  ghost predicate RowStep(s: Store, e: Event, s': Store, b: Id) {
    if Takes(s, e) && e.req.CreateBooking? && e.req.newId == b then
      var input := e.req.input;
      && b !in s.bookings && b in s'.bookings
      && s'.bookings[b] == Booking(b, e.req.actor, input.provider, input.service, input.start, input.end, Pending)
    else if Takes(s, e) && e.req.UpdateBooking? && e.req.id == b then
      var upd := e.req.upd;
      && b in s.bookings && b in s'.bookings
      && var was, r := s.bookings[b], s'.bookings[b];
         && r.id == b && r.customer == was.customer && r.provider == was.provider
         && r.service == Given(upd.service, was.service)
         && r.start == Given(upd.start, was.start) && r.end == Given(upd.end, was.end)
         && r.status == Given(upd.status, was.status)
    else if Takes(s, e) && Cancels(e.req, b) then
      b in s.bookings && b in s'.bookings && s'.bookings[b] == s.bookings[b].(status := Cancelled)
    else
      (b in s'.bookings <==> b in s.bookings) && (b in s.bookings ==> s'.bookings[b] == s.bookings[b])
  }

  lemma CreateRow(s: Store, e: Event, b: Id)
    requires BookingTables(s) && e.req.CreateBooking?
    ensures RowStep(s, e, Apply(s, e), b)
  {
    if e.req.actor in s.users {
      CreateAnswers(s, e.req.newId, e.req.actor, e.req.input, e.now);
    }
  }

  lemma UpdateRow(s: Store, e: Event, b: Id)
    requires BookingTables(s) && e.req.UpdateBooking?
    ensures RowStep(s, e, Apply(s, e), b)
  {
    if e.req.actor in s.users {
      UpdateAnswers(s, e.req.id, e.req.upd, s.users[e.req.actor], e.now);
    }
  }

  lemma WithdrawRow(s: Store, e: Event, b: Id)
    requires BookingTables(s) && (e.req.CancelBooking? || e.req.DeleteBooking?)
    ensures RowStep(s, e, Apply(s, e), b)
  {
    if e.req.actor in s.users {
      CancelAnswers(s, e.req.id, s.users[e.req.actor], e.now);
      DeleteAnswers(s, e.req.id, s.users[e.req.actor], e.now);
    }
  }

  lemma RowStepHolds(s: Store, e: Event, s': Store, b: Id)
    requires BookingTables(s) && s' == Apply(s, e)
    ensures RowStep(s, e, s', b)
  {
    if e.req.CreateBooking? {
      CreateRow(s, e, b);
    } else if e.req.UpdateBooking? {
      UpdateRow(s, e, b);
    } else if e.req.WritesBooking() {
      WithdrawRow(s, e, b);
    } else {
      OtherMove(s, e);
    }
  }

  // ---------- The columns of a booking ----------

  /** Who asked for booking `b`, and of which provider. */
  ghost function CustomerAt(ss: seq<Store>, es: seq<Event>, b: Id, n: nat): Option<Id>
    requires n <= |es| < |ss|
  {
    if n == 0 then None
    else if Takes(ss[n - 1], es[n - 1]) && es[n - 1].req.CreateBooking? && es[n - 1].req.newId == b then
      Some(es[n - 1].req.actor)
    else CustomerAt(ss, es, b, n - 1)
  }

  ghost function ProviderAt(ss: seq<Store>, es: seq<Event>, b: Id, n: nat): Option<Id>
    requires n <= |es| < |ss|
  {
    if n == 0 then None
    else if Takes(ss[n - 1], es[n - 1]) && es[n - 1].req.CreateBooking? && es[n - 1].req.newId == b then
      Some(es[n - 1].req.input.provider)
    else ProviderAt(ss, es, b, n - 1)
  }

  /** The service its creation asked for, or the last successful update that named one. */
  ghost function ServiceAt(ss: seq<Store>, es: seq<Event>, b: Id, n: nat): Option<string>
    requires n <= |es| < |ss|
  {
    if n == 0 then None
    else
      var req, before := es[n - 1].req, ServiceAt(ss, es, b, n - 1);
      if !Takes(ss[n - 1], es[n - 1]) then before
      else if req.CreateBooking? && req.newId == b then Some(req.input.service)
      else if req.UpdateBooking? && req.id == b && req.upd.service.Some? then req.upd.service
      else before
  }

  ghost function StartAt(ss: seq<Store>, es: seq<Event>, b: Id, n: nat): Option<Instant>
    requires n <= |es| < |ss|
  {
    if n == 0 then None
    else
      var req, before := es[n - 1].req, StartAt(ss, es, b, n - 1);
      if !Takes(ss[n - 1], es[n - 1]) then before
      else if req.CreateBooking? && req.newId == b then Some(req.input.start)
      else if req.UpdateBooking? && req.id == b && req.upd.start.Some? then req.upd.start
      else before
  }

  ghost function EndAt(ss: seq<Store>, es: seq<Event>, b: Id, n: nat): Option<Instant>
    requires n <= |es| < |ss|
  {
    if n == 0 then None
    else
      var req, before := es[n - 1].req, EndAt(ss, es, b, n - 1);
      if !Takes(ss[n - 1], es[n - 1]) then before
      else if req.CreateBooking? && req.newId == b then Some(req.input.end)
      else if req.UpdateBooking? && req.id == b && req.upd.end.Some? then req.upd.end
      else before
  }

  /** Pending when created; then as the last successful update, cancellation or deletion says. */
  ghost function StatusAt(ss: seq<Store>, es: seq<Event>, b: Id, n: nat): Option<Status>
    requires n <= |es| < |ss|
  {
    if n == 0 then None
    else
      var req, before := es[n - 1].req, StatusAt(ss, es, b, n - 1);
      if !Takes(ss[n - 1], es[n - 1]) then before
      else if req.CreateBooking? && req.newId == b then Some(Pending)
      else if req.UpdateBooking? && req.id == b && req.upd.status.Some? then req.upd.status
      else if Cancels(req, b) then Some(Cancelled)
      else before
  }

  ghost predicate RowRun(ss: seq<Store>, es: seq<Event>, b: Id) {
    && |ss| == |es| + 1
    && b !in ss[0].bookings
    && forall n :: 0 <= n < |es| ==> RowStep(ss[n], es[n], ss[n + 1], b)
  }

  lemma RowsStep(ss: seq<Store>, es: seq<Event>, b: Id)
    requires Run(ss, es)
    ensures RowRun(ss, es, b)
  {
    forall n | 0 <= n < |es|
      ensures RowStep(ss[n], es[n], ss[n + 1], b)
    {
      SoundAt(ss, es, n);
      assert Applied(ss, es, n);
      RowStepHolds(ss[n], es[n], ss[n + 1], b);
    }
  }

  lemma {:induction false} PartiesAt(ss: seq<Store>, es: seq<Event>, b: Id, n: nat)
    requires RowRun(ss, es, b) && n < |ss|
    ensures CustomerAt(ss, es, b, n) == (if b in ss[n].bookings then Some(ss[n].bookings[b].customer) else None)
    ensures ProviderAt(ss, es, b, n) == (if b in ss[n].bookings then Some(ss[n].bookings[b].provider) else None)
  {
    if n > 0 {
      PartiesAt(ss, es, b, n - 1);
      assert RowStep(ss[n - 1], es[n - 1], ss[n - 1 + 1], b);
    }
  }

  lemma {:induction false} ServiceIs(ss: seq<Store>, es: seq<Event>, b: Id, n: nat)
    requires RowRun(ss, es, b) && n < |ss|
    ensures ServiceAt(ss, es, b, n) == (if b in ss[n].bookings then Some(ss[n].bookings[b].service) else None)
  {
    if n > 0 {
      ServiceIs(ss, es, b, n - 1);
      assert RowStep(ss[n - 1], es[n - 1], ss[n - 1 + 1], b);
    }
  }

  lemma {:induction false} StartIs(ss: seq<Store>, es: seq<Event>, b: Id, n: nat)
    requires RowRun(ss, es, b) && n < |ss|
    ensures StartAt(ss, es, b, n) == (if b in ss[n].bookings then Some(ss[n].bookings[b].start) else None)
  {
    if n > 0 {
      StartIs(ss, es, b, n - 1);
      assert RowStep(ss[n - 1], es[n - 1], ss[n - 1 + 1], b);
    }
  }

  lemma {:induction false} EndIs(ss: seq<Store>, es: seq<Event>, b: Id, n: nat)
    requires RowRun(ss, es, b) && n < |ss|
    ensures EndAt(ss, es, b, n) == (if b in ss[n].bookings then Some(ss[n].bookings[b].end) else None)
  {
    if n > 0 {
      EndIs(ss, es, b, n - 1);
      assert RowStep(ss[n - 1], es[n - 1], ss[n - 1 + 1], b);
    }
  }

  lemma {:induction false} StatusIs(ss: seq<Store>, es: seq<Event>, b: Id, n: nat)
    requires RowRun(ss, es, b) && n < |ss|
    ensures StatusAt(ss, es, b, n) == (if b in ss[n].bookings then Some(ss[n].bookings[b].status) else None)
  {
    if n > 0 {
      StatusIs(ss, es, b, n - 1);
      assert RowStep(ss[n - 1], es[n - 1], ss[n - 1 + 1], b);
    }
  }

  /** In every state of every run the bookings are those that were asked for, and every column of each
      is what its creation asked for, overwritten by what later successful requests on it gave. */
  lemma BookingsAreAsAskedFor(ss: seq<Store>, es: seq<Event>, b: Id, n: nat)
    requires Run(ss, es) && n < |ss|
    ensures b in ss[n].bookings <==> CustomerAt(ss, es, b, n).Some?
    ensures b in ss[n].bookings ==>
              var r := ss[n].bookings[b];
              && CustomerAt(ss, es, b, n) == Some(r.customer) && ProviderAt(ss, es, b, n) == Some(r.provider)
              && ServiceAt(ss, es, b, n) == Some(r.service)
              && StartAt(ss, es, b, n) == Some(r.start) && EndAt(ss, es, b, n) == Some(r.end)
              && StatusAt(ss, es, b, n) == Some(r.status)
  {
    RowsStep(ss, es, b);
    PartiesAt(ss, es, b, n);
    ServiceIs(ss, es, b, n);
    StartIs(ss, es, b, n);
    EndIs(ss, es, b, n);
    StatusIs(ss, es, b, n);
  }

  // ---------- Reviews ----------

  ghost predicate ReviewRowStep(s: Store, e: Event, s': Store, r: Id) {
    if Takes(s, e) && e.req.CreateReview? && e.req.newId == r then
      && r !in s.reviews && r in s'.reviews && e.req.booking in s.bookings
      && s'.reviews[r] == Review(r, e.req.booking, e.req.actor, s.bookings[e.req.booking].provider,
                                 e.req.rating, e.req.comment)
    else if Takes(s, e) && e.req.UpdateReview? && e.req.id == r then
      && r in s.reviews && r in s'.reviews
      && var was, row := s.reviews[r], s'.reviews[r];
         && row.id == r && row.booking == was.booking && row.customer == was.customer && row.provider == was.provider
         && row.rating == Given(e.req.newRating, was.rating)
         && row.comment == if e.req.comment.Some? then e.req.comment else was.comment
    else if Takes(s, e) && e.req.DeleteReview? && e.req.id == r then
      r in s.reviews && r !in s'.reviews
    else
      (r in s'.reviews <==> r in s.reviews) && (r in s.reviews ==> s'.reviews[r] == s.reviews[r])
  }

  lemma OtherReviews(s: Store, e: Event)
    requires !e.req.CreateReview? && !e.req.UpdateReview? && !e.req.DeleteReview?
    ensures Apply(s, e).reviews == s.reviews
  {
    if e.req.WritesBooking() {
      assert Apply(s, e) == s.(bookings := Apply(s, e).bookings, notifications := Apply(s, e).notifications);
    } else {
      assert Apply(s, e) == s.(notifications := Apply(s, e).notifications);
    }
  }

  lemma WrittenRow(s: Store, e: Event, r: Id)
    requires BookingTables(s) && e.req.CreateReview?
    ensures ReviewRowStep(s, e, Apply(s, e), r)
  {
    if e.req.actor in s.users {
      ReviewAnswers(s, e.req.newId, s.users[e.req.actor], e.req.booking, e.req.rating, e.req.comment);
    }
  }

  lemma EditedRow(s: Store, e: Event, r: Id)
    requires ReviewTable(s) && e.req.UpdateReview?
    ensures ReviewRowStep(s, e, Apply(s, e), r)
  {
    if e.req.actor in s.users {
      ReviewUpdateAnswers(s, e.req.id, e.req.newRating, e.req.comment, s.users[e.req.actor]);
    }
  }

  lemma RemovedRow(s: Store, e: Event, r: Id)
    requires e.req.DeleteReview?
    ensures ReviewRowStep(s, e, Apply(s, e), r)
  {
    if e.req.actor in s.users {
      ReviewDeleteAnswers(s, e.req.id, s.users[e.req.actor]);
    }
  }

  lemma ReviewRowStepHolds(s: Store, e: Event, s': Store, r: Id)
    requires BookingTables(s) && ReviewTable(s) && s' == Apply(s, e)
    ensures ReviewRowStep(s, e, s', r)
  {
    if e.req.CreateReview? {
      WrittenRow(s, e, r);
    } else if e.req.UpdateReview? {
      EditedRow(s, e, r);
    } else if e.req.DeleteReview? {
      RemovedRow(s, e, r);
    } else {
      OtherReviews(s, e);
    }
  }

  /** The rating a live review's creation gave, or the last successful update that gave one. */
  ghost function RatingAt(ss: seq<Store>, es: seq<Event>, r: Id, n: nat): Option<int>
    requires n <= |es| < |ss|
  {
    if n == 0 then None
    else
      var req, before := es[n - 1].req, RatingAt(ss, es, r, n - 1);
      if !Takes(ss[n - 1], es[n - 1]) then before
      else if req.CreateReview? && req.newId == r then Some(req.rating)
      else if req.UpdateReview? && req.id == r && req.newRating.Some? then req.newRating
      else if req.DeleteReview? && req.id == r then None
      else before
  }

  ghost function CommentAt(ss: seq<Store>, es: seq<Event>, r: Id, n: nat): Option<Option<string>>
    requires n <= |es| < |ss|
  {
    if n == 0 then None
    else
      var req, before := es[n - 1].req, CommentAt(ss, es, r, n - 1);
      if !Takes(ss[n - 1], es[n - 1]) then before
      else if req.CreateReview? && req.newId == r then Some(req.comment)
      else if req.UpdateReview? && req.id == r && req.comment.Some? then Some(req.comment)
      else if req.DeleteReview? && req.id == r then None
      else before
  }

  /** The booking it was written about, and by whom. */
  ghost function SubjectAt(ss: seq<Store>, es: seq<Event>, r: Id, n: nat): Option<(Id, Id)>
    requires n <= |es| < |ss|
  {
    if n == 0 then None
    else
      var req, before := es[n - 1].req, SubjectAt(ss, es, r, n - 1);
      if !Takes(ss[n - 1], es[n - 1]) then before
      else if req.CreateReview? && req.newId == r then Some((req.booking, req.actor))
      else if req.DeleteReview? && req.id == r then None
      else before
  }

  ghost predicate ReviewRowRun(ss: seq<Store>, es: seq<Event>, r: Id) {
    && |ss| == |es| + 1
    && r !in ss[0].reviews
    && forall n :: 0 <= n < |es| ==> ReviewRowStep(ss[n], es[n], ss[n + 1], r)
  }

  lemma ReviewRowsStep(ss: seq<Store>, es: seq<Event>, r: Id)
    requires Run(ss, es)
    ensures ReviewRowRun(ss, es, r)
  {
    forall n | 0 <= n < |es|
      ensures ReviewRowStep(ss[n], es[n], ss[n + 1], r)
    {
      SoundAt(ss, es, n);
      assert Applied(ss, es, n);
      ReviewRowStepHolds(ss[n], es[n], ss[n + 1], r);
    }
  }

  lemma {:induction false} RatingIs(ss: seq<Store>, es: seq<Event>, r: Id, n: nat)
    requires ReviewRowRun(ss, es, r) && n < |ss|
    ensures RatingAt(ss, es, r, n) == (if r in ss[n].reviews then Some(ss[n].reviews[r].rating) else None)
  {
    if n > 0 {
      RatingIs(ss, es, r, n - 1);
      assert ReviewRowStep(ss[n - 1], es[n - 1], ss[n - 1 + 1], r);
    }
  }

  lemma {:induction false} CommentIs(ss: seq<Store>, es: seq<Event>, r: Id, n: nat)
    requires ReviewRowRun(ss, es, r) && n < |ss|
    ensures CommentAt(ss, es, r, n) == (if r in ss[n].reviews then Some(ss[n].reviews[r].comment) else None)
  {
    if n > 0 {
      CommentIs(ss, es, r, n - 1);
      assert ReviewRowStep(ss[n - 1], es[n - 1], ss[n - 1 + 1], r);
    }
  }

  lemma {:induction false} SubjectIs(ss: seq<Store>, es: seq<Event>, r: Id, n: nat)
    requires ReviewRowRun(ss, es, r) && n < |ss|
    ensures SubjectAt(ss, es, r, n) ==
            if r in ss[n].reviews then Some((ss[n].reviews[r].booking, ss[n].reviews[r].customer)) else None
  {
    if n > 0 {
      SubjectIs(ss, es, r, n - 1);
      assert ReviewRowStep(ss[n - 1], es[n - 1], ss[n - 1 + 1], r);
    }
  }

  /** In every state of every run the live reviews are those written and not deleted, and rating,
      comment, booking and author of each are what its creation gave, overwritten by the rating and
      comment later successful updates of it gave. */
  lemma ReviewsAreAsWritten(ss: seq<Store>, es: seq<Event>, r: Id, n: nat)
    requires Run(ss, es) && n < |ss|
    ensures r in ss[n].reviews <==> RatingAt(ss, es, r, n).Some?
    ensures r in ss[n].reviews ==>
              var row := ss[n].reviews[r];
              && RatingAt(ss, es, r, n) == Some(row.rating) && CommentAt(ss, es, r, n) == Some(row.comment)
              && SubjectAt(ss, es, r, n) == Some((row.booking, row.customer))
  {
    ReviewRowsStep(ss, es, r);
    RatingIs(ss, es, r, n);
    CommentIs(ss, es, r, n);
    SubjectIs(ss, es, r, n);
  }

  /** A review changes only by a request of its author, and disappears only by one or by an admin's. */
  lemma OnlyAuthorsEdit(ss: seq<Store>, es: seq<Event>, r: Id, n: nat)
    requires Run(ss, es) && n < |es| && r in ss[n].reviews
    ensures var s, s', req := ss[n], ss[n + 1], es[n].req;
            && (r in s'.reviews && s'.reviews[r] != s.reviews[r] ==>
                  && req.UpdateReview? && req.id == r && req.actor == s.reviews[r].customer
                  && req.actor in s.users && s.users[req.actor].role == Customer)
            && (r !in s'.reviews ==>
                  && req.DeleteReview? && req.id == r && req.actor in s.users
                  && (s.users[req.actor].role == Admin ||
                      (s.users[req.actor].role == Customer && req.actor == s.reviews[r].customer)))
  {
    SoundAt(ss, es, n);
    assert Applied(ss, es, n);
    ReviewRowStepHolds(ss[n], es[n], ss[n + 1], r);
  }

  // ---------- Read marks ----------

  /** After a successful request to mark a notification as read, or all of them, each it covers is read
      in every later state. */
  lemma MarkedStaysRead(ss: seq<Store>, es: seq<Event>, k: Key, m: nat, n: nat)
    requires Run(ss, es) && m < n < |ss| && k in ss[m].notifications && Takes(ss[m], es[m])
    requires es[m].req.MarkRead? || es[m].req.MarkAllRead?
    requires es[m].req.MarkRead? ==> es[m].req.key == k
    requires es[m].req.MarkAllRead? ==> es[m].req.actor == k.user
    ensures k in ss[n].notifications && ss[n].notifications[k].isRead
  {
    MarkedNext(ss, es, k, m);
    ReadStays(ss, es, k, m + 1, n);
  }

  lemma MarkedNext(ss: seq<Store>, es: seq<Event>, k: Key, m: nat)
    requires Run(ss, es) && m + 1 < |ss| && k in ss[m].notifications && Takes(ss[m], es[m])
    requires es[m].req.MarkRead? || es[m].req.MarkAllRead?
    requires es[m].req.MarkRead? ==> es[m].req.key == k
    requires es[m].req.MarkAllRead? ==> es[m].req.actor == k.user
    ensures k in ss[m + 1].notifications && ss[m + 1].notifications[k].isRead
  {
    SoundAt(ss, es, m);
    assert Applied(ss, es, m);
    MarksRead(ss[m], es[m], ss[m + 1], k);
  }

  lemma ReadStays(ss: seq<Store>, es: seq<Event>, k: Key, m: nat, n: nat)
    requires Run(ss, es) && m <= n < |ss| && k in ss[m].notifications && ss[m].notifications[k].isRead
    ensures k in ss[n].notifications && ss[n].notifications[k].isRead
  {
    StepsAreLawful(ss, es);
    C.ReceiptsSince(ss, es, k, m, n);
  }

  lemma MarksRead(s: Store, e: Event, s': Store, k: Key)
    requires BookingTables(s) && s' == Apply(s, e) && k in s.notifications && Takes(s, e)
    requires e.req.MarkRead? || e.req.MarkAllRead?
    requires e.req.MarkRead? ==> e.req.key == k
    requires e.req.MarkAllRead? ==> e.req.actor == k.user
    ensures k in s'.notifications && s'.notifications[k].isRead
  {
    if e.req.MarkRead? {
      MarkReadAnswers(s, k, e.req.actor, e.now);
    }
  }
}
