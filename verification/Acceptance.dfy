/** Which requests succeed, which error the others meet, and what a success stores, in so many words:
    none of the rules the services run is named here. */
module Acceptance {
  import opened Domain
  import opened Rules
  import opened Engine
  import B = BookingSpec
  import R = ReviewSpec
  import N = NotificationSpec

  // ---------- The conditions ----------

  /** The admin, the booking's customer as a customer, or its provider as a provider. */
  predicate Party(b: Booking, user: User) {
    || user.role == Admin
    || (user.role == Customer && user.id == b.customer)
    || (user.role == Provider && user.id == b.provider)
  }

  predicate Live(b: Booking) {
    b.status == Pending || b.status == Confirmed
  }

  /** No booking of the provider but cancelled ones and `except` shares an instant with the slot; one may
      end where the slot starts, or start where it ends. */
  predicate Free(s: Store, provider: Id, start: Instant, end: Instant, except: Option<Id>) {
    forall i | i in s.bookings ::
      || s.bookings[i].provider != provider
      || s.bookings[i].status == Cancelled
      || except == Some(i)
      || s.bookings[i].end <= start || end <= s.bookings[i].start
  }

  predicate Eligible(s: Store, customer: Id, provider: Id) {
    customer != provider && provider in s.users && s.users[provider].role == Provider
  }

  predicate TakesCreate(s: Store, customer: Id, id: Id, input: B.BookingCreate) {
    && Eligible(s, customer, input.provider)
    && Free(s, input.provider, input.start, input.end, None)
    && id !in s.bookings && customer in s.users && input.start < input.end
  }

  function Given<T>(field: Option<T>, otherwise: T): T {
    if field.Some? then field.value else otherwise
  }

  /** The status asked for is the present one or one the caller may move to. */
  predicate StatusAllowed(b: Booking, upd: B.BookingUpdate, role: Role) {
    upd.status == None || upd.status == Some(b.status) || MayMove(b.status, upd.status.value, role)
  }

  /** The times asked for, if any, are an interval. */
  predicate TimesOrdered(b: Booking, upd: B.BookingUpdate) {
    (upd.start == None && upd.end == None) || Given(upd.start, b.start) < Given(upd.end, b.end)
  }

  predicate TimesFree(s: Store, id: Id, b: Booking, upd: B.BookingUpdate) {
    || (upd.start == None && upd.end == None)
    || Free(s, b.provider, Given(upd.start, b.start), Given(upd.end, b.end), Some(id))
  }

  predicate TakesUpdate(s: Store, user: User, id: Id, upd: B.BookingUpdate) {
    && id in s.bookings
    && var b := s.bookings[id];
       && Party(b, user) && Live(b) && StatusAllowed(b, upd, user.role)
       && TimesOrdered(b, upd) && TimesFree(s, id, b, upd)
  }

  predicate TakesCancel(s: Store, user: User, id: Id) {
    id in s.bookings && Party(s.bookings[id], user) && Live(s.bookings[id])
  }

  predicate TakesDelete(s: Store, user: User, id: Id) {
    && id in s.bookings && s.bookings[id].status == Pending
    && (user.role == Admin || (user.role == Customer && user.id == s.bookings[id].customer))
  }

  predicate Rated(rating: int) {
    1 <= rating <= 5
  }

  predicate HasReview(s: Store, booking: Id) {
    exists i | i in s.reviews :: s.reviews[i].booking == booking
  }

  predicate TakesReview(s: Store, user: User, id: Id, booking: Id, rating: int) {
    && user.role == Customer
    && booking in s.bookings && s.bookings[booking].customer == user.id && s.bookings[booking].status == Completed
    && !HasReview(s, booking) && id !in s.reviews && Rated(rating)
  }

  predicate TakesReviewUpdate(s: Store, user: User, id: Id, rating: Option<int>) {
    && id in s.reviews && user.role == Customer && s.reviews[id].customer == user.id
    && (rating.Some? ==> Rated(rating.value))
  }

  predicate TakesReviewDelete(s: Store, user: User, id: Id) {
    id in s.reviews && (user.role == Admin || (user.role == Customer && s.reviews[id].customer == user.id))
  }

  /** The request of an event is one of those, by a user that exists. */
  predicate Takes(s: Store, e: Event) {
    && !e.req.IsJob() && e.req.actor in s.users
    && var user := s.users[e.req.actor];
       match e.req
       case CreateBooking(actor, newId, input) => TakesCreate(s, actor, newId, input)
       case UpdateBooking(_, id, upd) => TakesUpdate(s, user, id, upd)
       case CancelBooking(_, id) => TakesCancel(s, user, id)
       case DeleteBooking(_, id) => TakesDelete(s, user, id)
       case CreateReview(_, newId, booking, rating, _) => TakesReview(s, user, newId, booking, rating)
       case UpdateReview(_, id, rating, _) => TakesReviewUpdate(s, user, id, rating)
       case DeleteReview(_, id) => TakesReviewDelete(s, user, id)
       case MarkRead(actor, key) => key in s.notifications && key.user == actor
       case MarkAllRead(_) => true
  }

  // ---------- The answers ----------

  lemma FreeIsAvailable(s: Store, provider: Id, start: Instant, end: Instant, except: Option<Id>)
    requires BookingTables(s)
    ensures Free(s, provider, start, end, except) <==> Available(s.bookings, provider, start, end, except)
  {
    forall i | i in s.bookings
      ensures Conflicts(s.bookings[i], provider, start, end, except) <==>
              !(|| s.bookings[i].provider != provider
                || s.bookings[i].status == Cancelled
                || except == Some(i)
                || s.bookings[i].end <= start || end <= s.bookings[i].start)
    {
      assert s.bookings[i].id == i;
    }
  }

  /** Creating a booking: each error exactly when, and a success stores and answers the row asked for. */
  lemma CreateAnswers(s: Store, id: Id, customer: Id, input: B.BookingCreate, now: Instant)
    requires BookingTables(s)
    ensures var o := B.Create(s, id, customer, input, now);
            var eligible := Eligible(s, customer, input.provider);
            var free := Free(s, input.provider, input.start, input.end, None);
            && (o.result == Failure(NotFound) <==> customer != input.provider && input.provider !in s.users)
            && (o.result == Failure(BadRequest) <==>
                  customer == input.provider || (input.provider in s.users && s.users[input.provider].role != Provider))
            && (o.result == Failure(Conflict) <==> eligible && !free)
            && (o.result == Failure(IntegrityError) <==>
                  eligible && free && (id in s.bookings || customer !in s.users || input.end <= input.start))
            && (o.result.Success? <==> TakesCreate(s, customer, id, input))
            && (o.result.Failure? ==> o.store == s)
            && (o.result.Success? ==>
                  && id in o.store.bookings && o.result.value == o.store.bookings[id]
                  && var row := Booking(id, customer, input.provider, input.service, input.start, input.end, Pending);
                     o.store.bookings == s.bookings[id := row])
  {
    FreeIsAvailable(s, input.provider, input.start, input.end, None);
  }

  /** Updating a booking. */
  lemma UpdateAnswers(s: Store, id: Id, upd: B.BookingUpdate, user: User, now: Instant)
    requires BookingTables(s)
    ensures var o := B.Update(s, id, upd, user, now);
            && (o.result == Failure(NotFound) <==> id !in s.bookings)
            && (id in s.bookings ==>
                  var b := s.bookings[id];
                  var forbidden := upd.status.Some? && user.role == Customer &&
                                   ((b.status == Pending && upd.status == Some(Confirmed)) ||
                                    (b.status == Confirmed && upd.status == Some(Completed)));
                  var moved := Party(b, user) && Live(b) && StatusAllowed(b, upd, user.role);
                  && (o.result == Failure(Forbidden) <==> !Party(b, user) || (Live(b) && forbidden))
                  && (o.result == Failure(BadRequest) <==>
                        && Party(b, user)
                        && (!Live(b) || (!forbidden && (!StatusAllowed(b, upd, user.role) || !TimesOrdered(b, upd)))))
                  && (o.result == Failure(Conflict) <==> moved && TimesOrdered(b, upd) && !TimesFree(s, id, b, upd)))
            && (o.result.Success? <==> TakesUpdate(s, user, id, upd))
            && (o.result.Failure? ==> o.store == s)
            && (o.result.Success? ==>
                  && id in o.store.bookings && o.result.value == o.store.bookings[id]
                  && var b, after := s.bookings[id], o.store.bookings[id];
                     && o.store.bookings == s.bookings[id := after]
                     && after == Booking(id, b.customer, b.provider, Given(upd.service, b.service),
                                         Given(upd.start, b.start), Given(upd.end, b.end), Given(upd.status, b.status)))
  {
    if id in s.bookings {
      var b := s.bookings[id];
      TransitionCheckIsExact(b.status, Given(upd.status, b.status), user.role);
      FreeIsAvailable(s, b.provider, Given(upd.start, b.start), Given(upd.end, b.end), Some(id));
    }
  }

  /** Reading, cancelling and deleting a booking. */
  lemma CancelAnswers(s: Store, id: Id, user: User, now: Instant)
    requires BookingTables(s)
    ensures var o, read := B.Cancel(s, id, user, now), B.GetById(s, id, user);
            && (read == Failure(NotFound) <==> id !in s.bookings)
            && (id in s.bookings ==>
                  && (read == Failure(Forbidden) <==> !Party(s.bookings[id], user))
                  && (read == Success(s.bookings[id]) <==> Party(s.bookings[id], user)))
            && (o.result == Failure(NotFound) <==> id !in s.bookings)
            && (id in s.bookings ==>
                  && (o.result == Failure(Forbidden) <==> !Party(s.bookings[id], user))
                  && (o.result == Failure(BadRequest) <==> Party(s.bookings[id], user) && !Live(s.bookings[id])))
            && (o.result.Success? <==> TakesCancel(s, user, id))
            && (o.result.Failure? ==> o.store == s)
            && (o.result.Success? ==>
                  && o.result.value == s.bookings[id].(status := Cancelled)
                  && o.store.bookings == s.bookings[id := s.bookings[id].(status := Cancelled)])
  {
    if id in s.bookings {
      TransitionCheckIsExact(s.bookings[id].status, Cancelled, user.role);
    }
  }

  lemma DeleteAnswers(s: Store, id: Id, user: User, now: Instant)
    ensures var o := B.Delete(s, id, user, now);
            && (o.result == Failure(NotFound) <==> id !in s.bookings)
            && (id in s.bookings ==>
                  var owner := user.role == Admin || (user.role == Customer && user.id == s.bookings[id].customer);
                  && (o.result == Failure(Forbidden) <==> !owner)
                  && (o.result == Failure(BadRequest) <==> owner && s.bookings[id].status != Pending))
            && (o.result.Success? <==> TakesDelete(s, user, id))
            && (o.result.Failure? ==> o.store == s)
            && (o.result.Success? ==> o.store.bookings == s.bookings[id := s.bookings[id].(status := Cancelled)])
  {
  }

  /** Writing a review; the schema admits ratings from 1 to 5 only. */
  lemma ReviewAnswers(s: Store, id: Id, user: User, booking: Id, rating: int, comment: Option<string>)
    requires BookingTables(s)
    ensures var o := R.Create(s, id, user, booking, rating, comment);
            var own := user.role == Customer && booking in s.bookings && s.bookings[booking].customer == user.id;
            && (o.result == Failure(NotFound) <==> user.role == Customer && booking !in s.bookings)
            && (o.result == Failure(Forbidden) <==> user.role != Customer || (booking in s.bookings && !own))
            && (o.result == Failure(BadRequest) <==> own && s.bookings[booking].status != Completed)
            && (o.result == Failure(Conflict) <==>
                  && own && s.bookings[booking].status == Completed
                  && (HasReview(s, booking) || id in s.reviews || !Rated(rating)))
            && (o.result.Success? <==> TakesReview(s, user, id, booking, rating))
            && (o.result.Failure? ==> o.store == s)
            && (o.result.Success? ==>
                  var row := Review(id, booking, user.id, s.bookings[booking].provider, rating, comment);
                  o.result.value == row && o.store == s.(reviews := s.reviews[id := row]))
  {
    if user.role == Customer && booking in s.bookings && s.bookings[booking].customer == user.id {
      assert BookingRow(s.users, s.bookings[booking]);
    }
  }

  lemma ReviewUpdateAnswers(s: Store, id: Id, rating: Option<int>, comment: Option<string>, user: User)
    requires ReviewTable(s)
    ensures var o := R.Update(s, id, rating, comment, user);
            && (o.result == Failure(NotFound) <==> id !in s.reviews)
            && (o.result == Failure(Forbidden) <==>
                  id in s.reviews && !(user.role == Customer && s.reviews[id].customer == user.id))
            && (o.result.Success? <==> TakesReviewUpdate(s, user, id, rating))
            && (o.result.Failure? ==> o.store == s)
            && (o.result.Success? ==>
                  var r := s.reviews[id];
                  var row := Review(id, r.booking, r.customer, r.provider, Given(rating, r.rating),
                                    if comment.Some? then comment else r.comment);
                  o.result.value == row && o.store == s.(reviews := s.reviews[id := row]))
  {
    if id in s.reviews {
      assert ReviewRow(s, s.reviews[id]);
    }
  }

  lemma ReviewDeleteAnswers(s: Store, id: Id, user: User)
    ensures var o := R.Delete(s, id, user);
            && (o.result == Failure(NotFound) <==> id !in s.reviews)
            && (o.result == Failure(Forbidden) <==> id in s.reviews && !TakesReviewDelete(s, user, id))
            && (o.result.Success? <==> TakesReviewDelete(s, user, id))
            && (o.result.Failure? ==> o.store == s)
            && (o.result.Success? ==> o.store == s.(reviews := map i | i in s.reviews && i != id :: s.reviews[i]))
  {
  }

  lemma MarkReadAnswers(s: Store, k: Key, user: Id, now: Instant)
    ensures var o := N.MarkRead(s, k, user, now);
            && (o.result == Failure(NotFound) <==> k !in s.notifications)
            && (o.result == Failure(Forbidden) <==> k in s.notifications && k.user != user)
            && (o.result.Success? <==> k in s.notifications && k.user == user)
            && (o.result.Failure? ==> o.store == s)
            && (o.result.Success? ==>
                  && o.result.value.isRead
                  && o.store == s.(notifications := s.notifications[k := o.result.value])
                  && (s.notifications[k].isRead ==> o.result.value == s.notifications[k])
                  && (!s.notifications[k].isRead ==>
                        o.result.value == Receipt(s.notifications[k].createdAt, true, Some(now))))
  {
  }
}
