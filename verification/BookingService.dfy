/** The booking requests as the service runs them: on a session, in the source's order, with the
    effects issued before the last checks. */
module BookingService {
  import opened Domain
  import opened Rules
  import opened Requests
  import opened Sessions
  import Spec = BookingSpec

  type BookingCreate = Spec.BookingCreate
  type BookingUpdate = Spec.BookingUpdate

  lemma CancellationCount(b: Booking, actor: Id)
    requires b.status == Cancelled && b.customer != b.provider
    ensures |StatusNotes(b, actor)| == (if actor != b.customer then 1 else 0) + (if actor != b.provider then 1 else 0)
  {
    var c, p := Key(b.customer, b.id, BookingCancelled), Key(b.provider, b.id, BookingCancelled);
    if actor != b.customer && actor != b.provider {
      assert StatusNotes(b, actor) == {c, p};
    }
  }

  /** Tells the participants that did not act; the only failure left is a lost connection. */
  method NotifyCancellation(db: Session, booking: Booking, actor: User) returns (r: Result<()>)
    requires booking.status == Cancelled && booking.customer != booking.provider
    requires NotificationRow(db.tx, Key(booking.customer, booking.id, BookingCancelled))
    requires NotificationRow(db.tx, Key(booking.provider, booking.id, BookingCancelled))
    modifies db`budget, db`tx
    ensures var n := |StatusNotes(booking, actor.id)|;
            if old(db.budget) < n then r == Failure(Unavailable)
            else
              && r == Success(())
              && db.budget == old(db.budget) - n
              && db.tx == old(db.tx).(notifications :=
                            Deliver(old(db.tx).notifications, StatusNotes(booking, actor.id), db.now))
  {
    CancellationCount(booking, actor.id);
    ghost var c := Key(booking.customer, booking.id, BookingCancelled);
    ghost var p := Key(booking.provider, booking.id, BookingCancelled);
    ghost var before := db.tx.notifications;
    if actor.id != booking.customer {
      var _ :- db.InsertNotification(Key(booking.customer, booking.id, BookingCancelled));
    }
    if actor.id != booking.provider {
      var _ :- db.InsertNotification(Key(booking.provider, booking.id, BookingCancelled));
    }
    assert db.tx.notifications == Deliver(before, StatusNotes(booking, actor.id), db.now);
    return Success(());
  }

  /** Runs the overlap query; it sees the transaction's tables, not the unflushed object. */
  method CheckProviderConflict(db: Session, provider: Id, start: Instant, end: Instant, exclude: Option<Id>)
    returns (r: Result<()>)
    modifies db`budget
    ensures old(db.budget) == 0 ==> r == Failure(Unavailable) && db.budget == 0
    ensures old(db.budget) > 0 ==>
              && db.budget == old(db.budget) - 1
              && r == if Available(db.tx.bookings, provider, start, end, exclude) then Success(())
                    else Failure(Conflict)
  {
    var _ :- db.RoundTrip();
    var conflict := exists i | i in db.tx.bookings :: Conflicts(db.tx.bookings[i], provider, start, end, exclude);
    return if conflict then Failure(Conflict) else Success(());
  }

  const CREATE_COST: nat := 5

  method CreateBooking(db: Session, newId: Id, customer: Id, input: BookingCreate) returns (r: Result<Booking>)
    requires db.Opened() && BookingTables(db.tx)
    modifies db, db.base
    ensures Serves(old(db.tx), Spec.Create(old(db.tx), newId, customer, input, db.now), CREATE_COST, true,
                   Link(old(db.budget), db.applied), db.base.store, r)
  {
    if customer == input.provider {
      return Failure(BadRequest);
    }
    var provider :- db.GetUser(input.provider);
    if provider.None? {
      return Failure(NotFound);
    }
    if provider.value.role != Provider {
      return Failure(BadRequest);
    }
    var _ :- CheckProviderConflict(db, input.provider, input.start, input.end, None);
    var booking := Booking(newId, customer, input.provider, input.service, input.start, input.end, Pending);
    db.Touch(InsertBooking(booking));
    var _ :- db.Flush();
    var _ :- db.InsertNotification(Key(booking.provider, booking.id, BookingCreated));
    var _ :- db.CommitAndRefresh();
    return Success(booking);
  }

  /** The two connections on which a valid booking request is answered with an error and booked all the
      same: the reply to the commit lost, or the connection lost before the reload. */
  method ErrorWithEffects(db: Session, newId: Id, customer: Id, input: BookingCreate) returns (r: Result<Booking>)
    requires db.Opened() && BookingTables(db.tx)
    requires Spec.CreateRefusal(db.tx, newId, customer, input).None?
    requires db.budget == CREATE_COST || (db.applied && db.budget + 1 == CREATE_COST)
    modifies db, db.base
    ensures r == Failure(Unavailable)
    ensures newId in db.base.store.bookings
          && db.base.store == Spec.Create(old(db.tx), newId, customer, input, db.now).store
  {
    r := CreateBooking(db, newId, customer, input);
  }

  function UpdateCost(s: Store, id: Id, upd: BookingUpdate, user: User): nat {
    if id !in s.bookings then 1
    else 2 + |Spec.UpdateNotes(s.bookings[id], upd, user.id)| + if Spec.Reschedules(upd) then 1 else 0
  }

  /** Step 1 of an update: the status, and the notifications of its change, before the later checks. */
  method MoveStatus(db: Session, current: Booking, upd: BookingUpdate, user: User) returns (r: Result<Booking>)
    requires !Terminal(current.status) && current.customer != current.provider
    requires current.customer in db.tx.users && current.provider in db.tx.users && current.id in db.tx.bookings
    modifies db`budget, db`tx, db`pending
    ensures var target := current.(status := if upd.status.Some? then upd.status.value else current.status);
            var refusal := TransitionError(current.status, target.status, user.role);
            var notes := Spec.UpdateNotes(current, upd, user.id);
            if refusal.Some? then r == Failure(refusal.value)
            else if old(db.budget) < |notes| then r == Failure(Unavailable)
            else
              && r == Success(target)
              && db.budget == old(db.budget) - |notes|
              && db.tx == old(db.tx).(notifications := Deliver(old(db.tx).notifications, notes, db.now))
              && db.pending == if target == current then old(db.pending) else Some(Change.UpdateBooking(target))
  {
    var booking := current;
    if upd.status.Some? && upd.status.value != booking.status {
      var refusal := TransitionError(booking.status, upd.status.value, user.role);
      if refusal.Some? {
        return Failure(refusal.value);
      }
      booking := booking.(status := upd.status.value);
      db.Touch(Change.UpdateBooking(booking));
      if booking.status == Confirmed {
        var _ :- db.InsertNotification(Key(booking.customer, booking.id, BookingConfirmed));
      } else if booking.status == Completed {
        var _ :- db.InsertNotification(Key(booking.customer, booking.id, BookingCompleted));
      } else if booking.status == Cancelled {
        var _ :- NotifyCancellation(db, booking, user);
      }
    } else {
      assert Deliver(db.tx.notifications, {}, db.now) == db.tx.notifications;
    }
    return Success(booking);
  }

  /** Step 2 of an update: the new times, which may still be refused. */
  method MoveTimes(db: Session, current: Booking, upd: BookingUpdate) returns (r: Result<Booking>)
    modifies db`budget, db`pending
    ensures var target := current.(start := if upd.start.Some? then upd.start.value else current.start,
                                   end := if upd.end.Some? then upd.end.value else current.end);
            if !Spec.Reschedules(upd) then
              r == Success(target) && db.budget == old(db.budget) && db.pending == old(db.pending)
            else if target.end <= target.start then r == Failure(BadRequest)
            else if old(db.budget) == 0 then r == Failure(Unavailable)
            else if !Available(db.tx.bookings, current.provider, target.start, target.end, Some(current.id)) then
              r == Failure(Conflict)
            else
              && r == Success(target)
              && db.budget == old(db.budget) - 1
              && db.pending == Some(Change.UpdateBooking(target))
  {
    var booking := current;
    if upd.start.Some? || upd.end.Some? {
      var newStart := if upd.start.Some? then upd.start.value else booking.start;
      var newEnd := if upd.end.Some? then upd.end.value else booking.end;
      if newEnd <= newStart {
        return Failure(BadRequest);
      }
      var _ :- CheckProviderConflict(db, booking.provider, newStart, newEnd, Some(booking.id));
      booking := booking.(start := newStart, end := newEnd);
      db.Touch(Change.UpdateBooking(booking));
    }
    return Success(booking);
  }

  /** The three steps of an update of a live booking, and its commit. */
  method Amend(db: Session, current: Booking, upd: BookingUpdate, user: User) returns (r: Result<Booking>)
    requires db.Opened() && BookingTables(db.tx)
    requires current.id in db.tx.bookings && db.tx.bookings[current.id] == current
    requires !Terminal(current.status) && Visible(current, user)
    modifies db, db.base
    ensures Serves(old(db.tx), Spec.Update(old(db.tx), current.id, upd, user, db.now),
                   UpdateCost(old(db.tx), current.id, upd, user) - 1, true, Link(old(db.budget), db.applied),
                   db.base.store, r)
  {
    ghost var s := db.tx;
    var booking :- MoveStatus(db, current, upd, user);
    ghost var noted := db.tx;
    booking :- MoveTimes(db, booking, upd);
    assert Spec.UpdateRefusal(s, current.id, upd, user).None?;
    if upd.service.Some? {
      booking := booking.(service := upd.service.value);
      db.Touch(Change.UpdateBooking(booking));
    }
    assert booking == Spec.Updated(current, upd);
    assert s.bookings[current.id := current] == s.bookings;
    assert Flushed(noted, db.pending) == Some(noted.(bookings := noted.bookings[current.id := booking]));
    var _ :- db.CommitAndRefresh();
    return Success(booking);
  }

  method UpdateBooking(db: Session, id: Id, upd: BookingUpdate, user: User) returns (r: Result<Booking>)
    requires db.Opened() && BookingTables(db.tx)
    modifies db, db.base
    ensures Serves(old(db.tx), Spec.Update(old(db.tx), id, upd, user, db.now), UpdateCost(old(db.tx), id, upd, user),
                   true, Link(old(db.budget), db.applied), db.base.store, r)
  {
    ghost var s := db.tx;
    var found :- db.GetBooking(id);
    if found.None? {
      return Failure(NotFound);
    }
    var booking := found.value;
    ghost var b := booking;

    var isAdmin := user.role == Admin;
    var isOwnerCustomer := user.role == Customer && booking.customer == user.id;
    var isAssignedProvider := user.role == Provider && booking.provider == user.id;
    if !(isAdmin || isOwnerCustomer || isAssignedProvider) {
      return Failure(Forbidden);
    }

    if booking.status == Cancelled || booking.status == Completed {
      if upd.status.Some? {
        var refusal := TransitionError(booking.status, upd.status.value, user.role);
        if refusal.Some? {
          return Failure(refusal.value);
        }
      }
      return Failure(BadRequest);
    }

    r := Amend(db, booking, upd, user);
  }

  method GetBookingById(db: Session, id: Id, user: User) returns (r: Result<Booking>)
    modifies db`budget
    ensures old(db.budget) == 0 ==> r == Failure(Unavailable)
    ensures old(db.budget) > 0 ==> db.budget == old(db.budget) - 1 && r == Spec.GetById(db.tx, id, user)
  {
    var found :- db.GetBooking(id);
    if found.None? {
      return Failure(NotFound);
    }
    var booking := found.value;
    if user.role == Admin {
      return Success(booking);
    }
    if user.role == Customer && booking.customer == user.id {
      return Success(booking);
    }
    if user.role == Provider && booking.provider == user.id {
      return Success(booking);
    }
    return Failure(Forbidden);
  }

  /** Round trips of a cancellation up to its commit: the load, one per recipient, the commit. */
  function CancelCost(s: Store, id: Id, user: User): nat {
    if id !in s.bookings then 1 else 2 + |StatusNotes(s.bookings[id].(status := Cancelled), user.id)|
  }

  method CancelBooking(db: Session, id: Id, user: User) returns (r: Result<Booking>)
    requires db.Opened() && BookingTables(db.tx)
    modifies db, db.base
    ensures Serves(old(db.tx), Spec.Cancel(old(db.tx), id, user, db.now), CancelCost(old(db.tx), id, user), true,
                   Link(old(db.budget), db.applied), db.base.store, r)
  {
    var booking :- GetBookingById(db, id, user);
    var refusal := TransitionError(booking.status, Cancelled, user.role);
    if refusal.Some? {
      return Failure(refusal.value);
    }
    booking := booking.(status := Cancelled);
    db.Touch(Change.UpdateBooking(booking));
    var _ :- NotifyCancellation(db, booking, user);
    var _ :- db.CommitAndRefresh();
    return Success(booking);
  }

  method DeleteBooking(db: Session, id: Id, user: User) returns (r: Result<()>)
    requires db.Opened() && BookingTables(db.tx)
    modifies db, db.base
    ensures Serves(old(db.tx), Spec.Delete(old(db.tx), id, user, db.now), CancelCost(old(db.tx), id, user), false,
                   Link(old(db.budget), db.applied), db.base.store, r)
  {
    var found :- db.GetBooking(id);
    if found.None? {
      return Failure(NotFound);
    }
    var booking := found.value;
    if user.role == Provider {
      return Failure(Forbidden);
    }
    if user.role == Customer && booking.customer != user.id {
      return Failure(Forbidden);
    }
    if booking.status == Completed {
      return Failure(BadRequest);
    }
    if booking.status == Confirmed {
      return Failure(BadRequest);
    }
    if booking.status == Cancelled {
      return Failure(BadRequest);
    }
    booking := booking.(status := Cancelled);
    db.Touch(Change.UpdateBooking(booking));
    var _ :- NotifyCancellation(db, booking, user);
    var committed := db.Commit();
    if committed.Failure? {
      db.Rollback();
      return Failure(committed.error);
    }
    return Success(());
  }
}
