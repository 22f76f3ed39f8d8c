/** A database session: a transaction's own view of the tables, one unflushed object, and a
    connection that may be lost at any round trip. */
module Sessions {
  import opened Domain

  class Database {
    var store: Store

    constructor (store: Store)
      ensures this.store == store
    {
      this.store := store;
    }
  }

  /** An object whose attributes changed in the session and whose statement has not been issued. */
  datatype Change =
    | InsertBooking(booking: Booking)
    | UpdateBooking(booking: Booking)
    | UpdateReceipt(key: Key, receipt: Receipt)
    | InsertReview(review: Review)
    | UpdateReview(review: Review)
    | DeleteReview(id: Id)

  /** The tables after the statement for `c`; None when it violates a constraint. */
  function Issue(s: Store, c: Change): Option<Store> {
    match c
    case InsertBooking(b) =>
      if b.id in s.bookings || !BookingRow(s.users, b) then None
      else Some(s.(bookings := s.bookings[b.id := b]))
    case UpdateBooking(b) =>
      if !BookingRow(s.users, b) then None else Some(s.(bookings := s.bookings[b.id := b]))
    case UpdateReceipt(k, v) =>
      Some(s.(notifications := s.notifications[k := v]))
    case InsertReview(r) =>
      if r.id in s.reviews || !ReviewRow(s, r) || exists i | i in s.reviews :: s.reviews[i].booking == r.booking then
          None
      else Some(s.(reviews := s.reviews[r.id := r]))
    case UpdateReview(r) =>
      if !ReviewRow(s, r) then None else Some(s.(reviews := s.reviews[r.id := r]))
    case DeleteReview(id) =>
      Some(s.(reviews := s.reviews - {id}))
  }

  function Flushed(s: Store, pending: Option<Change>): Option<Store> {
    if pending.None? then Some(s) else Issue(s, pending.value)
  }

  class Session {
    const base: Database
    const now: Instant  // the time of the transaction
    var tx: Store  // what this transaction's statements see
    var pending: Option<Change>  // autoflush is off: queries do not see it
    var budget: nat  // round trips that are answered before the connection is lost
    const applied: bool  // whether the first one that is not still reaches the server

    constructor (base: Database, now: Instant, link: Link)
      ensures this.base == base && this.now == now && Link(budget, applied) == link
      ensures Opened()
    {
      this.base, this.now, this.budget, this.applied := base, now, link.trips, link.applied;
      this.tx, this.pending := base.store, None;
    }

    ghost predicate Opened()
      reads this, base
    {
      tx == base.store && pending == None
    }

    method RoundTrip() returns (r: Result<()>)
      modifies this`budget
      ensures old(budget) == 0 ==> r == Failure(Unavailable) && budget == 0
      ensures old(budget) > 0 ==> r == Success(()) && budget == old(budget) - 1
    {
      if budget == 0 {
        return Failure(Unavailable);
      }
      budget := budget - 1;
      return Success(());
    }

    method GetUser(id: Id) returns (r: Result<Option<User>>)
      modifies this`budget
      ensures old(budget) == 0 ==> r == Failure(Unavailable) && budget == 0
      ensures old(budget) > 0 ==>
            budget == old(budget) - 1 && r == Success(if id in tx.users then Some(tx.users[id]) else None)
    {
      var _ :- RoundTrip();
      return Success(if id in tx.users then Some(tx.users[id]) else None);
    }

    method GetBooking(id: Id) returns (r: Result<Option<Booking>>)
      modifies this`budget
      ensures old(budget) == 0 ==> r == Failure(Unavailable) && budget == 0
      ensures old(budget) > 0 ==>
            budget == old(budget) - 1 && r == Success(if id in tx.bookings then Some(tx.bookings[id]) else None)
    {
      var _ :- RoundTrip();
      return Success(if id in tx.bookings then Some(tx.bookings[id]) else None);
    }

    method GetReview(id: Id) returns (r: Result<Option<Review>>)
      modifies this`budget
      ensures old(budget) == 0 ==> r == Failure(Unavailable) && budget == 0
      ensures old(budget) > 0 ==>
            budget == old(budget) - 1 && r == Success(if id in tx.reviews then Some(tx.reviews[id]) else None)
    {
      var _ :- RoundTrip();
      return Success(if id in tx.reviews then Some(tx.reviews[id]) else None);
    }

    method GetReceipt(k: Key) returns (r: Result<Option<Receipt>>)
      modifies this`budget
      ensures old(budget) == 0 ==> r == Failure(Unavailable) && budget == 0
      ensures old(budget) > 0 ==>
            budget == old(budget) - 1 && r == Success(if k in tx.notifications then Some(tx.notifications[k]) else None)
    {
      var _ :- RoundTrip();
      return Success(if k in tx.notifications then Some(tx.notifications[k]) else None);
    }

    /** An object's attributes changed, or it was added or deleted: nothing is sent yet. */
    method Touch(c: Change)
      modifies this`pending
      ensures pending == Some(c)
    {
      pending := Some(c);
    }

    method Flush() returns (r: Result<()>)
      modifies this
      ensures old(budget) == 0 ==> r == Failure(Unavailable) && budget == 0
      ensures old(budget) > 0 ==> budget == old(budget) - 1
      ensures old(budget) > 0 && Flushed(old(tx), old(pending)).None? ==> r == Failure(IntegrityError)
      ensures old(budget) > 0 && Flushed(old(tx), old(pending)).Some? ==>
                r == Success(()) && tx == Flushed(old(tx), old(pending)).value && pending == None
    {
      var _ :- RoundTrip();
      var after := Flushed(tx, pending);
      if after.None? {
        return Failure(IntegrityError);
      }
      tx, pending := after.value, None;
      return Success(());
    }

    /** INSERT ... ON CONFLICT DO NOTHING RETURNING: true when a row was inserted. */
    method InsertNotification(k: Key) returns (r: Result<bool>)
      modifies this`budget, this`tx
      ensures old(budget) == 0 ==> r == Failure(Unavailable) && budget == 0 && tx == old(tx)
      ensures old(budget) > 0 ==> budget == old(budget) - 1
      ensures old(budget) > 0 && NotificationRow(old(tx), k) ==>
                && r == Success(k !in old(tx).notifications)
                && tx == old(tx).(notifications := Deliver(old(tx).notifications, {k}, now))
      ensures old(budget) > 0 && !NotificationRow(old(tx), k) ==> r == Failure(IntegrityError) && tx == old(tx)
    {
      var _ :- RoundTrip();
      if !NotificationRow(tx, k) {
        return Failure(IntegrityError);
      }
      if k in tx.notifications {
        assert Deliver(tx.notifications, {k}, now) == tx.notifications;
        return Success(false);
      }
      tx := tx.(notifications := tx.notifications[k := Unread(now)]);
      assert tx.notifications == Deliver(old(tx).notifications, {k}, now);
      return Success(true);
    }

    /** Flush and commit: the tables change as a whole or not at all. When the reply is lost, they may
        have changed although an error is reported. */
    method Commit() returns (r: Result<()>)
      modifies this, base
      ensures old(budget) == 0 ==> r == Failure(Unavailable) && budget == 0
      ensures old(budget) > 0 ==> budget == old(budget) - 1
      ensures old(budget) > 0 && Flushed(old(tx), old(pending)).None? ==> r == Failure(IntegrityError)
      ensures old(budget) > 0 && Flushed(old(tx), old(pending)).Some? ==>
                r == Success(()) && base.store == Flushed(old(tx), old(pending)).value && Opened()
      ensures r.Failure? ==>
                base.store == if old(budget) == 0 && applied && Flushed(old(tx), old(pending)).Some?
                              then Flushed(old(tx), old(pending)).value else old(base.store)
    {
      if budget == 0 && applied && Flushed(tx, pending).Some? {
        base.store := Flushed(tx, pending).value;
      }
      var _ :- Flush();
      base.store := tx;
      return Success(());
    }

    /** Discards everything since the last commit; `close` does the same. */
    method Rollback()
      modifies this`tx, this`pending
      ensures Opened()
    {
      tx, pending := base.store, None;
    }

    /** The block every write request ends with: commit, reload the row, and roll back and re-raise
        on any error from either. */
    method CommitAndRefresh() returns (r: Result<()>)
      modifies this, base
      ensures old(budget) == 0 ==> r == Failure(Unavailable)
      ensures old(budget) > 0 && Flushed(old(tx), old(pending)).None? ==> r == Failure(IntegrityError)
      ensures (old(budget) == 0 && !applied) || Flushed(old(tx), old(pending)).None? ==> base.store == old(base.store)
      ensures old(budget) == 0 && applied && Flushed(old(tx), old(pending)).Some? ==>
                base.store == Flushed(old(tx), old(pending)).value
      ensures old(budget) > 0 && Flushed(old(tx), old(pending)).Some? ==>
                && base.store == Flushed(old(tx), old(pending)).value
                && r == if old(budget) == 1 then Failure(Unavailable) else Success(())
    {
      r := Commit();
      if r.Success? {
        r := RoundTrip();
      }
      if r.Failure? {
        Rollback();
      }
    }
  }
}
