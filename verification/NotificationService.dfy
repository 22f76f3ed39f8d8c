/** The notification requests and the two background jobs as they run on a session. */
module NotificationService {
  import opened Domain
  import opened Listing
  import opened Requests
  import opened Sessions
  import Spec = NotificationSpec

  /** Round trips: the load; then, for an unread notification only, the commit and the reload. */
  method MarkNotificationAsRead(db: Session, k: Key, user: Id) returns (r: Result<Receipt>)
    requires db.Opened()
    modifies db, db.base
    ensures var s := old(db.tx);
            var unread := k in s.notifications && k.user == user && !s.notifications[k].isRead;
            Serves(s, Spec.MarkRead(s, k, user, db.now), if unread then 2 else 1, unread,
                   Link(old(db.budget), db.applied), db.base.store, r)
  {
    var found :- db.GetReceipt(k);
    if found.None? {
      return Failure(NotFound);
    }
    if k.user != user {
      return Failure(Forbidden);
    }
    var notification := found.value;
    if !notification.isRead {
      notification := notification.(isRead := true, readAt := Some(db.now));
      db.Touch(UpdateReceipt(k, notification));
      var _ :- db.CommitAndRefresh();
    } else {
      assert db.tx.notifications[k := notification] == db.tx.notifications;
    }
    return Success(notification);
  }

  method MarkAllAsRead(db: Session, user: Id) returns (r: Result<nat>)
    requires db.Opened()
    modifies db, db.base
    ensures Serves(old(db.tx), Spec.MarkAll(old(db.tx), user, db.now), 2, false, Link(old(db.budget), db.applied),
                   db.base.store, r)
  {
    var _ :- db.RoundTrip();
    var hit := set k | k in db.tx.notifications && k.user == user && !db.tx.notifications[k].isRead;
    db.tx := db.tx.(notifications := map k | k in db.tx.notifications ::
                      if k in hit then db.tx.notifications[k].(isRead := true, readAt := Some(db.now))
                      else db.tx.notifications[k]);
    assert db.tx == Spec.MarkAll(old(db.tx), user, db.now).store;
    var committed := db.Commit();
    if committed.Failure? {
      db.Rollback();
      return Failure(committed.error);
    }
    return Success(|hit|);
  }

  function RowsOf(bookings: map<Id, Booking>, order: seq<Id>): (r: seq<Booking>)
    requires forall n :: 0 <= n < |order| ==> order[n] in bookings
    ensures |r| == |order| && forall n :: 0 <= n < |order| ==> r[n] == bookings[order[n]]
  {
    if order == [] then [] else [bookings[order[0]]] + RowsOf(bookings, order[1..])
  }

  /** The keys of the first `n` rows. */
  ghost function KeysUpTo(rows: seq<Booking>, n: nat, kind: NotificationType): set<Key>
    requires n <= |rows|
  {
    if n == 0 then {}
    else KeysUpTo(rows, n - 1, kind) + {Key(rows[n - 1].customer, rows[n - 1].id, kind)}
                                     + {Key(rows[n - 1].provider, rows[n - 1].id, kind)}
  }

  lemma {:induction false} KeysUpToMembers(rows: seq<Booking>, n: nat, kind: NotificationType, k: Key)
    requires n <= |rows|
    ensures k in KeysUpTo(rows, n, kind) <==>
            exists m :: 0 <= m < n && k.kind == kind && k.booking == rows[m].id
                && k.user in {rows[m].customer, rows[m].provider}
  {
    if n > 0 {
      KeysUpToMembers(rows, n - 1, kind, k);
    }
  }

  /** `k` is a key of the booking with id `i`. */
  predicate KeyOf(bookings: map<Id, Booking>, i: Id, kind: NotificationType, k: Key)
    requires i in bookings
  {
    k.kind == kind && k.booking == i && k.user in {bookings[i].customer, bookings[i].provider}
  }

  lemma KeyOfRow(bookings: map<Id, Booking>, order: seq<Id>, kind: NotificationType, k: Key)
    requires forall n :: 0 <= n < |order| ==> order[n] in bookings && bookings[order[n]].id == order[n]
    ensures k in KeysUpTo(RowsOf(bookings, order), |order|, kind) <==>
            exists n :: 0 <= n < |order| && KeyOf(bookings, order[n], kind, k)
  {
    var rows := RowsOf(bookings, order);
    KeysUpToMembers(rows, |order|, kind, k);
    forall n | 0 <= n < |order|
      ensures KeyOf(bookings, order[n], kind, k) <==>
              k.kind == kind && k.booking == rows[n].id && k.user in {rows[n].customer, rows[n].provider}
    {
    }
  }

  /** The rows of a query cover the keys of the bookings it selected, whatever their order. */
  lemma KeysOfRows(bookings: map<Id, Booking>, ids: set<Id>, order: seq<Id>, kind: NotificationType)
    requires Lists(order, ids) && ids <= bookings.Keys
    requires forall n :: 0 <= n < |order| ==> order[n] in bookings && bookings[order[n]].id == order[n]
    ensures Spec.ParticipantKeys(bookings, ids, kind) == KeysUpTo(RowsOf(bookings, order), |order|, kind)
  {
    var keys := KeysUpTo(RowsOf(bookings, order), |order|, kind);
    Spec.ParticipantKeysMembers(bookings, ids, kind);
    forall k: Key
      ensures k in Spec.ParticipantKeys(bookings, ids, kind) <==> k in keys
    {
      KeyOfRow(bookings, order, kind, k);
      if k.booking in ids && KeyOf(bookings, k.booking, kind, k) {
        var n :| 0 <= n < |order| && order[n] == k.booking;
        assert KeyOf(bookings, order[n], kind, k);
      }
    }
    SameMembers(Spec.ParticipantKeys(bookings, ids, kind), keys);
  }

  lemma SameDifference<T>(a: set<T>, b: set<T>, x: T)
    requires x in a || x in b
    ensures (a + {x}) - b == a - b
  {
  }

  lemma LargerDifference<T>(a: set<T>, b: set<T>, x: T)
    requires x !in a && x !in b
    ensures |(a + {x}) - b| == |a - b| + 1
  {
    assert (a + {x}) - b == (a - b) + {x};
  }

  /** One turn of the counter: the key just inserted was counted exactly when it is new. */
  lemma Tally(ledger: map<Key, Receipt>, done: set<Key>, k: Key, now: Instant)
    ensures Deliver(Deliver(ledger, done, now), {k}, now) == Deliver(ledger, done + {k}, now)
    ensures |(done + {k}) - ledger.Keys| == |done - ledger.Keys| + if k in Deliver(ledger, done, now) then 0 else 1
  {
    DeliverTwice(ledger, done, {k}, now);
    DeliverDomain(ledger, done, now);
    if k in ledger || k in done {
      SameDifference(done, ledger.Keys, k);
    } else {
      LargerDifference(done, ledger.Keys, k);
    }
  }

  /** One turn of the loop: the customer's notification, then the provider's, and how many are new.
      `told` are the keys the earlier turns covered. */
  method AnnounceOne(db: Session, b: Booking, kind: NotificationType, ghost ledger: map<Key, Receipt>,
                     ghost told: set<Key>)
    returns (r: Result<nat>)
    requires b.id in db.tx.bookings && b.customer in db.tx.users && b.provider in db.tx.users
    requires db.tx.notifications == Deliver(ledger, told, db.now)
    modifies db`budget, db`tx
    ensures var all := told + {Key(b.customer, b.id, kind)} + {Key(b.provider, b.id, kind)};
            if old(db.budget) < 2 then r == Failure(Unavailable)
            else
              && r.Success?
              && db.budget == old(db.budget) - 2
              && db.tx == old(db.tx).(notifications := Deliver(ledger, all, db.now))
              && |all - ledger.Keys| == |told - ledger.Keys| + r.value
  {
    var created := 0;
    Tally(ledger, told, Key(b.customer, b.id, kind), db.now);
    var first :- db.InsertNotification(Key(b.customer, b.id, kind));
    if first {
      created := created + 1;
    }
    Tally(ledger, told + {Key(b.customer, b.id, kind)}, Key(b.provider, b.id, kind), db.now);
    var second :- db.InsertNotification(Key(b.provider, b.id, kind));
    if second {
      created := created + 1;
    }
    return Success(created);
  }

  ghost predicate Booked(s: Store, rows: seq<Booking>) {
    forall n :: 0 <= n < |rows| ==>
          rows[n].id in s.bookings && rows[n].customer in s.users && rows[n].provider in s.users
  }

  /** The loop both jobs share, over the rows their query returned. */
  method AnnounceRows(db: Session, rows: seq<Booking>, kind: NotificationType) returns (r: Result<nat>)
    requires Booked(db.tx, rows)
    modifies db`budget, db`tx
    ensures var keys := KeysUpTo(rows, |rows|, kind);
            if old(db.budget) < 2 * |rows| then r == Failure(Unavailable)
            else
              && r == Success(|keys - old(db.tx).notifications.Keys|)
              && db.budget == old(db.budget) - 2 * |rows|
              && db.tx == old(db.tx).(notifications := Deliver(old(db.tx).notifications, keys, db.now))
  {
    ghost var s := db.tx;
    var created := 0;
    assert Deliver(s.notifications, {}, db.now) == s.notifications;
    for n := 0 to |rows|
      invariant db.budget + 2 * n == old(db.budget)
      invariant db.tx == s.(notifications := Deliver(s.notifications, KeysUpTo(rows, n, kind), db.now))
      invariant created == |KeysUpTo(rows, n, kind) - s.notifications.Keys|
    {
      var more :- AnnounceOne(db, rows[n], kind, s.notifications, KeysUpTo(rows, n, kind));
      created := created + more;
    }
    return Success(created);
  }

  lemma RowIsBooked(s: Store, i: Id)
    requires BookingTables(s) && i in s.bookings
    ensures s.bookings[i].id == i && BookingRow(s.users, s.bookings[i])
  {
  }

  lemma RowsAreBooked(s: Store, ids: set<Id>, order: seq<Id>)
    requires BookingTables(s) && Lists(order, ids) && ids <= s.bookings.Keys
    ensures forall n :: 0 <= n < |order| ==> order[n] in s.bookings && s.bookings[order[n]].id == order[n]
    ensures forall n :: 0 <= n < |order| ==>
                          s.bookings[order[n]].customer in s.users && s.bookings[order[n]].provider in s.users
  {
    forall n | 0 <= n < |order|
      ensures order[n] in s.bookings && s.bookings[order[n]].id == order[n] && BookingRow(s.users, s.bookings[order[n]])
    {
      assert order[n] in ids;
      RowIsBooked(s, order[n]);
    }
  }

  /** The rows of a query for the bookings with the given ids. */
  method SelectRows(s: Store, ids: set<Id>, ghost kind: NotificationType) returns (rows: seq<Booking>)
    requires BookingTables(s) && ids <= s.bookings.Keys
    ensures |rows| == |ids| && Booked(s, rows)
    ensures Spec.ParticipantKeys(s.bookings, ids, kind) == KeysUpTo(rows, |rows|, kind)
  {
    var order := List(ids);
    RowsAreBooked(s, ids, order);
    KeysOfRows(s.bookings, ids, order, kind);
    rows := RowsOf(s.bookings, order);
  }

  /** The query and the loop. */
  method AnnounceSelected(db: Session, ids: set<Id>, kind: NotificationType) returns (r: Result<nat>)
    requires BookingTables(db.tx) && ids <= db.tx.bookings.Keys
    modifies db`budget, db`tx
    ensures var keys := Spec.ParticipantKeys(old(db.tx).bookings, ids, kind);
            if old(db.budget) < 1 + 2 * |ids| then r == Failure(Unavailable)
            else
              && r == Success(|keys - old(db.tx).notifications.Keys|)
              && db.budget == old(db.budget) - 1 - 2 * |ids|
              && db.tx == old(db.tx).(notifications := Deliver(old(db.tx).notifications, keys, db.now))
  {
    var _ :- db.RoundTrip();
    var rows := SelectRows(db.tx, ids, kind);
    r := AnnounceRows(db, rows, kind);
  }

  /** A job: one query, the loop, one commit. */
  method Announce(db: Session, ids: set<Id>, kind: NotificationType) returns (r: Result<nat>)
    requires db.Opened() && BookingTables(db.tx)
    requires ids <= db.tx.bookings.Keys
    modifies db, db.base
    ensures Serves(old(db.tx), Spec.Announce(old(db.tx), ids, kind, db.now), 2 + 2 * |ids|, false,
                   Link(old(db.budget), db.applied), db.base.store, r)
  {
    ghost var o := Spec.Announce(db.tx, ids, kind, db.now);
    assert o.result.Success?;
    var created :- AnnounceSelected(db, ids, kind);
    assert db.tx == o.store && o.result == Success(created) && Flushed(db.tx, db.pending) == Some(o.store);
    var _ :- db.Commit();
    return Success(created);
  }

  method RunBookingReminderJob(db: Session, window: int) returns (r: Result<nat>)
    requires db.Opened() && BookingTables(db.tx)
    modifies db, db.base
    ensures Serves(old(db.tx), Spec.Remind(old(db.tx), db.now, window),
                   2 + 2 * |Spec.UpcomingIds(old(db.tx), db.now, window)|, false, Link(old(db.budget), db.applied),
                   db.base.store, r)
  {
    var due := set i | i in db.tx.bookings &&
                 db.tx.bookings[i].status == Confirmed &&
                 db.tx.bookings[i].start > db.now &&
                 db.tx.bookings[i].start <= db.now + window;
    assert forall i :: i in due <==> i in Spec.UpcomingIds(db.tx, db.now, window);
    assert due == Spec.UpcomingIds(db.tx, db.now, window);
    r := Announce(db, due, BookingReminder);
  }

  method RunOverdueBookingJob(db: Session) returns (r: Result<nat>)
    requires db.Opened() && BookingTables(db.tx)
    modifies db, db.base
    ensures Serves(old(db.tx), Spec.Chase(old(db.tx), db.now),
                   2 + 2 * |Spec.OverdueIds(old(db.tx), db.now)|, false, Link(old(db.budget), db.applied),
                   db.base.store, r)
  {
    var due := set i | i in db.tx.bookings &&
                 db.tx.bookings[i].status == Confirmed &&
                 db.tx.bookings[i].end < db.now;
    assert forall i :: i in due <==> i in Spec.OverdueIds(db.tx, db.now);
    assert due == Spec.OverdueIds(db.tx, db.now);
    r := Announce(db, due, BookingOverdue);
  }
}
