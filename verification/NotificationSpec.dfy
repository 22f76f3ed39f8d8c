/** What reading notifications and the two background jobs do to the committed store. */
module NotificationSpec {
  import opened Domain

  function Opened(v: Receipt, now: Instant): Receipt {
    if v.isRead then v else v.(isRead := true, readAt := Some(now))
  }

  function MarkRead(s: Store, k: Key, user: Id, now: Instant): Outcome<Receipt> {
    if k !in s.notifications then Outcome(s, Failure(NotFound))
    else if k.user != user then Outcome(s, Failure(Forbidden))
    else
      var v := Opened(s.notifications[k], now);
      Outcome(s.(notifications := s.notifications[k := v]), Success(v))
  }

  function UnreadOf(s: Store, user: Id): set<Key> {
    set k | k in s.notifications && k.user == user && !s.notifications[k].isRead
  }

  function MarkAll(s: Store, user: Id, now: Instant): Outcome<nat> {
    Outcome(s.(notifications := map k | k in s.notifications ::
                 if k.user == user then Opened(s.notifications[k], now) else s.notifications[k]),
            Success(|UnreadOf(s, user)|))
  }

  // ---------- The background jobs ----------

  predicate Upcoming(b: Booking, now: Instant, window: int) {
    b.status == Confirmed && now < b.start <= now + window
  }

  predicate Overdue(b: Booking, now: Instant) {
    b.status == Confirmed && b.end < now
  }

  /** One key for each participant of each selected booking. */
  function ParticipantKeys(bookings: map<Id, Booking>, ids: set<Id>, kind: NotificationType): set<Key>
    requires ids <= bookings.Keys
  {
    (set i | i in ids :: Key(bookings[i].customer, i, kind)) + (set i | i in ids :: Key(bookings[i].provider, i, kind))
  }

  lemma ParticipantKeysMembers(bookings: map<Id, Booking>, ids: set<Id>, kind: NotificationType)
    requires ids <= bookings.Keys
    ensures forall k :: k in ParticipantKeys(bookings, ids, kind) <==>
            k.booking in ids && k.kind == kind && k.user in {bookings[k.booking].customer, bookings[k.booking].provider}
  {
  }

  /** Tells both participants of the selected bookings, and counts the notifications that are new. */
  function Announce(s: Store, ids: set<Id>, kind: NotificationType, now: Instant): Outcome<nat>
    requires ids <= s.bookings.Keys
  {
    var keys := ParticipantKeys(s.bookings, ids, kind);
    Outcome(s.(notifications := Deliver(s.notifications, keys, now)), Success(|keys - s.notifications.Keys|))
  }

  lemma AnnounceLedger(s: Store, ids: set<Id>, kind: NotificationType, now: Instant)
    requires ids <= s.bookings.Keys
    ensures var s' := Announce(s, ids, kind, now).store;
            && s'.users == s.users && s'.bookings == s.bookings && s'.reviews == s.reviews
            && (forall k :: k in s'.notifications <==>
                  || k in s.notifications
                  || (&& k.booking in ids && k.kind == kind
                      && k.user in {s.bookings[k.booking].customer, s.bookings[k.booking].provider}))
            && (forall k :: k in s'.notifications ==>
                  s'.notifications[k] == if k in s.notifications then s.notifications[k] else Unread(now))
  {
    ParticipantKeysMembers(s.bookings, ids, kind);
  }

  function UpcomingIds(s: Store, now: Instant, window: int): set<Id> {
    set i | i in s.bookings && Upcoming(s.bookings[i], now, window)
  }

  function OverdueIds(s: Store, now: Instant): set<Id> {
    set i | i in s.bookings && Overdue(s.bookings[i], now)
  }

  function Remind(s: Store, now: Instant, window: int): Outcome<nat> {
    Announce(s, UpcomingIds(s, now, window), BookingReminder, now)
  }

  function Chase(s: Store, now: Instant): Outcome<nat> {
    Announce(s, OverdueIds(s, now), BookingOverdue, now)
  }
}
