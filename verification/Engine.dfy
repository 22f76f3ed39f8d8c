/** The booking platform as a state machine: serial requests and job runs over one store. */
module Engine {
  import opened Domain
  import opened Rules
  import B = BookingSpec
  import N = NotificationSpec
  import R = ReviewSpec

  datatype Request =
    | CreateBooking(actor: Id, newId: Id, input: B.BookingCreate)
    | UpdateBooking(actor: Id, id: Id, upd: B.BookingUpdate)
    | CancelBooking(actor: Id, id: Id)
    | DeleteBooking(actor: Id, id: Id)
    | CreateReview(actor: Id, newId: Id, booking: Id, rating: int, comment: Option<string>)
    | UpdateReview(actor: Id, id: Id, newRating: Option<int>, comment: Option<string>)
    | DeleteReview(actor: Id, id: Id)
    | MarkRead(actor: Id, key: Key)
    | MarkAllRead(actor: Id)
    | ReminderJob(window: int)
    | OverdueJob
  {
    predicate IsJob() {
      ReminderJob? || OverdueJob?
    }

    predicate WritesBooking() {
      CreateBooking? || UpdateBooking? || CancelBooking? || DeleteBooking?
    }

    function BookingId(): Id
      requires WritesBooking()
    {
      match this
      case CreateBooking(_, newId, _) => newId
      case UpdateBooking(_, id, _) => id
      case CancelBooking(_, id) => id
      case DeleteBooking(_, id) => id
    }
  }

  datatype Event = Event(now: Instant, req: Request)

  /** The committed store after a request of an authenticated user. */
  function Answer(s: Store, now: Instant, req: Request, user: User): Store
    requires !req.IsJob()
  {
    match req
    case CreateBooking(_, newId, input) => B.Create(s, newId, user.id, input, now).store
    case UpdateBooking(_, id, upd) => B.Update(s, id, upd, user, now).store
    case CancelBooking(_, id) => B.Cancel(s, id, user, now).store
    case DeleteBooking(_, id) => B.Delete(s, id, user, now).store
    case CreateReview(_, newId, booking, rating, comment) => R.Create(s, newId, user, booking, rating, comment).store
    case UpdateReview(_, id, rating, comment) => R.Update(s, id, rating, comment, user).store
    case DeleteReview(_, id) => R.Delete(s, id, user).store
    case MarkRead(_, key) => N.MarkRead(s, key, user.id, now).store
    case MarkAllRead(_) => N.MarkAll(s, user.id, now).store
  }

  /** The committed store after an event. A request in the name of a user that does not exist is
      refused before it reaches a service. */
  function Apply(s: Store, e: Event): Store {
    match e.req
    case ReminderJob(window) => N.Remind(s, e.now, window).store
    case OverdueJob => N.Chase(s, e.now).store
    case _ => if e.req.actor !in s.users then s else Answer(s, e.now, e.req, s.users[e.req.actor])
  }

  // ---------- What a step does to the bookings ----------

  /** `b` is a new pending booking of the caller, in a slot where its provider is free. */
  ghost predicate Opens(s: Store, caller: Id, b: Booking) {
    && b.id !in s.bookings
    && BookingRow(s.users, b)
    && b.customer == caller
    && b.status == Pending
    && Available(s.bookings, b.provider, b.start, b.end, None)
  }

  /** `b` is the live booking `a` after a step the caller's role permits, at its old times or in a
      slot where its provider is free. */
  ghost predicate Revises(s: Store, caller: User, a: Booking, b: Booking) {
    && !Terminal(a.status)
    && b.id == a.id && b.customer == a.customer && b.provider == a.provider
    && (b.status == a.status || MayMove(a.status, b.status, caller.role))
    && b.end > b.start
    && ((b.start == a.start && b.end == a.end) || Available(s.bookings, b.provider, b.start, b.end, Some(b.id)))
  }

  ghost predicate BookingMove(s: Store, e: Event, s': Store) {
    && s'.users == s.users
    && (s'.bookings == s.bookings ||
        (&& e.req.WritesBooking()
         && e.req.actor in s.users
         && var id := e.req.BookingId();
            && id in s'.bookings
            && s'.bookings == s.bookings[id := s'.bookings[id]]
            && if id in s.bookings then Revises(s, s.users[e.req.actor], s.bookings[id], s'.bookings[id])
               else Opens(s, e.req.actor, s'.bookings[id])))
  }

  lemma CreateMove(s: Store, e: Event)
    requires BookingTables(s) && e.req.CreateBooking?
    ensures BookingMove(s, e, Apply(s, e))
  {
  }

  lemma UpdateMove(s: Store, e: Event)
    requires BookingTables(s) && e.req.UpdateBooking?
    ensures BookingMove(s, e, Apply(s, e))
  {
    if e.req.actor in s.users && e.req.id in s.bookings {
      var a, user := s.bookings[e.req.id], s.users[e.req.actor];
      var b := B.Updated(a, e.req.upd);
      if B.UpdateRefusal(s, e.req.id, e.req.upd, user).None? {
        TransitionCheckIsExact(a.status, b.status, user.role);
        assert Revises(s, user, a, b);
      }
    }
  }

  lemma WithdrawMove(s: Store, e: Event)
    requires BookingTables(s) && (e.req.CancelBooking? || e.req.DeleteBooking?)
    ensures BookingMove(s, e, Apply(s, e))
  {
    if e.req.actor in s.users && e.req.id in s.bookings {
      var a, user := s.bookings[e.req.id], s.users[e.req.actor];
      TransitionCheckIsExact(a.status, Cancelled, user.role);
      if !Terminal(a.status) {
        assert Revises(s, user, a, a.(status := Cancelled));
      }
    }
  }

  lemma OtherMove(s: Store, e: Event)
    requires !e.req.WritesBooking()
    ensures Apply(s, e).bookings == s.bookings && Apply(s, e).users == s.users
  {
    if e.req.IsJob() {
      assert Apply(s, e) == s.(notifications := Apply(s, e).notifications);
    } else if e.req.MarkRead? || e.req.MarkAllRead? {
      assert Apply(s, e) == s.(notifications := Apply(s, e).notifications);
    } else {
      assert Apply(s, e) == s.(reviews := Apply(s, e).reviews);
    }
  }

  /** Every step leaves the bookings alone, opens one, or revises one live booking lawfully. */
  lemma BookingStep(s: Store, e: Event)
    requires BookingTables(s)
    ensures BookingMove(s, e, Apply(s, e))
  {
    if e.req.CreateBooking? {
      CreateMove(s, e);
    } else if e.req.UpdateBooking? {
      UpdateMove(s, e);
    } else if e.req.WritesBooking() {
      WithdrawMove(s, e);
    } else {
      OtherMove(s, e);
    }
  }

  // ---------- What a step does to the ledger ----------

  ghost predicate Participant(b: Booking, u: Id) {
    u == b.customer || u == b.provider
  }

  /** The notifications an event earns, read off the stores before and after it: the creation, a
      status change and its audience, or a job that found the booking due. */
  ghost predicate Earns(s: Store, e: Event, s': Store, k: Key) {
    && k.booking in s'.bookings
    && var b := s'.bookings[k.booking];
       var isNew := k.booking !in s.bookings;
       var moved := !isNew && s.bookings[k.booking].status != b.status;
       match k.kind
       case BookingCreated => isNew && k.user == b.provider
       case BookingConfirmed => moved && b.status == Confirmed && k.user == b.customer
       case BookingCompleted => moved && b.status == Completed && k.user == b.customer
       case BookingCancelled =>
         moved && b.status == Cancelled && Participant(b, k.user) && !e.req.IsJob() && k.user != e.req.actor
       case BookingReminder =>
         && e.req.ReminderJob? && Participant(b, k.user)
         && b.status == Confirmed && e.now < b.start <= e.now + e.req.window
       case BookingOverdue =>
         e.req.OverdueJob? && Participant(b, k.user) && b.status == Confirmed && b.end < e.now
  }

  ghost predicate Grows(s: Store, e: Event, s': Store) {
    forall k :: k in s'.notifications <==> k in s.notifications || Earns(s, e, s', k)
  }

  lemma CreateEarns(s: Store, e: Event)
    requires BookingTables(s) && e.req.CreateBooking?
    ensures Grows(s, e, Apply(s, e))
  {
  }

  /** One booking was revised and its audience told: the ledger grew by exactly what that earns. */
  lemma RevisionGrows(s: Store, e: Event, s': Store, id: Id, notes: set<Key>)
    requires !e.req.IsJob() && id in s.bookings && id in s'.bookings
    requires s'.bookings == s.bookings[id := s'.bookings[id]] && s'.notifications.Keys == s.notifications.Keys + notes
    requires var a, b := s.bookings[id], s'.bookings[id];
             && b.id == id
             && (b.status != a.status ==> b.status != Pending)
             && notes == if b.status != a.status then StatusNotes(b, e.req.actor) else {}
    ensures Grows(s, e, s')
  {
    forall k: Key
      ensures k in notes <==> Earns(s, e, s', k)
    {
    }
  }

  lemma UpdateEarns(s: Store, e: Event)
    requires BookingTables(s) && e.req.UpdateBooking?
    ensures Grows(s, e, Apply(s, e))
  {
    if e.req.actor in s.users && B.UpdateRefusal(s, e.req.id, e.req.upd, s.users[e.req.actor]).None? {
      var id, a := e.req.id, s.bookings[e.req.id];
      var notes := B.UpdateNotes(a, e.req.upd, e.req.actor);
      TransitionCheckIsExact(a.status, B.Updated(a, e.req.upd).status, s.users[e.req.actor].role);
      DeliverDomain(s.notifications, notes, e.now);
      RevisionGrows(s, e, Apply(s, e), id, notes);
    } else {
      assert Apply(s, e) == s;
    }
  }

  lemma WithdrawnGrows(s: Store, e: Event, user: User)
    requires BookingTables(s) && (e.req.CancelBooking? || e.req.DeleteBooking?) && user.id == e.req.actor
    requires e.req.id in s.bookings && !Terminal(s.bookings[e.req.id].status)
    ensures Grows(s, e, B.Withdrawn(s, e.req.id, user, e.now))
  {
    var b := s.bookings[e.req.id].(status := Cancelled);
    DeliverDomain(s.notifications, StatusNotes(b, user.id), e.now);
    RevisionGrows(s, e, B.Withdrawn(s, e.req.id, user, e.now), e.req.id, StatusNotes(b, user.id));
  }

  lemma WithdrawEarns(s: Store, e: Event)
    requires BookingTables(s) && (e.req.CancelBooking? || e.req.DeleteBooking?)
    ensures Grows(s, e, Apply(s, e))
  {
    if Apply(s, e) != s {
      var user := s.users[e.req.actor];
      TransitionCheckIsExact(s.bookings[e.req.id].status, Cancelled, user.role);
      WithdrawnGrows(s, e, user);
      assert Apply(s, e) == B.Withdrawn(s, e.req.id, user, e.now);
    }
  }

  lemma RemindEarns(s: Store, e: Event)
    requires e.req.ReminderJob?
    ensures Grows(s, e, Apply(s, e))
  {
    AnnounceGrows(s, e, N.UpcomingIds(s, e.now, e.req.window), BookingReminder);
  }

  lemma ChaseEarns(s: Store, e: Event)
    requires e.req.OverdueJob?
    ensures Grows(s, e, Apply(s, e))
  {
    AnnounceGrows(s, e, N.OverdueIds(s, e.now), BookingOverdue);
  }

  lemma AnnounceGrows(s: Store, e: Event, ids: set<Id>, kind: NotificationType)
    requires ids <= s.bookings.Keys
    requires || (e.req.ReminderJob? && kind == BookingReminder && ids == N.UpcomingIds(s, e.now, e.req.window))
             || (e.req.OverdueJob? && kind == BookingOverdue && ids == N.OverdueIds(s, e.now))
    ensures Grows(s, e, N.Announce(s, ids, kind, e.now).store)
  {
    N.AnnounceLedger(s, ids, kind, e.now);
    JobGrows(s, e, N.Announce(s, ids, kind, e.now).store, ids, kind);
  }

  lemma JobGrows(s: Store, e: Event, s': Store, ids: set<Id>, kind: NotificationType)
    requires s'.bookings == s.bookings && ids <= s.bookings.Keys
    requires forall k :: k in s'.notifications <==>
                           || k in s.notifications
                           || (&& k.booking in ids && k.kind == kind
                               && k.user in {s.bookings[k.booking].customer, s.bookings[k.booking].provider})
    requires || (e.req.ReminderJob? && kind == BookingReminder && ids == N.UpcomingIds(s, e.now, e.req.window))
             || (e.req.OverdueJob? && kind == BookingOverdue && ids == N.OverdueIds(s, e.now))
    ensures Grows(s, e, s')
  {
  }

  lemma OtherEarns(s: Store, e: Event)
    requires !e.req.WritesBooking() && !e.req.IsJob()
    ensures Grows(s, e, Apply(s, e))
  {
    assert Apply(s, e).notifications.Keys == s.notifications.Keys;
    OtherMove(s, e);
  }

  /** The ledger grows by exactly the notifications the event earns; nothing ever leaves it. */
  lemma LedgerStep(s: Store, e: Event)
    requires BookingTables(s)
    ensures Grows(s, e, Apply(s, e))
  {
    if e.req.CreateBooking? {
      CreateEarns(s, e);
    } else if e.req.UpdateBooking? {
      UpdateEarns(s, e);
    } else if e.req.WritesBooking() {
      WithdrawEarns(s, e);
    } else if e.req.ReminderJob? {
      RemindEarns(s, e);
    } else if e.req.OverdueJob? {
      ChaseEarns(s, e);
    } else {
      OtherEarns(s, e);
    }
  }
}
