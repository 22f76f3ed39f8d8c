/** What every step of the engine keeps. */
module Invariants {
  import opened Domain
  import opened Rules
  import opened Engine
  import B = BookingSpec
  import N = NotificationSpec
  import R = ReviewSpec

  // ---------- The calendar ----------

  predicate Apart(a: Booking, b: Booking) {
    a.end <= b.start || b.end <= a.start
  }

  /** The active bookings of a provider are pairwise disjoint half-open intervals. */
  ghost predicate Calendar(s: Store) {
    forall i, j :: i in s.bookings && j in s.bookings && i != j
                   && s.bookings[i].provider == s.bookings[j].provider
                   && s.bookings[i].status != Cancelled && s.bookings[j].status != Cancelled ==>
                     Apart(s.bookings[i], s.bookings[j])
  }

  lemma CalendarKept(s: Store, e: Event)
    requires BookingTables(s) && Calendar(s)
    ensures Calendar(Apply(s, e))
  {
    BookingStep(s, e);
    var s' := Apply(s, e);
    if s'.bookings != s.bookings {
      var id := e.req.BookingId();
      var b := s'.bookings[id];
      forall j | j in s.bookings && j != id && s.bookings[j].provider == b.provider && Active(s.bookings[j])
            && Active(b)
        ensures Apart(b, s.bookings[j])
      {
        if id in s.bookings {
          assert Active(s.bookings[id]);
        }
      }
    }
  }

  // ---------- The tables ----------

  lemma BookingTablesKept(s: Store, e: Event)
    requires BookingTables(s)
    ensures BookingTables(Apply(s, e))
  {
    BookingStep(s, e);
  }

  lemma NotificationTableKept(s: Store, e: Event)
    requires BookingTables(s) && NotificationTable(s)
    ensures NotificationTable(Apply(s, e))
  {
    BookingStep(s, e);
    BookingTablesKept(s, e);
    LedgerStep(s, e);
    GrownTable(s, e, Apply(s, e));
  }

  lemma GrownTable(s: Store, e: Event, s': Store)
    requires NotificationTable(s) && BookingMove(s, e, s') && BookingTables(s') && Grows(s, e, s')
    ensures NotificationTable(s')
  {
    forall k | k in s'.notifications
      ensures NotificationRow(s', k)
    {
      if k !in s.notifications {
        assert Earns(s, e, s', k);
      }
    }
  }

  // ---------- Reviews ----------

  /** A review belongs to a completed booking and to that booking's two participants. */
  ghost predicate Earned(s: Store, r: Review) {
    && r.booking in s.bookings
    && s.bookings[r.booking].status == Completed
    && r.customer == s.bookings[r.booking].customer
    && r.provider == s.bookings[r.booking].provider
  }

  ghost predicate ReviewsEarned(s: Store) {
    forall i :: i in s.reviews ==> Earned(s, s.reviews[i])
  }

  /** The reviews after a step: untouched, one added, one edited by its author, or one removed. */
  ghost predicate ReviewMove(s: Store, s': Store) {
    || s'.reviews == s.reviews
    || (exists r :: Adds(s, s', r))
    || (exists r :: Edits(s, s', r))
    || (exists i :: i in s.reviews && s'.reviews == s.reviews - {i})
  }

  ghost predicate Adds(s: Store, s': Store, r: Review) {
    && s'.reviews == s.reviews[r.id := r]
    && r.id !in s.reviews && ReviewRow(s, r) && !R.Reviewed(s, r.booking) && Earned(s, r)
  }

  ghost predicate Edits(s: Store, s': Store, r: Review) {
    && r.id in s.reviews
    && s'.reviews == s.reviews[r.id := r]
    && ReviewRow(s, r)
    && r == s.reviews[r.id].(rating := r.rating, comment := r.comment)
  }

  lemma CreateReviewMove(s: Store, e: Event)
    requires BookingTables(s) && e.req.CreateReview?
    ensures ReviewMove(s, Apply(s, e))
  {
    if Apply(s, e).reviews != s.reviews {
      var user := s.users[e.req.actor];
      assert Adds(s, Apply(s, e), R.Draft(s, e.req.newId, user, e.req.booking, e.req.rating, e.req.comment));
    }
  }

  lemma UpdateReviewMove(s: Store, e: Event)
    requires ReviewTable(s) && e.req.UpdateReview?
    ensures ReviewMove(s, Apply(s, e))
  {
    if Apply(s, e).reviews != s.reviews {
      assert Edits(s, Apply(s, e), R.Edited(s.reviews[e.req.id], e.req.newRating, e.req.comment));
    }
  }

  lemma OtherReviewMove(s: Store, e: Event)
    requires !e.req.CreateReview? && !e.req.UpdateReview?
    ensures ReviewMove(s, Apply(s, e))
  {
    if e.req.DeleteReview? {
      if Apply(s, e).reviews != s.reviews {
        assert e.req.id in s.reviews && Apply(s, e).reviews == s.reviews - {e.req.id};
      }
    } else if e.req.WritesBooking() {
      assert Apply(s, e) == s.(bookings := Apply(s, e).bookings, notifications := Apply(s, e).notifications);
    } else {
      assert Apply(s, e) == s.(notifications := Apply(s, e).notifications);
    }
  }

  lemma ReviewStep(s: Store, e: Event)
    requires BookingTables(s) && ReviewTable(s)
    ensures ReviewMove(s, Apply(s, e))
  {
    if e.req.CreateReview? {
      CreateReviewMove(s, e);
    } else if e.req.UpdateReview? {
      UpdateReviewMove(s, e);
    } else {
      OtherReviewMove(s, e);
    }
  }

  /** A terminal booking never changes again, in any column. */
  lemma TerminalFrozen(s: Store, e: Event, i: Id)
    requires BookingTables(s) && i in s.bookings && Terminal(s.bookings[i].status)
    ensures i in Apply(s, e).bookings && Apply(s, e).bookings[i] == s.bookings[i]
  {
    BookingStep(s, e);
  }

  /** What any change of the reviews keeps, when the bookings they belong to stay as they are. */
  lemma ReviewMoveKeeps(s: Store, s': Store)
    requires ReviewTable(s) && ReviewsEarned(s) && ReviewMove(s, s')
    requires s'.users == s.users
    requires forall i :: i in s.bookings ==> i in s'.bookings
    requires forall i :: i in s.bookings && Terminal(s.bookings[i].status) ==> s'.bookings[i] == s.bookings[i]
    ensures ReviewTable(s') && ReviewsEarned(s')
  {
    forall i | i in s'.reviews
      ensures s'.reviews[i].id == i && ReviewRow(s', s'.reviews[i]) && Earned(s', s'.reviews[i])
    {
    }
  }

  lemma ReviewsKept(s: Store, e: Event)
    requires BookingTables(s) && ReviewTable(s) && ReviewsEarned(s)
    ensures ReviewTable(Apply(s, e)) && ReviewsEarned(Apply(s, e))
  {
    var s' := Apply(s, e);
    BookingStep(s, e);
    ReviewStep(s, e);
    forall i | i in s.bookings && Terminal(s.bookings[i].status)
      ensures s'.bookings[i] == s.bookings[i]
    {
      TerminalFrozen(s, e, i);
    }
    ReviewMoveKeeps(s, s');
  }

  // ---------- Read state ----------

  ghost predicate ReadState(s: Store) {
    forall k :: k in s.notifications ==> (s.notifications[k].isRead <==> s.notifications[k].readAt.Some?)
  }

  /** A step creates a row unread, or leaves it, or opens it once for its owner. */
  ghost predicate ReceiptMove(s: Store, e: Event, s': Store, k: Key) {
    && k in s'.notifications
    && if k !in s.notifications then s'.notifications[k] == Unread(e.now)
       else
         || s'.notifications[k] == s.notifications[k]
         || (&& !s.notifications[k].isRead
             && s'.notifications[k] == s.notifications[k].(isRead := true, readAt := Some(e.now))
             && !e.req.IsJob() && e.req.actor == k.user)
  }

  /** Rows that were there stay as they are; new rows are unread. */
  ghost predicate KeepsReceipts(s: Store, e: Event, s': Store) {
    && (forall k :: k in s.notifications ==> k in s'.notifications)
    && (forall k :: k in s'.notifications ==>
          s'.notifications[k] == if k in s.notifications then s.notifications[k] else Unread(e.now))
  }

  lemma UpdateReceipts(s: Store, e: Event)
    requires e.req.UpdateBooking?
    ensures KeepsReceipts(s, e, Apply(s, e))
  {
  }

  lemma CreateReceipts(s: Store, e: Event)
    requires e.req.CreateBooking?
    ensures KeepsReceipts(s, e, Apply(s, e))
  {
  }

  lemma WithdrawReceipts(s: Store, e: Event)
    requires e.req.CancelBooking? || e.req.DeleteBooking?
    ensures KeepsReceipts(s, e, Apply(s, e))
  {
    if Apply(s, e) != s {
      assert Apply(s, e) == B.Withdrawn(s, e.req.id, s.users[e.req.actor], e.now);
    }
  }

  lemma RemindReceipts(s: Store, e: Event)
    requires e.req.ReminderJob?
    ensures KeepsReceipts(s, e, Apply(s, e))
  {
    AnnounceReceipts(s, e, Apply(s, e), N.UpcomingIds(s, e.now, e.req.window), BookingReminder);
  }

  lemma ChaseReceipts(s: Store, e: Event)
    requires e.req.OverdueJob?
    ensures KeepsReceipts(s, e, Apply(s, e))
  {
    AnnounceReceipts(s, e, Apply(s, e), N.OverdueIds(s, e.now), BookingOverdue);
  }

  lemma AnnounceReceipts(s: Store, e: Event, s': Store, ids: set<Id>, kind: NotificationType)
    requires ids <= s.bookings.Keys && s' == N.Announce(s, ids, kind, e.now).store
    ensures KeepsReceipts(s, e, s')
  {
    N.AnnounceLedger(s, ids, kind, e.now);
  }

  lemma ReadReceipts(s: Store, e: Event)
    requires BookingTables(s) && (e.req.MarkRead? || e.req.MarkAllRead?)
    ensures forall k :: k in s.notifications || k in Apply(s, e).notifications ==> ReceiptMove(s, e, Apply(s, e), k)
  {
    assert Apply(s, e).notifications.Keys == s.notifications.Keys;
  }

  lemma ReceiptStep(s: Store, e: Event)
    requires BookingTables(s)
    ensures forall k :: k in s.notifications || k in Apply(s, e).notifications ==> ReceiptMove(s, e, Apply(s, e), k)
  {
    if e.req.MarkRead? || e.req.MarkAllRead? {
      ReadReceipts(s, e);
    } else if e.req.CreateBooking? {
      CreateReceipts(s, e);
    } else if e.req.UpdateBooking? {
      UpdateReceipts(s, e);
    } else if e.req.WritesBooking() {
      WithdrawReceipts(s, e);
    } else if e.req.ReminderJob? {
      RemindReceipts(s, e);
    } else if e.req.OverdueJob? {
      ChaseReceipts(s, e);
    } else {
      assert Apply(s, e) == s.(reviews := Apply(s, e).reviews);
    }
  }

  lemma ReadStateKept(s: Store, e: Event)
    requires BookingTables(s) && ReadState(s)
    ensures ReadState(Apply(s, e))
  {
    ReceiptStep(s, e);
  }

  // ---------- The ledger ----------

  /** What the ledger holds for booking `i`, read against its current status. */
  ghost predicate LedgerOf(s: Store, i: Id)
    requires i in s.bookings
  {
    Lifecycle(s, i) && BothOrNeither(s, i, BookingReminder) && BothOrNeither(s, i, BookingOverdue)
  }

  ghost predicate Lifecycle(s: Store, i: Id)
    requires i in s.bookings
  {
    var b, ledger := s.bookings[i], s.notifications;
    && (forall u :: Key(u, i, BookingCreated) in ledger <==> u == b.provider)
    && (forall u :: Key(u, i, BookingConfirmed) in ledger ==> u == b.customer)
    && (b.status == Pending ==> Key(b.customer, i, BookingConfirmed) !in ledger)
    && (b.status == Confirmed || b.status == Completed ==> Key(b.customer, i, BookingConfirmed) in ledger)
    && (forall u :: Key(u, i, BookingCompleted) in ledger <==> b.status == Completed && u == b.customer)
    && Withdrawal(s, i)
  }

  /** Some participant was told of a cancellation exactly when there was one, and nobody else. */
  ghost predicate Withdrawal(s: Store, i: Id)
    requires i in s.bookings
  {
    var b, ledger := s.bookings[i], s.notifications;
    && (forall u :: Key(u, i, BookingCancelled) in ledger ==> b.status == Cancelled && Participant(b, u))
    && (b.status == Cancelled ==> exists u :: Key(u, i, BookingCancelled) in ledger)
  }

  /** Both participants were told or neither, nobody else was, and only of a booking once confirmed. */
  ghost predicate BothOrNeither(s: Store, i: Id, kind: NotificationType)
    requires i in s.bookings
  {
    var b, ledger := s.bookings[i], s.notifications;
    && (forall u :: Key(u, i, kind) in ledger ==> Participant(b, u) && Key(b.customer, i, BookingConfirmed) in ledger)
    && (Key(b.customer, i, kind) in ledger <==> Key(b.provider, i, kind) in ledger)
  }

  ghost predicate Ledger(s: Store) {
    forall i :: i in s.bookings ==> LedgerOf(s, i)
  }

  lemma LedgerKept(s: Store, e: Event)
    requires BookingTables(s) && NotificationTable(s) && Ledger(s)
    ensures Ledger(Apply(s, e))
  {
    var s' := Apply(s, e);
    BookingStep(s, e);
    LedgerStep(s, e);
    forall i | i in s'.bookings
      ensures LedgerOf(s', i)
    {
      LifecycleKept(s, e, s', i);
      BothOrNeitherKept(s, e, s', i, BookingReminder);
      BothOrNeitherKept(s, e, s', i, BookingOverdue);
    }
  }

  lemma LifecycleKept(s: Store, e: Event, s': Store, i: Id)
    requires BookingTables(s) && NotificationTable(s)
    requires BookingMove(s, e, s') && i in s'.bookings
    requires i in s.bookings ==> Lifecycle(s, i)
    requires Grows(s, e, s')
    ensures Lifecycle(s', i)
  {
    WithdrawalKept(s, e, s', i);
  }

  lemma WithdrawalKept(s: Store, e: Event, s': Store, i: Id)
    requires BookingTables(s) && NotificationTable(s)
    requires BookingMove(s, e, s') && i in s'.bookings
    requires i in s.bookings ==> Withdrawal(s, i)
    requires Grows(s, e, s')
    ensures Withdrawal(s', i)
  {
    var b := s'.bookings[i];
    if i in s.bookings && s.bookings[i].status != b.status && b.status == Cancelled {
      assert b.customer != b.provider;
      var u := if b.customer != e.req.actor then b.customer else b.provider;
      assert Earns(s, e, s', Key(u, i, BookingCancelled));
    }
  }

  lemma BothOrNeitherKept(s: Store, e: Event, s': Store, i: Id, kind: NotificationType)
    requires BookingTables(s) && NotificationTable(s)
    requires BookingMove(s, e, s') && i in s'.bookings
    requires i in s.bookings ==> Lifecycle(s, i) && BothOrNeither(s, i, kind)
    requires Lifecycle(s', i)
    requires Grows(s, e, s')
    requires kind == BookingReminder || kind == BookingOverdue
    ensures BothOrNeither(s', i, kind)
  {
  }

  // ---------- All of it ----------

  ghost predicate Sound(s: Store) {
    && BookingTables(s)
    && NotificationTable(s)
    && ReviewTable(s)
    && Calendar(s)
    && ReviewsEarned(s)
    && ReadState(s)
    && Ledger(s)
  }

  lemma SoundKept(s: Store, e: Event)
    requires Sound(s)
    ensures Sound(Apply(s, e))
  {
    BookingTablesKept(s, e);
    NotificationTableKept(s, e);
    ReviewsKept(s, e);
    CalendarKept(s, e);
    ReadStateKept(s, e);
    LedgerKept(s, e);
  }
}
