/** Bounds and accounts: how many rows a run can leave behind, and what the jobs report. */
module Counting {
  import opened Domain
  import opened Rules
  import opened Engine
  import opened Invariants
  import opened Runs
  import N = NotificationSpec

  lemma SubsetCount<T>(a: set<T>, b: set<T>)
    requires a <= b
    ensures |a| <= |b|
  {
    if a != {} {
      var x := Element(a);
      SubsetCount(a - {x}, b - {x});
    }
  }

  /** A set that `f` maps one-to-one into `b` is no larger than `b`. */
  lemma {:induction false} InjectionCount<T, U>(a: set<T>, b: set<U>, f: T -> U)
    requires forall x :: x in a ==> f(x) in b
    requires forall x, y :: x in a && y in a && f(x) == f(y) ==> x == y
    ensures |a| <= |b|
  {
    if a != {} {
      var x := Element(a);
      InjectionCount(a - {x}, b - {f(x)}, f);
    }
  }

  // ---------- Notifications per booking ----------

  function NotificationsOf(s: Store, b: Id): set<Key> {
    set k | k in s.notifications && k.booking == b
  }

  function Slots(b: Booking): set<Key> {
    {Key(b.provider, b.id, BookingCreated), Key(b.customer, b.id, BookingConfirmed),
     Key(b.customer, b.id, BookingReminder), Key(b.provider, b.id, BookingReminder),
     Key(b.customer, b.id, BookingOverdue), Key(b.provider, b.id, BookingOverdue)} +
    if b.status == Cancelled then {Key(b.customer, b.id, BookingCancelled), Key(b.provider, b.id, BookingCancelled)}
    else {Key(b.customer, b.id, BookingCompleted)}
  }

  lemma OnlySlots(s: Store, b: Id, k: Key)
    requires b in s.bookings && s.bookings[b].id == b && LedgerOf(s, b)
    requires k in s.notifications && k.booking == b
    ensures k in Slots(s.bookings[b])
  {
    var r := s.bookings[b];
    assert k == Key(k.user, b, k.kind);
    match k.kind
    case BookingCreated =>
    case BookingConfirmed =>
    case BookingCompleted =>
    case BookingCancelled =>
    case BookingReminder =>
    case BookingOverdue =>
  }

  lemma SlotCount(b: Booking)
    ensures |Slots(b)| <= 8
  {
    var six := {Key(b.provider, b.id, BookingCreated), Key(b.customer, b.id, BookingConfirmed),
                Key(b.customer, b.id, BookingReminder), Key(b.provider, b.id, BookingReminder),
                Key(b.customer, b.id, BookingOverdue), Key(b.provider, b.id, BookingOverdue)};
    var two := {Key(b.customer, b.id, BookingCancelled), Key(b.provider, b.id, BookingCancelled)};
    var one := {Key(b.customer, b.id, BookingCompleted)};
    assert |six| <= 6 && |two| <= 2 && |one| <= 1;
    assert |six + two| <= |six| + |two|;
    assert |six + one| <= |six| + |one|;
  }

  /** In every state of every run a booking has at most eight notifications. */
  lemma AtMostEightNotifications(ss: seq<Store>, es: seq<Event>, n: nat, b: Id)
    requires Run(ss, es) && n < |ss|
    ensures |NotificationsOf(ss[n], b)| <= 8
  {
    EveryStateIsSound(ss, es);
    EightInState(ss[n], b);
  }

  lemma EightInState(s: Store, b: Id)
    requires BookingTables(s) && NotificationTable(s) && Ledger(s)
    ensures |NotificationsOf(s, b)| <= 8
  {
    if b in s.bookings {
      forall k | k in NotificationsOf(s, b)
        ensures k in Slots(s.bookings[b])
      {
        OnlySlots(s, b, k);
      }
      SubsetCount(NotificationsOf(s, b), Slots(s.bookings[b]));
      SlotCount(s.bookings[b]);
    } else {
      forall k
        ensures k !in NotificationsOf(s, b)
      {
        if k in s.notifications {
          assert NotificationRow(s, k);
        }
      }
      NoMembers(NotificationsOf(s, b));
    }
  }

  // ---------- What the jobs report ----------

  predicate JobKind(kind: NotificationType) {
    kind == BookingReminder || kind == BookingOverdue
  }

  /** The rows the jobs have written so far. */
  function JobRows(s: Store): set<Key> {
    set k | k in s.notifications && JobKind(k.kind)
  }

  /** The number a job's run counts, and returns if its commit is answered. */
  function Announced(s: Store, e: Event): nat {
    match e.req
    case ReminderJob(window) => N.Remind(s, e.now, window).result.value
    case OverdueJob => N.Chase(s, e.now).result.value
    case _ => 0
  }

  ghost function TotalAnnounced(ss: seq<Store>, es: seq<Event>, n: nat): nat
    requires n < |ss| == |es| + 1
  {
    if n == 0 then 0 else TotalAnnounced(ss, es, n - 1) + Announced(ss[n - 1], es[n - 1])
  }

  /** A job returns twice the number of bookings it selected, less the notifications already there;
      that is how much the ledger grew. */
  lemma JobCount(s: Store, ids: set<Id>, kind: NotificationType, now: Instant)
    requires BookingTables(s) && ids <= s.bookings.Keys
    ensures var o, keys := N.Announce(s, ids, kind, now), N.ParticipantKeys(s.bookings, ids, kind);
            && |keys| == 2 * |ids|
            && o.result.value == 2 * |ids| - |keys * s.notifications.Keys|
            && |o.store.notifications| == |s.notifications| + o.result.value
            && o.store.bookings == s.bookings
  {
    var keys := N.ParticipantKeys(s.bookings, ids, kind);
    PairCount(s.bookings, ids, kind);
    DeliverDomain(s.notifications, keys, now);
    UnionCount(s.notifications.Keys, keys);
    assert |N.Announce(s, ids, kind, now).store.notifications| ==
          |N.Announce(s, ids, kind, now).store.notifications.Keys|;
  }

  lemma UnionCount<T>(a: set<T>, b: set<T>)
    ensures |b - a| == |b| - |b * a|
    ensures |a + b| == |a| + |b - a|
  {
    assert b == (b - a) + (b * a);
    assert a + b == a + (b - a);
  }

  lemma PairStep(bookings: map<Id, Booking>, ids: set<Id>, kind: NotificationType, i: Id)
    requires ids <= bookings.Keys && i in ids
    ensures var c, p := Key(bookings[i].customer, i, kind), Key(bookings[i].provider, i, kind);
            var rest := N.ParticipantKeys(bookings, ids - {i}, kind);
            && c !in rest && p !in rest
            && N.ParticipantKeys(bookings, ids, kind) == rest + {c} + {p}
  {
    var keys, rest := N.ParticipantKeys(bookings, ids, kind), N.ParticipantKeys(bookings, ids - {i}, kind);
    var c, p := Key(bookings[i].customer, i, kind), Key(bookings[i].provider, i, kind);
    N.ParticipantKeysMembers(bookings, ids, kind);
    N.ParticipantKeysMembers(bookings, ids - {i}, kind);
    forall k
      ensures k in keys <==> k in rest + {c} + {p}
    {
    }
  }

  /** Two keys for each selected booking: its participants differ. */
  lemma {:induction false} PairCount(bookings: map<Id, Booking>, ids: set<Id>, kind: NotificationType)
    requires ids <= bookings.Keys
    requires forall i :: i in ids ==> bookings[i].customer != bookings[i].provider
    ensures |N.ParticipantKeys(bookings, ids, kind)| == 2 * |ids|
  {
    if ids == {} {
      N.ParticipantKeysMembers(bookings, ids, kind);
      NoMembers(N.ParticipantKeys(bookings, ids, kind));
    } else {
      var i := Element(ids);
      PairStep(bookings, ids, kind, i);
      PairCount(bookings, ids - {i}, kind);
    }
  }

  /** A second run of a job at the same instant finds nothing new and changes nothing. */
  lemma JobIsIdempotent(s: Store, now: Instant, window: int)
    ensures var once := N.Remind(s, now, window).store;
            N.Remind(once, now, window).store == once && N.Remind(once, now, window).result == Success(0)
    ensures var once := N.Chase(s, now).store;
            N.Chase(once, now).store == once && N.Chase(once, now).result == Success(0)
  {
    AnnounceTwice(s, N.UpcomingIds(s, now, window), BookingReminder, now);
    AnnounceTwice(s, N.OverdueIds(s, now), BookingOverdue, now);
  }

  lemma AnnounceTwice(s: Store, ids: set<Id>, kind: NotificationType, now: Instant)
    requires ids <= s.bookings.Keys
    ensures var once := N.Announce(s, ids, kind, now).store;
            && once.bookings == s.bookings
            && N.Announce(once, ids, kind, now).store == once
            && N.Announce(once, ids, kind, now).result == Success(0)
  {
    var once := N.Announce(s, ids, kind, now).store;
    var keys := N.ParticipantKeys(s.bookings, ids, kind);
    DeliverDomain(s.notifications, keys, now);
    NoMembers(keys - once.notifications.Keys);
    DeliverTwice(s.notifications, keys, keys, now);
    assert keys + keys == keys;
  }

  lemma SameGrowth(s: Store, s': Store, returned: nat, ids: set<Id>, kind: NotificationType, now: Instant)
    requires ids <= s.bookings.Keys && JobKind(kind)
    requires s' == N.Announce(s, ids, kind, now).store && N.Announce(s, ids, kind, now).result == Success(returned)
    ensures |JobRows(s')| == |JobRows(s)| + returned
  {
    AnnounceGrowth(s, ids, kind, now);
  }

  lemma RemindGrowth(s: Store, e: Event)
    requires e.req.ReminderJob?
    ensures |JobRows(Apply(s, e))| == |JobRows(s)| + Announced(s, e)
  {
    var ids := N.UpcomingIds(s, e.now, e.req.window);
    SameGrowth(s, Apply(s, e), Announced(s, e), ids, BookingReminder, e.now);
  }

  lemma ChaseGrowth(s: Store, e: Event)
    requires e.req.OverdueJob?
    ensures |JobRows(Apply(s, e))| == |JobRows(s)| + Announced(s, e)
  {
    var ids := N.OverdueIds(s, e.now);
    SameGrowth(s, Apply(s, e), Announced(s, e), ids, BookingOverdue, e.now);
  }

  /** What one step counts is exactly the growth of the rows the jobs write. */
  lemma AnnouncedIsGrowth(s: Store, e: Event)
    requires BookingTables(s)
    ensures |JobRows(Apply(s, e))| == |JobRows(s)| + Announced(s, e)
  {
    if e.req.ReminderJob? {
      RemindGrowth(s, e);
    } else if e.req.OverdueJob? {
      ChaseGrowth(s, e);
    } else {
      LedgerStep(s, e);
      SameJobRows(s, e, Apply(s, e));
    }
  }

  /** A job's run never removes a row, and other steps neither add nor remove one. */
  lemma JobRowsOnlyGrow(s: Store, e: Event)
    requires BookingTables(s)
    ensures |JobRows(Apply(s, e))| >= |JobRows(s)|
    ensures !e.req.IsJob() ==> |JobRows(Apply(s, e))| == |JobRows(s)|
  {
    AnnouncedIsGrowth(s, e);
  }

  lemma SameJobRows(s: Store, e: Event, s': Store)
    requires Grows(s, e, s') && !e.req.IsJob()
    ensures JobRows(s') == JobRows(s)
  {
    assert forall k :: k in JobRows(s') <==> k in JobRows(s);
  }

  lemma AnnounceGrowth(s: Store, ids: set<Id>, kind: NotificationType, now: Instant)
    requires ids <= s.bookings.Keys && JobKind(kind)
    ensures var o := N.Announce(s, ids, kind, now); |JobRows(o.store)| == |JobRows(s)| + o.result.value
  {
    var keys := N.ParticipantKeys(s.bookings, ids, kind);
    var after := N.Announce(s, ids, kind, now).store;
    N.ParticipantKeysMembers(s.bookings, ids, kind);
    DeliverDomain(s.notifications, keys, now);
    JobRowsGrow(s, after, keys);
  }

  lemma JobRowsGrow(s: Store, after: Store, keys: set<Key>)
    requires after.notifications.Keys == s.notifications.Keys + keys
    requires forall k :: k in keys ==> JobKind(k.kind)
    ensures |JobRows(after)| == |JobRows(s)| + |keys - s.notifications.Keys|
  {
    var added := keys - s.notifications.Keys;
    forall k
      ensures k in JobRows(after) <==> k in JobRows(s) + added
    {
      assert k in after.notifications <==> k in after.notifications.Keys;
    }
    assert JobRows(after) == JobRows(s) + added;
    assert JobRows(s) !! added;
  }

  lemma GrowthAt(ss: seq<Store>, es: seq<Event>, n: nat)
    requires Run(ss, es) && n < |es|
    ensures |JobRows(ss[n + 1])| == |JobRows(ss[n])| + Announced(ss[n], es[n])
  {
    SoundAt(ss, es, n);
    assert Applied(ss, es, n);
    AnnouncedIsGrowth(ss[n], es[n]);
  }

  ghost predicate GrowthRun(ss: seq<Store>, es: seq<Event>) {
    && |ss| == |es| + 1
    && |JobRows(ss[0])| == 0
    && forall n :: 0 <= n < |es| ==> |JobRows(ss[n + 1])| == |JobRows(ss[n])| + Announced(ss[n], es[n])
  }

  lemma RunGrows(ss: seq<Store>, es: seq<Event>)
    requires Run(ss, es)
    ensures GrowthRun(ss, es)
  {
    NoMembers(JobRows(ss[0]));
    forall n | 0 <= n < |es|
      ensures |JobRows(ss[n + 1])| == |JobRows(ss[n])| + Announced(ss[n], es[n])
    {
      GrowthAt(ss, es, n);
    }
  }

  lemma {:induction false} TotalAt(ss: seq<Store>, es: seq<Event>, n: nat)
    requires GrowthRun(ss, es) && n < |ss|
    ensures TotalAnnounced(ss, es, n) == |JobRows(ss[n])|
  {
    if n > 0 {
      TotalAt(ss, es, n - 1);
    }
  }

  /** The job rows of one kind and one side: at most one per booking. */
  lemma SideCount(s: Store, rows: set<Key>)
    requires NotificationTable(s)
    requires forall k :: k in rows ==> k in s.notifications
    requires forall k, l :: k in rows && l in rows && k.booking == l.booking ==> k == l
    ensures |rows| <= |s.bookings|
  {
    forall k | k in rows
      ensures k.booking in s.bookings.Keys
    {
      assert NotificationRow(s, k);
    }
    InjectionCount(rows, s.bookings.Keys, (k: Key) => k.booking);
  }

  function SideRows(s: Store, kind: NotificationType, customers: bool): set<Key> {
    set k | k in s.notifications && k.kind == kind && k.booking in s.bookings
            && k.user == if customers then s.bookings[k.booking].customer else s.bookings[k.booking].provider
  }

  lemma OnSomeSide(s: Store, k: Key)
    requires NotificationTable(s) && Ledger(s) && k in JobRows(s)
    ensures k in SideRows(s, k.kind, true) || k in SideRows(s, k.kind, false)
  {
    assert NotificationRow(s, k);
    assert LedgerOf(s, k.booking);
    assert k == Key(k.user, k.booking, k.kind);
  }

  lemma SideBound(s: Store, kind: NotificationType, customers: bool)
    requires NotificationTable(s)
    ensures |SideRows(s, kind, customers)| <= |s.bookings|
  {
    SideCount(s, SideRows(s, kind, customers));
  }

  lemma FourCount<T>(whole: set<T>, a: set<T>, b: set<T>, c: set<T>, d: set<T>)
    requires forall x :: x in whole ==> x in a || x in b || x in c || x in d
    ensures |whole| <= |a| + |b| + |c| + |d|
  {
    SubsetCount(whole, a + b + c + d);
  }

  lemma JobRowBound(s: Store)
    requires NotificationTable(s) && Ledger(s)
    ensures |JobRows(s)| <= 4 * |s.bookings|
  {
    var a, b := SideRows(s, BookingReminder, true), SideRows(s, BookingReminder, false);
    var c, d := SideRows(s, BookingOverdue, true), SideRows(s, BookingOverdue, false);
    forall k | k in JobRows(s)
      ensures k in a || k in b || k in c || k in d
    {
      OnSomeSide(s, k);
    }
    FourCount(JobRows(s), a, b, c, d);
    SideBound(s, BookingReminder, true);
    SideBound(s, BookingReminder, false);
    SideBound(s, BookingOverdue, true);
    SideBound(s, BookingOverdue, false);
  }

  /** Over any run, reschedules included, the numbers the jobs count add up to the reminders and
      overdue notices in the ledger, and never exceed four per booking. */
  lemma JobAccounts(ss: seq<Store>, es: seq<Event>, n: nat)
    requires Run(ss, es) && n < |ss|
    ensures TotalAnnounced(ss, es, n) == |JobRows(ss[n])| <= 4 * |ss[n].bookings|
  {
    RunGrows(ss, es);
    TotalAt(ss, es, n);
    SoundAt(ss, es, n);
    JobRowBound(ss[n]);
  }

  // ---------- Status changes ----------

  function InStatus(s: Store, status: Status): set<Id> {
    set i | i in s.bookings && s.bookings[i].status == status
  }

  /** The ranks of all bookings, added up. */
  function Potential(s: Store): nat {
    2 * |InStatus(s, Pending)| + |InStatus(s, Confirmed)|
  }

  function Changed(s: Store, s': Store): set<Id> {
    set i | i in s.bookings && i in s'.bookings && s'.bookings[i].status != s.bookings[i].status
  }

  ghost function StatusChanges(ss: seq<Store>, n: nat): nat
    requires n < |ss|
  {
    if n == 0 then 0 else StatusChanges(ss, n - 1) + |Changed(ss[n - 1], ss[n])|
  }

  lemma NothingChanged(s: Store, s': Store)
    requires forall i :: i in s.bookings && i in s'.bookings ==> s'.bookings[i].status == s.bookings[i].status
    ensures |Changed(s, s')| == 0
  {
    forall i
      ensures i !in Changed(s, s')
    {
    }
    NoMembers(Changed(s, s'));
  }

  /** The bookings in one status, when booking `id` becomes `b`. */
  lemma InStatusAfter(s: Store, s': Store, id: Id, b: Booking, status: Status)
    requires s'.bookings == s.bookings[id := b]
    ensures |InStatus(s', status)| == |InStatus(s, status)| + (if b.status == status then 1 else 0)
                                      - if id in InStatus(s, status) then 1 else 0
  {
    var before, after := InStatus(s, status), InStatus(s', status);
    SameMembers(after - {id}, before - {id});
    assert |after - {id}| == |after| - if id in after then 1 else 0;
    assert |before - {id}| == |before| - if id in before then 1 else 0;
  }

  lemma OneChanged(s: Store, s': Store, id: Id, b: Booking)
    requires s'.bookings == s.bookings[id := b]
    ensures |Changed(s, s')| == if id in s.bookings && s.bookings[id].status != b.status then 1 else 0
    ensures |s'.bookings| == |s.bookings| + if id in s.bookings then 0 else 1
  {
    if id in s.bookings && s.bookings[id].status != b.status {
      SameMembers(Changed(s, s'), {id});
    } else {
      NothingChanged(s, s');
    }
    SameMembers(s'.bookings.Keys, s.bookings.Keys + {id});
    assert |s'.bookings| == |s'.bookings.Keys| && |s.bookings| == |s.bookings.Keys|;
  }

  /** Each status change uses up potential; each new booking brings two. */
  lemma PotentialStep(s: Store, e: Event, s': Store)
    requires BookingMove(s, e, s')
    ensures |Changed(s, s')| + Potential(s') <= Potential(s) + 2 * (|s'.bookings| - |s.bookings|)
  {
    if s'.bookings == s.bookings {
      NothingChanged(s, s');
      SameMembers(InStatus(s', Pending), InStatus(s, Pending));
      SameMembers(InStatus(s', Confirmed), InStatus(s, Confirmed));
    } else {
      var id := e.req.BookingId();
      InStatusAfter(s, s', id, s'.bookings[id], Pending);
      InStatusAfter(s, s', id, s'.bookings[id], Confirmed);
      OneChanged(s, s', id, s'.bookings[id]);
    }
  }

  lemma {:induction false} ChangesAt(ss: seq<Store>, es: seq<Event>, n: nat)
    requires BookingRun(ss, es) && n < |ss|
    ensures StatusChanges(ss, n) + Potential(ss[n]) <= 2 * |ss[n].bookings|
  {
    if n == 0 {
      NoMembers(InStatus(ss[0], Pending));
      NoMembers(InStatus(ss[0], Confirmed));
    } else {
      ChangesAt(ss, es, n - 1);
      assert BookingMove(ss[n - 1], es[n - 1], ss[n]);
      PotentialStep(ss[n - 1], es[n - 1], ss[n]);
    }
  }

  /** A run of any length makes at most two status changes for every booking there is, less the ranks
      still left. */
  lemma StatusChangesAreBounded(ss: seq<Store>, es: seq<Event>, n: nat)
    requires Run(ss, es) && n < |ss|
    ensures StatusChanges(ss, n) <= 2 * |ss[n].bookings| - Potential(ss[n])
  {
    StepsAreLawful(ss, es);
    ChangesAt(ss, es, n);
  }

  // ---------- Reviews per provider ----------

  function ReviewsFor(s: Store, provider: Id): set<Id> {
    set i | i in s.reviews && s.reviews[i].provider == provider
  }

  function CompletedFor(s: Store, provider: Id): set<Id> {
    set i | i in s.bookings && s.bookings[i].provider == provider && s.bookings[i].status == Completed
  }

  /** A provider never has more reviews than completed bookings. */
  lemma ReviewsNeedCompletedBookings(ss: seq<Store>, es: seq<Event>, n: nat, provider: Id)
    requires Run(ss, es) && n < |ss|
    ensures |ReviewsFor(ss[n], provider)| <= |CompletedFor(ss[n], provider)|
  {
    SoundAt(ss, es, n);
    ReviewCount(ss[n], provider);
  }

  lemma ReviewCount(s: Store, provider: Id)
    requires ReviewTable(s) && ReviewsEarned(s)
    ensures |ReviewsFor(s, provider)| <= |CompletedFor(s, provider)|
  {
    var reviews := s.reviews;
    var booking := (i: Id) => if i in reviews then reviews[i].booking else 0;
    forall i: Id | i in ReviewsFor(s, provider)
      ensures booking(i) in CompletedFor(s, provider)
    {
      assert Earned(s, reviews[i]);
    }
    forall i: Id, j: Id | i in ReviewsFor(s, provider) && j in ReviewsFor(s, provider) && booking(i) == booking(j)
      ensures i == j
    {
    }
    InjectionCount(ReviewsFor(s, provider), CompletedFor(s, provider), booking);
  }

  // ---------- Read marks ----------

  function InboxOf(s: Store, user: Id): set<Key> {
    set k | k in s.notifications && k.user == user
  }

  function ReadOf(s: Store, user: Id): set<Key> {
    set k | k in s.notifications && k.user == user && s.notifications[k].isRead
  }

  /** Marking everything as read returns the number of the caller's unread notifications, leaves none
      unread, and changes no row of another user and no row already read. */
  lemma MarkAllIsExact(s: Store, user: Id, now: Instant)
    ensures var o := N.MarkAll(s, user, now);
            && o.result == Success(|InboxOf(s, user)| - |ReadOf(s, user)|)
            && ReadOf(o.store, user) == InboxOf(o.store, user) == InboxOf(s, user)
            && (forall k :: k in s.notifications && (k.user != user || s.notifications[k].isRead) ==>
                  k in o.store.notifications && o.store.notifications[k] == s.notifications[k])
  {
    var after := N.MarkAll(s, user, now).store;
    assert forall k :: k in InboxOf(s, user) <==> k in ReadOf(s, user) + N.UnreadOf(s, user);
    assert InboxOf(s, user) == ReadOf(s, user) + N.UnreadOf(s, user);
    assert ReadOf(s, user) !! N.UnreadOf(s, user);
    assert forall k :: k in InboxOf(after, user) <==> k in InboxOf(s, user);
    assert forall k :: k in ReadOf(after, user) <==> k in InboxOf(s, user);
  }

  lemma {:induction false} ReceiptsSince(ss: seq<Store>, es: seq<Event>, k: Key, m: nat, n: nat)
    requires ReceiptRun(ss, es) && m <= n < |ss| && k in ss[m].notifications
    ensures k in ss[n].notifications
    ensures ss[n].notifications[k].createdAt == ss[m].notifications[k].createdAt
    ensures ss[m].notifications[k].isRead ==> ss[n].notifications[k] == ss[m].notifications[k]
  {
    if m < n {
      ReceiptsSince(ss, es, k, m, n - 1);
      assert ReceiptsMove(ss[n - 1], es[n - 1], ss[n]);
      assert ReceiptMove(ss[n - 1], es[n - 1], ss[n], k);
    }
  }

  /** In every state of every run a notification is read exactly when it has a reading time; that time
      never changes once set; and no notification is ever removed. */
  lemma ReadMarksAreFinal(ss: seq<Store>, es: seq<Event>, k: Key, m: nat, n: nat)
    requires Run(ss, es) && m <= n < |ss| && k in ss[m].notifications
    ensures k in ss[n].notifications
    ensures ss[n].notifications[k].isRead <==> ss[n].notifications[k].readAt.Some?
    ensures ss[m].notifications[k].readAt.Some? ==> ss[n].notifications[k] == ss[m].notifications[k]
  {
    StepsAreLawful(ss, es);
    ReceiptsSince(ss, es, k, m, n);
    EveryStateIsSound(ss, es);
    assert ReadState(ss[m]) && ReadState(ss[n]);
  }
}
