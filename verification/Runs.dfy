/** Whole runs: every sequence of events from the state with users and nothing else. */
module Runs {
  import opened Domain
  import opened Rules
  import opened Engine
  import opened Invariants
  import N = NotificationSpec

  function Start(users: map<Id, User>): Store {
    Store(users, map[], map[], map[])
  }

  /** `ss` are the committed stores of the run of the events `es`: ss[n] before es[n]. */
  ghost predicate Run(ss: seq<Store>, es: seq<Event>) {
    && |ss| == |es| + 1
    && (forall i :: i in ss[0].users ==> ss[0].users[i].id == i)
    && ss[0] == Start(ss[0].users)
    && forall n :: 0 <= n < |es| ==> Applied(ss, es, n)
  }

  ghost predicate Applied(ss: seq<Store>, es: seq<Event>, n: nat)
    requires n < |es| && n + 1 < |ss|
  {
    ss[n + 1] == Apply(ss[n], es[n])
  }

  lemma RunGrowsBy(ss: seq<Store>, es: seq<Event>, e: Event, s': Store)
    requires Run(ss, es) && s' == Apply(ss[|es|], e)
    ensures Run(ss + [s'], es + [e])
  {
    var longer, events := ss + [s'], es + [e];
    forall n | 0 <= n < |events|
      ensures Applied(longer, events, n)
    {
      if n < |es| {
        assert Applied(ss, es, n);
      }
    }
  }

  // What the steps of a run do, without saying how.

  ghost predicate BookingRun(ss: seq<Store>, es: seq<Event>) {
    && |ss| == |es| + 1
    && ss[0].bookings == map[]
    && forall n :: 0 <= n < |es| ==> BookingMove(ss[n], es[n], ss[n + 1])
  }

  ghost predicate LedgerRun(ss: seq<Store>, es: seq<Event>) {
    && |ss| == |es| + 1
    && ss[0].notifications == map[]
    && forall n :: 0 <= n < |es| ==> Grows(ss[n], es[n], ss[n + 1])
  }

  ghost predicate ReceiptsMove(s: Store, e: Event, s': Store) {
    forall k :: k in s.notifications || k in s'.notifications ==> ReceiptMove(s, e, s', k)
  }

  ghost predicate ReceiptRun(ss: seq<Store>, es: seq<Event>) {
    && |ss| == |es| + 1
    && forall n :: 0 <= n < |es| ==> ReceiptsMove(ss[n], es[n], ss[n + 1])
  }

  lemma {:induction false} SoundAt(ss: seq<Store>, es: seq<Event>, n: nat)
    requires Run(ss, es) && n < |ss|
    ensures Sound(ss[n])
  {
    if n == 0 {
      StartIsSound(ss[0].users);
    } else {
      SoundAt(ss, es, n - 1);
      assert Applied(ss, es, n - 1);
      SoundAfter(ss[n - 1], es[n - 1], ss[n]);
    }
  }

  lemma StartIsSound(users: map<Id, User>)
    requires forall i :: i in users ==> users[i].id == i
    ensures Sound(Start(users))
  {
  }

  lemma SoundAfter(s: Store, e: Event, s': Store)
    requires Sound(s) && s' == Apply(s, e)
    ensures Sound(s')
  {
    SoundKept(s, e);
  }

  /** Every state of every run is sound: the tables keep their constraints, every provider's active
      bookings are disjoint, the ledger agrees with the statuses, reviews belong to completed
      bookings, and the read marks are consistent. */
  lemma EveryStateIsSound(ss: seq<Store>, es: seq<Event>)
    requires Run(ss, es)
    ensures forall n :: 0 <= n < |ss| ==> Sound(ss[n])
  {
    forall n | 0 <= n < |ss|
      ensures Sound(ss[n])
    {
      SoundAt(ss, es, n);
    }
  }

  lemma StepsAreLawful(ss: seq<Store>, es: seq<Event>)
    requires Run(ss, es)
    ensures BookingRun(ss, es) && LedgerRun(ss, es) && ReceiptRun(ss, es)
  {
    forall n | 0 <= n < |es|
      ensures BookingMove(ss[n], es[n], ss[n + 1]) && Grows(ss[n], es[n], ss[n + 1])
            && ReceiptsMove(ss[n], es[n], ss[n + 1])
    {
      SoundAt(ss, es, n);
      assert Applied(ss, es, n);
      BookingStep(ss[n], es[n]);
      LedgerStep(ss[n], es[n]);
      ReceiptStep(ss[n], es[n]);
    }
  }

  // ---------- Status histories ----------

  /** A change of a booking's status, as seen by comparing successive stores of a run. */
  datatype Hop = Hop(before: Option<Status>, after: Option<Status>, event: Event)

  function StatusOf(s: Store, b: Id): Option<Status> {
    if b in s.bookings then Some(s.bookings[b].status) else None
  }

  ghost function History(ss: seq<Store>, es: seq<Event>, b: Id, n: nat): seq<Hop>
    requires n < |ss| == |es| + 1
  {
    if n == 0 then []
    else
      var before, after := StatusOf(ss[n - 1], b), StatusOf(ss[n], b);
      History(ss, es, b, n - 1) + if before == after then [] else [Hop(before, after, es[n - 1])]
  }

  /** A request on booking `b` by a user whose role permits the change. */
  ghost predicate LegalHop(users: map<Id, User>, b: Id, hop: Hop) {
    && hop.before.Some? && hop.after.Some?
    && hop.event.req.WritesBooking() && hop.event.req.BookingId() == b
    && hop.event.req.actor in users
    && MayMove(hop.before.value, hop.after.value, users[hop.event.req.actor].role)
  }

  /** The history starts with the creation as pending, ends at the current status, and each change
      continues the one before and is permitted; the rank falls with each, so there are at most
      two. */
  ghost predicate IsPath(ss: seq<Store>, b: Id, n: nat, h: seq<Hop>)
    requires n < |ss|
  {
    && (b in ss[n].bookings <==> h != [])
    && (h != [] ==>
          && h[0].before == None && h[0].after == Some(Pending)
          && h[|h| - 1].after == StatusOf(ss[n], b)
          && |h| + Rank(ss[n].bookings[b].status) <= 3)
    && (forall m :: 0 < m < |h| ==> h[m].before == h[m - 1].after && LegalHop(ss[0].users, b, h[m]))
  }

  lemma {:induction false} UsersFixed(ss: seq<Store>, es: seq<Event>, n: nat)
    requires BookingRun(ss, es) && n < |ss|
    ensures ss[n].users == ss[0].users
  {
    if n > 0 {
      UsersFixed(ss, es, n - 1);
      assert BookingMove(ss[n - 1], es[n - 1], ss[n]);
    }
  }

  lemma HopStep(s: Store, e: Event, s': Store, b: Id)
    requires BookingMove(s, e, s')
    requires StatusOf(s, b) != StatusOf(s', b)
    ensures b in s'.bookings
    ensures b !in s.bookings ==> s'.bookings[b].status == Pending
    ensures b in s.bookings ==> LegalHop(s.users, b, Hop(StatusOf(s, b), StatusOf(s', b), e))
    ensures b in s.bookings ==> Rank(s'.bookings[b].status) < Rank(s.bookings[b].status)
  {
    if b in s.bookings {
      TransitionCheckIsExact(s.bookings[b].status, s'.bookings[b].status, s.users[e.req.actor].role);
    }
  }

  lemma {:induction false} HistoryIsPath(ss: seq<Store>, es: seq<Event>, b: Id, n: nat)
    requires BookingRun(ss, es) && n < |ss|
    ensures IsPath(ss, b, n, History(ss, es, b, n))
  {
    if n > 0 {
      HistoryIsPath(ss, es, b, n - 1);
      UsersFixed(ss, es, n - 1);
      assert BookingMove(ss[n - 1], es[n - 1], ss[n]);
      PathGrows(ss, es, b, n, History(ss, es, b, n - 1));
    }
  }

  lemma PathGrows(ss: seq<Store>, es: seq<Event>, b: Id, n: nat, h: seq<Hop>)
    requires 0 < n < |ss| == |es| + 1
    requires BookingMove(ss[n - 1], es[n - 1], ss[n]) && ss[n - 1].users == ss[0].users
    requires IsPath(ss, b, n - 1, h)
    ensures var before, after := StatusOf(ss[n - 1], b), StatusOf(ss[n], b);
            IsPath(ss, b, n, h + if before == after then [] else [Hop(before, after, es[n - 1])])
  {
    if StatusOf(ss[n - 1], b) != StatusOf(ss[n], b) {
      HopStep(ss[n - 1], es[n - 1], ss[n], b);
    } else {
      assert h + [] == h;
    }
  }

  /** Over any run, every booking's history is a path of the transition table, each change made by a
      role the table allows, and has at most one creation and two changes. */
  lemma StatusRuns(ss: seq<Store>, es: seq<Event>, b: Id, n: nat)
    requires Run(ss, es) && n < |ss|
    ensures IsPath(ss, b, n, History(ss, es, b, n))
    ensures |History(ss, es, b, n)| <= 3
  {
    StepsAreLawful(ss, es);
    HistoryIsPath(ss, es, b, n);
  }

  lemma {:induction false} FrozenSince(ss: seq<Store>, es: seq<Event>, b: Id, m: nat, n: nat)
    requires BookingRun(ss, es) && m <= n < |ss|
    requires b in ss[m].bookings && Terminal(ss[m].bookings[b].status)
    ensures b in ss[n].bookings && ss[n].bookings[b] == ss[m].bookings[b]
  {
    if m < n {
      FrozenSince(ss, es, b, m, n - 1);
      assert BookingMove(ss[n - 1], es[n - 1], ss[n]);
    }
  }

  /** Once a booking is completed or cancelled, no column of it ever changes again. */
  lemma TerminalForever(ss: seq<Store>, es: seq<Event>, b: Id, m: nat, n: nat)
    requires Run(ss, es) && m <= n < |ss|
    requires b in ss[m].bookings && Terminal(ss[m].bookings[b].status)
    ensures b in ss[n].bookings && ss[n].bookings[b] == ss[m].bookings[b]
  {
    StepsAreLawful(ss, es);
    FrozenSince(ss, es, b, m, n);
  }

  // ---------- The ledger against the history ----------

  /** The change is the one the notification reports, and its user is in the audience. */
  ghost predicate Reports(k: Key, hop: Hop, b: Booking) {
    match k.kind
    case BookingCreated => hop.before.None? && k.user == b.provider
    case BookingConfirmed => hop.before.Some? && hop.after == Some(Confirmed) && k.user == b.customer
    case BookingCompleted => hop.before.Some? && hop.after == Some(Completed) && k.user == b.customer
    case BookingCancelled =>
      && hop.before.Some? && hop.after == Some(Cancelled) && Participant(b, k.user)
      && !hop.event.req.IsJob() && k.user != hop.event.req.actor
    case _ => false
  }

  ghost predicate Reported(k: Key, h: seq<Hop>, b: Booking) {
    exists m :: 0 <= m < |h| && Reports(k, h[m], b)
  }

  lemma ReportedAppend(k: Key, h: seq<Hop>, hop: Hop, b: Booking)
    ensures Reported(k, h + [hop], b) <==> Reported(k, h, b) || Reports(k, hop, b)
  {
    var longer := h + [hop];
    if Reported(k, h, b) {
      var m :| 0 <= m < |h| && Reports(k, h[m], b);
      assert Reports(k, longer[m], b);
    }
    if Reports(k, hop, b) {
      assert Reports(k, longer[|h|], b);
    }
  }

  predicate LifecycleKind(kind: NotificationType) {
    kind != BookingReminder && kind != BookingOverdue
  }

  lemma {:induction false} LedgerAt(ss: seq<Store>, es: seq<Event>, k: Key, n: nat)
    requires BookingRun(ss, es) && LedgerRun(ss, es) && n < |ss| && LifecycleKind(k.kind)
    ensures k in ss[n].notifications <==>
            k.booking in ss[n].bookings && Reported(k, History(ss, es, k.booking, n), ss[n].bookings[k.booking])
  {
    if n > 0 {
      LedgerAt(ss, es, k, n - 1);
      HistoryIsPath(ss, es, k.booking, n - 1);
      assert BookingMove(ss[n - 1], es[n - 1], ss[n]);
      assert Grows(ss[n - 1], es[n - 1], ss[n]);
      LedgerOneMore(ss[n - 1], es[n - 1], ss[n], k, History(ss, es, k.booking, n - 1));
    }
  }

  lemma LedgerOneMore(s: Store, e: Event, s': Store, k: Key, h: seq<Hop>)
    requires BookingMove(s, e, s') && Grows(s, e, s') && LifecycleKind(k.kind)
    requires k.booking in s.bookings <==> h != []
    requires k in s.notifications <==> k.booking in s.bookings && Reported(k, h, s.bookings[k.booking])
    ensures var before, after := StatusOf(s, k.booking), StatusOf(s', k.booking);
            k in s'.notifications <==>
            && k.booking in s'.bookings
            && Reported(k, h + if before == after then [] else [Hop(before, after, e)], s'.bookings[k.booking])
  {
    var id := k.booking;
    assert k in s'.notifications <==> k in s.notifications || Earns(s, e, s', k);
    if id in s.bookings {
      SameAudience(s, e, s', k, h);
    }
    if id in s'.bookings {
      var hop := Hop(StatusOf(s, id), StatusOf(s', id), e);
      ReportedAppend(k, h, hop, s'.bookings[id]);
      assert h + [] == h;
      if hop.before != hop.after {
        HopStep(s, e, s', id);
        assert Earns(s, e, s', k) <==> Reports(k, hop, s'.bookings[id]);
      }
    }
  }

  /** The participants of a booking never change, so neither does what its history reports. */
  lemma SameAudience(s: Store, e: Event, s': Store, k: Key, h: seq<Hop>)
    requires BookingMove(s, e, s') && k.booking in s.bookings
    ensures k.booking in s'.bookings
    ensures Reported(k, h, s.bookings[k.booking]) <==> Reported(k, h, s'.bookings[k.booking])
  {
    forall m | 0 <= m < |h|
      ensures Reports(k, h[m], s.bookings[k.booking]) <==> Reports(k, h[m], s'.bookings[k.booking])
    {
    }
  }

  /** In every state of every run, a lifecycle notification exists exactly when the booking's history
      contains the change it reports and its user is in that change's audience: the provider for the
      creation, the customer for a confirmation or completion, and for a cancellation the
      participants other than the one who cancelled. */
  lemma LedgerMatchesHistory(ss: seq<Store>, es: seq<Event>, k: Key, n: nat)
    requires Run(ss, es) && n < |ss| && LifecycleKind(k.kind)
    ensures k in ss[n].notifications <==>
            k.booking in ss[n].bookings && Reported(k, History(ss, es, k.booking, n), ss[n].bookings[k.booking])
  {
    StepsAreLawful(ss, es);
    LedgerAt(ss, es, k, n);
  }

  lemma {:induction false} EarnedAt(ss: seq<Store>, es: seq<Event>, k: Key, n: nat)
    requires LedgerRun(ss, es) && n < |ss|
    ensures k in ss[n].notifications <==> exists m :: 0 <= m < n && Earns(ss[m], es[m], ss[m + 1], k)
  {
    if n > 0 {
      EarnedAt(ss, es, k, n - 1);
      assert Grows(ss[n - 1], es[n - 1], ss[n]);
      assert k in ss[n].notifications <==>
            k in ss[n - 1].notifications || Earns(ss[n - 1], es[n - 1], ss[n - 1 + 1], k);
    }
  }

  /** A notification of any kind exists exactly when some earlier step of the run earned it; for
      reminders and overdue notices: when an earlier run of that job found the booking due. */
  lemma EveryNotificationIsEarned(ss: seq<Store>, es: seq<Event>, k: Key, n: nat)
    requires Run(ss, es) && n < |ss|
    ensures k in ss[n].notifications <==> exists m :: 0 <= m < n && Earns(ss[m], es[m], ss[m + 1], k)
  {
    StepsAreLawful(ss, es);
    EarnedAt(ss, es, k, n);
  }
}
