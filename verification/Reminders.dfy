/** When the reminder job reaches a booking in time: the run interval against the reminder window. */
module Reminders {
  import opened Domain
  import opened Rules
  import opened Engine
  import opened Invariants
  import opened Runs
  import opened Counting
  import B = BookingSpec
  import N = NotificationSpec

  ghost predicate InOrder(es: seq<Event>) {
    forall m, n :: 0 <= m <= n < |es| ==> es[m].now <= es[n].now
  }

  predicate Reminds(es: seq<Event>, m: int, window: int) {
    0 <= m < |es| && es[m].req == ReminderJob(window)
  }

  /** Successive committed runs of the reminder job are at most `gap` apart. */
  ghost predicate GapsWithin(es: seq<Event>, window: int, gap: int) {
    forall m, n :: m < n && Reminds(es, m, window) && Reminds(es, n, window)
                   && (forall j :: m < j < n ==> !Reminds(es, j, window)) ==>
                     es[n].now - es[m].now <= gap
  }

  /** Whenever something happens in [start - window, start), the booking is confirmed and starts at
      `start`. */
  ghost predicate Steady(ss: seq<Store>, es: seq<Event>, b: Id, start: Instant, window: int)
    requires |ss| == |es| + 1
  {
    forall m :: 0 <= m < |es| && start - window <= es[m].now < start ==>
                  b in ss[m].bookings && ss[m].bookings[b].status == Confirmed && ss[m].bookings[b].start == start
  }

  /** The job ran before the start and at or after it, never more than `gap` apart, and the booking
      was steady in between. */
  ghost predicate Watched(ss: seq<Store>, es: seq<Event>, b: Id, start: Instant, window: int, gap: int) {
    Run(ss, es) && Watching(ss, es, b, start, window, gap)
  }

  ghost predicate Watching(ss: seq<Store>, es: seq<Event>, b: Id, start: Instant, window: int, gap: int)
    requires |ss| == |es| + 1
  {
    && InOrder(es)
    && GapsWithin(es, window, gap)
    && Steady(ss, es, b, start, window)
    && (exists m :: Reminds(es, m, window) && es[m].now < start)
    && (exists m :: Reminds(es, m, window) && es[m].now >= start)
  }

  /** A run at `m`, within the window before the start, after which both participants have their
      reminder. */
  ghost predicate RemindedBy(ss: seq<Store>, es: seq<Event>, b: Id, start: Instant, window: int, m: nat)
    requires |ss| == |es| + 1
  {
    && Reminds(es, m, window) && start - window <= es[m].now < start
    && b in ss[m + 1].bookings
    && Key(ss[m + 1].bookings[b].customer, b, BookingReminder) in ss[m + 1].notifications
    && Key(ss[m + 1].bookings[b].provider, b, BookingReminder) in ss[m + 1].notifications
  }

  // ---------- The job in time ----------

  lemma {:induction false} LastRunBefore(es: seq<Event>, window: int, start: Instant, from: int) returns (m: nat)
    requires Reminds(es, from, window) && es[from].now < start
    ensures from <= m && Reminds(es, m, window) && es[m].now < start
    ensures forall j :: m < j && Reminds(es, j, window) ==> es[j].now >= start
    decreases |es| - from
  {
    if j :| from < j && Reminds(es, j, window) && es[j].now < start {
      m := LastRunBefore(es, window, start, j);
    } else {
      m := from;
    }
  }

  lemma {:induction false} NextRun(es: seq<Event>, window: int, m: int, last: int) returns (n: nat)
    requires m < last && Reminds(es, last, window) && 0 <= m
    ensures m < n <= last && Reminds(es, n, window)
    ensures forall j :: m < j < n ==> !Reminds(es, j, window)
    decreases last - m
  {
    if j :| m < j < last && Reminds(es, j, window) {
      n := NextRun(es, window, m, j);
    } else {
      n := last;
    }
  }

  lemma SomeRunInWindow(es: seq<Event>, start: Instant, window: int, gap: int) returns (m: nat)
    requires InOrder(es) && GapsWithin(es, window, gap) && gap <= window
    requires exists i :: Reminds(es, i, window) && es[i].now < start
    requires exists i :: Reminds(es, i, window) && es[i].now >= start
    ensures Reminds(es, m, window) && start - window <= es[m].now < start
  {
    var i :| Reminds(es, i, window) && es[i].now < start;
    var k :| Reminds(es, k, window) && es[k].now >= start;
    m := LastRunBefore(es, window, start, i);
    assert m < k;
    var n := NextRun(es, window, m, k);
    assert es[n].now - es[m].now <= gap;
  }

  /** Runs at most the window apart reach every steady booking before it starts; the inclusive end of
      the window makes an interval equal to the window enough. */
  lemma JobReachesBooking(ss: seq<Store>, es: seq<Event>, b: Id, start: Instant, window: int, gap: int) returns (m: nat)
    requires Watched(ss, es, b, start, window, gap) && gap <= window
    ensures RemindedBy(ss, es, b, start, window, m)
  {
    m := SomeRunInWindow(es, start, window, gap);
    StepsAreLawful(ss, es);
    JobTellsBoth(ss[m], es[m], ss[m + 1], b);
  }

  lemma JobTellsBoth(s: Store, e: Event, s': Store, b: Id)
    requires BookingMove(s, e, s') && Grows(s, e, s')
    requires b in s.bookings && e.req.ReminderJob?
    requires s.bookings[b].status == Confirmed && e.now < s.bookings[b].start <= e.now + e.req.window
    ensures b in s'.bookings
    ensures Key(s'.bookings[b].customer, b, BookingReminder) in s'.notifications
    ensures Key(s'.bookings[b].provider, b, BookingReminder) in s'.notifications
  {
    assert Earns(s, e, s', Key(s'.bookings[b].customer, b, BookingReminder));
    assert Earns(s, e, s', Key(s'.bookings[b].provider, b, BookingReminder));
  }

  // ---------- The job too late ----------

  // Small runs of one customer, one provider and one booking, built event by event.

  const CUSTOMER: Id := 1
  const PROVIDER: Id := 2
  const VISIT: Id := 7

  function Visit(start: Instant, end: Instant, status: Status): Booking {
    Booking(VISIT, CUSTOMER, PROVIDER, "visit", start, end, status)
  }

  const REMINDER := Key(CUSTOMER, VISIT, BookingReminder)

  /** `ss`, `es` is a run over these two users whose last store holds just the booking `row`. */
  ghost predicate Tale(ss: seq<Store>, es: seq<Event>, row: Booking) {
    && Run(ss, es)
    && ss[|es|].users == map[CUSTOMER := User(CUSTOMER, Customer), PROVIDER := User(PROVIDER, Provider)]
    && ss[|es|].bookings == map[VISIT := row]
  }

  lemma OpenedTale(start: Instant, end: Instant) returns (ss: seq<Store>, es: seq<Event>)
    requires start < end
    ensures Tale(ss, es, Visit(start, end, Pending)) && |ss| == 2
    ensures es[0] == Event(0, CreateBooking(CUSTOMER, VISIT, B.BookingCreate(PROVIDER, "visit", start, end)))
    ensures NeverReminded(ss)
  {
    var s := Start(map[CUSTOMER := User(CUSTOMER, Customer), PROVIDER := User(PROVIDER, Provider)]);
    var e := Event(0, CreateBooking(CUSTOMER, VISIT, B.BookingCreate(PROVIDER, "visit", start, end)));
    var s' := Apply(s, e);
    ss, es := [s] + [s'], [] + [e];
    RunGrowsBy([s], [], e, s');
  }

  lemma PatchedTale(ss: seq<Store>, es: seq<Event>, row: Booking, actor: Id, upd: B.BookingUpdate, after: Booking)
    returns (ss': seq<Store>, es': seq<Event>)
    requires Tale(ss, es, row) && row == Visit(row.start, row.end, row.status)
    requires after == B.Updated(row, upd) && after.start < after.end && !Terminal(row.status)
    requires || (actor == PROVIDER && row.status == Pending
                 && upd == B.BookingUpdate(None, None, None, Some(Confirmed)))
             || (actor == PROVIDER && row.status == Confirmed
                 && upd == B.BookingUpdate(None, None, None, Some(Completed)))
             || (actor == CUSTOMER && upd.status == None)
    ensures Tale(ss', es', after)
    ensures es' == es + [Event(0, UpdateBooking(actor, VISIT, upd))] && |ss'| == |ss| + 1 && ss'[..|ss|] == ss
    ensures forall u :: Key(u, VISIT, BookingReminder) in ss'[|ss|].notifications <==>
                        Key(u, VISIT, BookingReminder) in ss[|es|].notifications
    ensures REMINDER in ss[|es|].notifications ==> ss'[|ss|].notifications[REMINDER] == ss[|es|].notifications[REMINDER]
  {
    var s, e := ss[|es|], Event(0, UpdateBooking(actor, VISIT, upd));
    assert B.UpdateRefusal(s, VISIT, upd, s.users[actor]).None?;
    var s' := Apply(s, e);
    RunGrowsBy(ss, es, e, s');
    ss', es' := ss + [s'], es + [e];
  }

  /** A job run outside the booking's window changes nothing. */
  lemma QuietTale(ss: seq<Store>, es: seq<Event>, row: Booking, now: Instant, window: int)
    returns (ss': seq<Store>, es': seq<Event>)
    requires Tale(ss, es, row) && !N.Upcoming(row, now, window)
    ensures Tale(ss', es', row)
    ensures es' == es + [Event(now, ReminderJob(window))] && |ss'| == |ss| + 1 && ss'[..|ss|] == ss
    ensures ss'[|ss|] == ss[|es|]
  {
    var s, e := ss[|es|], Event(now, ReminderJob(window));
    var ids := N.UpcomingIds(s, now, window);
    NoMembers(ids);
    N.ParticipantKeysMembers(s.bookings, ids, BookingReminder);
    NoMembers(N.ParticipantKeys(s.bookings, ids, BookingReminder));
    assert Deliver(s.notifications, {}, now) == s.notifications;
    RunGrowsBy(ss, es, e, s);
    ss', es' := ss + [s], es + [e];
  }

  /** A job run inside the window leaves the customer's reminder in the ledger: the old one if there
      was one. */
  lemma ToldTale(ss: seq<Store>, es: seq<Event>, row: Booking, now: Instant, window: int)
    returns (ss': seq<Store>, es': seq<Event>)
    requires Tale(ss, es, row) && N.Upcoming(row, now, window) && row == Visit(row.start, row.end, row.status)
    ensures Tale(ss', es', row)
    ensures es' == es + [Event(now, ReminderJob(window))] && |ss'| == |ss| + 1 && ss'[..|ss|] == ss
    ensures var earlier, later := ss[|es|].notifications, ss'[|ss|].notifications;
            REMINDER in later && later[REMINDER] == if REMINDER in earlier then earlier[REMINDER] else Unread(now)
  {
    var s, e := ss[|es|], Event(now, ReminderJob(window));
    var s' := Apply(s, e);
    OtherMove(s, e);
    RemindEarns(s, e);
    RemindReceipts(s, e);
    ToldRow(s, e, s', row);
    RunGrowsBy(ss, es, e, s');
    ss', es' := ss + [s'], es + [e];
  }

  lemma ToldRow(s: Store, e: Event, s': Store, row: Booking)
    requires s.bookings == s'.bookings == map[VISIT := row] && row == Visit(row.start, row.end, row.status)
    requires Grows(s, e, s') && KeepsReceipts(s, e, s')
    requires e.req.ReminderJob? && N.Upcoming(row, e.now, e.req.window)
    ensures REMINDER in s'.notifications
    ensures s'.notifications[REMINDER] == if REMINDER in s.notifications then s.notifications[REMINDER]
          else Unread(e.now)
  {
    assert Earns(s, e, s', REMINDER);
  }

  ghost predicate NoReminder(s: Store) {
    forall u :: Key(u, VISIT, BookingReminder) !in s.notifications
  }

  ghost predicate NeverReminded(ss: seq<Store>) {
    forall m :: 0 <= m < |ss| ==> NoReminder(ss[m])
  }

  lemma NeverRemindedYet(ss: seq<Store>, ss': seq<Store>)
    requires NeverReminded(ss) && |ss'| == |ss| + 1 && ss'[..|ss|] == ss && NoReminder(ss'[|ss|])
    ensures NeverReminded(ss')
  {
    forall m | 0 <= m < |ss|
      ensures NoReminder(ss'[m])
    {
      assert ss'[m] == ss'[..|ss|][m];
    }
  }

  /** A run in which a booking is confirmed, two job runs `gap` apart step over its window, and nobody
      is reminded. */
  lemma MissedBooking(window: int, gap: int) returns (ss: seq<Store>, es: seq<Event>)
    requires 1 <= window < gap
    ensures Watched(ss, es, VISIT, window + 1, window, gap)
    ensures forall m :: 2 <= m < |ss| ==> ss[m].bookings == map[VISIT := Visit(window + 1, window + 2, Confirmed)]
    ensures NeverReminded(ss)
  {
    var confirm := B.BookingUpdate(None, None, None, Some(Confirmed));
    var pending, row := Visit(window + 1, window + 2, Pending), Visit(window + 1, window + 2, Confirmed);
    var ss1, es1 := OpenedTale(window + 1, window + 2);
    var ss2, es2 := PatchedTale(ss1, es1, pending, PROVIDER, confirm, row);
    NeverRemindedYet(ss1, ss2);
    var ss3, es3 := QuietTale(ss2, es2, row, 0, window);
    NeverRemindedYet(ss2, ss3);
    ss, es := QuietTale(ss3, es3, row, gap, window);
    NeverRemindedYet(ss3, ss);
    TwoRuns(ss, es, window, gap);
  }

  lemma TwoRuns(ss: seq<Store>, es: seq<Event>, window: int, gap: int)
    requires 1 <= window < gap && |ss| == 5 && |es| == 4
    requires es[0].now == es[1].now == es[2].now == 0 && es[3].now == gap
    requires !es[0].req.IsJob() && !es[1].req.IsJob() && es[2].req == es[3].req == ReminderJob(window)
    ensures Watching(ss, es, VISIT, window + 1, window, gap)
  {
    assert Reminds(es, 2, window) && Reminds(es, 3, window);
  }

  // ---------- The threshold ----------

  /** Every steady booking of every run with gaps within `gap` gets its reminders in time. */
  ghost predicate Guaranteed(window: int, gap: int) {
    forall ss, es, b, start :: Watched(ss, es, b, start, window, gap) ==>
                                 exists m :: RemindedBy(ss, es, b, start, window, m)
  }

  /** Reminder coverage is guaranteed exactly when the interval between runs is no longer than the
      reminder window. */
  lemma CoverageThreshold(window: int, gap: int)
    requires window >= 1
    ensures Guaranteed(window, gap) <==> gap <= window
  {
    if gap <= window {
      forall ss, es, b, start | Watched(ss, es, b, start, window, gap)
        ensures exists m :: RemindedBy(ss, es, b, start, window, m)
      {
        var m := JobReachesBooking(ss, es, b, start, window, gap);
      }
    } else {
      var ss, es := MissedBooking(window, gap);
      var b, start := VISIT, window + 1;
      forall m
        ensures !RemindedBy(ss, es, b, start, window, m)
      {
      }
      assert Watched(ss, es, b, start, window, gap);
    }
  }

  // ---------- Whether the reminder is of this start ----------

  lemma {:induction false} WrittenWhen(ss: seq<Store>, es: seq<Event>, k: Key, n: nat) returns (m: nat)
    requires LedgerRun(ss, es) && ReceiptRun(ss, es) && n < |ss| && k in ss[n].notifications
    ensures m < n && k !in ss[m].notifications && k in ss[m + 1].notifications
    ensures ss[n].notifications[k].createdAt == es[m].now
  {
    if n > 0 && k in ss[n - 1].notifications {
      m := WrittenWhen(ss, es, k, n - 1);
      ReceiptsSince(ss, es, k, n - 1, n);
    } else {
      m := n - 1;
      assert ReceiptsMove(ss[m], es[m], ss[m + 1]);
      assert ReceiptMove(ss[m], es[m], ss[m + 1], k);
    }
  }

  lemma AbsentBefore(ss: seq<Store>, es: seq<Event>, k: Key, m: nat, n: nat)
    requires ReceiptRun(ss, es) && m <= n < |ss| && k !in ss[n].notifications
    ensures k !in ss[m].notifications
  {
    if k in ss[m].notifications {
      ReceiptsSince(ss, es, k, m, n);
    }
  }

  lemma Earlier(es: seq<Event>, m: nat, n: nat)
    requires InOrder(es) && m < |es| && n < |es| && es[m].now < es[n].now
    ensures m < n
  {
  }

  /** A row was written at or after `opening` exactly when no event before left it in the store. */
  lemma WrittenSince(ss: seq<Store>, es: seq<Event>, k: Key, n: nat, opening: Instant)
    requires LedgerRun(ss, es) && ReceiptRun(ss, es) && InOrder(es) && n < |ss|
    requires k in ss[n].notifications
    ensures ss[n].notifications[k].createdAt >= opening <==>
            forall m :: 0 <= m < n && es[m].now < opening ==> k !in ss[m + 1].notifications
  {
    var w := WrittenWhen(ss, es, k, n);
    if es[w].now >= opening {
      forall m | 0 <= m < n && es[m].now < opening
        ensures k !in ss[m + 1].notifications
      {
        Earlier(es, m, w);
        AbsentBefore(ss, es, k, m + 1, w);
      }
    }
  }

  /** The run at `m`, with whatever window, found booking `b` due at the start it had then. */
  ghost predicate FoundDue(ss: seq<Store>, es: seq<Event>, m: nat, b: Id)
    requires m < |es| < |ss|
  {
    && es[m].req.ReminderJob? && b in ss[m].bookings && ss[m].bookings[b].status == Confirmed
    && es[m].now < ss[m].bookings[b].start <= es[m].now + es[m].req.window
  }

  lemma {:induction false} SameParticipants(ss: seq<Store>, es: seq<Event>, b: Id, m: nat, n: nat)
    requires BookingRun(ss, es) && m <= n < |ss| && b in ss[m].bookings
    ensures b in ss[n].bookings
    ensures ss[n].bookings[b].customer == ss[m].bookings[b].customer
    ensures ss[n].bookings[b].provider == ss[m].bookings[b].provider
  {
    if m < n {
      SameParticipants(ss, es, b, m, n - 1);
      assert BookingMove(ss[n - 1], es[n - 1], ss[n]);
    }
  }

  /** An earlier step earned the reminder of a participant exactly when it found the booking due. */
  lemma EarnedWhenDue(ss: seq<Store>, es: seq<Event>, b: Id, m: nat, n: nat, u: Id)
    requires BookingRun(ss, es) && m < n < |ss|
    requires b in ss[n].bookings && Participant(ss[n].bookings[b], u)
    ensures Earns(ss[m], es[m], ss[m + 1], Key(u, b, BookingReminder)) <==> FoundDue(ss, es, m, b)
  {
    assert BookingMove(ss[m], es[m], ss[m + 1]);
    if b in ss[m + 1].bookings {
      SameParticipants(ss, es, b, m + 1, n);
    }
  }

  /** A participant holds a reminder exactly when some earlier run found the booking due. */
  lemma ReminderWhenDue(ss: seq<Store>, es: seq<Event>, b: Id, r: nat, n: nat, u: Id)
    requires Run(ss, es) && r <= n < |ss|
    requires b in ss[n].bookings && Participant(ss[n].bookings[b], u)
    ensures Key(u, b, BookingReminder) in ss[r].notifications <==> exists i :: 0 <= i < r && FoundDue(ss, es, i, b)
  {
    StepsAreLawful(ss, es);
    var k := Key(u, b, BookingReminder);
    EarnedAt(ss, es, k, r);
    if i :| 0 <= i < r && Earns(ss[i], es[i], ss[i + 1], k) {
      EarnedWhenDue(ss, es, b, i, n, u);
    }
    if i :| 0 <= i < r && FoundDue(ss, es, i, b) {
      EarnedWhenDue(ss, es, b, i, n, u);
    }
  }

  /** Over every run, whatever is rescheduled and whenever the jobs run: a participant gets a reminder
      at or after step `r` (a reschedule, say) exactly when some run since then found the booking due
      and none before had, at whatever start the booking had at the time. */
  lemma RemindedSince(ss: seq<Store>, es: seq<Event>, b: Id, r: nat, n: nat, u: Id)
    requires Run(ss, es) && r <= n < |ss|
    requires b in ss[n].bookings && Participant(ss[n].bookings[b], u)
    ensures var k := Key(u, b, BookingReminder);
            k !in ss[r].notifications && k in ss[n].notifications <==>
            && (forall i :: 0 <= i < r ==> !FoundDue(ss, es, i, b))
            && (exists i :: r <= i < n && FoundDue(ss, es, i, b))
  {
    ReminderWhenDue(ss, es, b, r, n, u);
    ReminderWhenDue(ss, es, b, n, n, u);
  }

  /** No reminder before `opening` exactly when no run before `opening` found the booking due. */
  lemma NoneBefore(ss: seq<Store>, es: seq<Event>, b: Id, n: nat, u: Id, opening: Instant)
    requires Run(ss, es) && InOrder(es) && n < |ss|
    requires b in ss[n].bookings && Participant(ss[n].bookings[b], u)
    ensures (forall m :: 0 <= m < n && es[m].now < opening ==>
          Key(u, b, BookingReminder) !in ss[m + 1].notifications) <==>
            (forall m :: 0 <= m < n && es[m].now < opening ==> !FoundDue(ss, es, m, b))
  {
    StepsAreLawful(ss, es);
    var k := Key(u, b, BookingReminder);
    forall m | 0 <= m < n && es[m].now < opening
      ensures FoundDue(ss, es, m, b) ==> k in ss[m + 1].notifications
      ensures k in ss[m + 1].notifications ==> exists i :: 0 <= i <= m && es[i].now < opening && FoundDue(ss, es, i, b)
    {
      EarnedWhenDue(ss, es, b, m, n, u);
      EarnedAt(ss, es, k, m + 1);
      if i :| 0 <= i < m + 1 && Earns(ss[i], es[i], ss[i + 1], k) {
        EarnedWhenDue(ss, es, b, i, n, u);
        assert es[i].now <= es[m].now;
      }
    }
  }

  lemma WrittenInWindow(ss: seq<Store>, es: seq<Event>, b: Id, m: nat, opening: Instant, u: Id)
    requires Run(ss, es) && InOrder(es) && m < |es|
    requires b in ss[m + 1].bookings && Participant(ss[m + 1].bookings[b], u)
    requires Key(u, b, BookingReminder) in ss[m + 1].notifications
    ensures var k := Key(u, b, BookingReminder);
            && ss[m + 1].notifications[k].createdAt <= es[m].now
            && (opening <= ss[m + 1].notifications[k].createdAt <==>
                  forall i :: 0 <= i <= m && es[i].now < opening ==> !FoundDue(ss, es, i, b))
  {
    var k := Key(u, b, BookingReminder);
    StepsAreLawful(ss, es);
    WrittenSince(ss, es, k, m + 1, opening);
    NoneBefore(ss, es, b, m + 1, u, opening);
    var w := WrittenWhen(ss, es, k, m + 1);
    assert es[w].now <= es[m].now;
  }

  /** Covered as promised, both participants hold a reminder after a run in the window of the present
      start; and it was written in that window exactly when no run before the window opened had found
      the booking due, at the start it had then. If one had, its reminder is the only one there is. */
  lemma ReminderIsOfThisStart(ss: seq<Store>, es: seq<Event>, b: Id, start: Instant, window: int, gap: int, u: Id)
    returns (m: nat)
    requires Watched(ss, es, b, start, window, gap) && gap <= window
    ensures RemindedBy(ss, es, b, start, window, m)
    ensures Participant(ss[m + 1].bookings[b], u) ==>
              var k := Key(u, b, BookingReminder);
              && k in ss[m + 1].notifications
              && (start - window <= ss[m + 1].notifications[k].createdAt < start <==>
                  forall i :: 0 <= i <= m && es[i].now < start - window ==> !FoundDue(ss, es, i, b))
  {
    m := JobReachesBooking(ss, es, b, start, window, gap);
    assert Run(ss, es) && InOrder(es);
    if Participant(ss[m + 1].bookings[b], u) {
      WrittenInWindow(ss, es, b, m, start - window, u);
    }
  }

  /** Booked for 5, confirmed, reminded, and moved to `start`, all at instant 0. */
  lemma MovedTale(start: Instant) returns (ss: seq<Store>, es: seq<Event>)
    ensures Tale(ss, es, Visit(start, start + 1, Confirmed)) && |es| == 4
    ensures es[0].now == es[1].now == es[2].now == es[3].now == 0 && es[2].req == ReminderJob(10)
    ensures !es[0].req.IsJob() && !es[1].req.IsJob() && !es[3].req.IsJob()
    ensures VISIT in ss[3].bookings && ss[3].bookings[VISIT] == Visit(5, 6, Confirmed)
    ensures REMINDER in ss[3].notifications
    ensures REMINDER in ss[4].notifications && ss[4].notifications[REMINDER].createdAt == 0
  {
    var confirm := B.BookingUpdate(None, None, None, Some(Confirmed));
    var move := B.BookingUpdate(None, Some(start), Some(start + 1), None);
    var row := Visit(5, 6, Confirmed);
    var ss1, es1 := OpenedTale(5, 6);
    var ss2, es2 := PatchedTale(ss1, es1, Visit(5, 6, Pending), PROVIDER, confirm, row);
    var ss3, es3 := ToldTale(ss2, es2, row, 0, 10);
    ss, es := PatchedTale(ss3, es3, row, CUSTOMER, move, Visit(start, start + 1, Confirmed));
    assert ss[3] == ss3[3];
  }

  /** At short notice, moved to 9 inside the window of its new start, the reminder looks as if it were
      of the new start: its time lies in that window. It was written before the move. */
  lemma MovedAtShortNotice() returns (ss: seq<Store>, es: seq<Event>)
    ensures Tale(ss, es, Visit(9, 10, Confirmed)) && |es| == 4
    ensures VISIT in ss[3].bookings && ss[3].bookings[VISIT].start == 5
    ensures REMINDER in ss[3].notifications
    ensures REMINDER in ss[4].notifications && 9 - 10 <= ss[4].notifications[REMINDER].createdAt < 9
  {
    ss, es := MovedTale(9);
  }

  /** A run with gaps within the window, covered as promised, whose rescheduled booking has only the
      reminder written for its earlier start. */
  lemma RescheduledIsNotRemindedAgain() returns (ss: seq<Store>, es: seq<Event>)
    ensures Watched(ss, es, VISIT, 12, 10, 10)
    ensures REMINDER in ss[|es|].notifications && ss[|es|].notifications[REMINDER].createdAt < 12 - 10
  {
    var row := Visit(12, 13, Confirmed);
    var ss4, es4 := MovedTale(12);
    var ss5, es5 := ToldTale(ss4, es4, row, 10, 10);
    ss, es := QuietTale(ss5, es5, row, 20, 10);
    assert ss[4] == ss5[4] == ss4[4];
    ThreeRuns(ss, es);
  }

  lemma ThreeRuns(ss: seq<Store>, es: seq<Event>)
    requires |ss| == 7 && |es| == 6
    requires es[0].now == es[1].now == es[2].now == es[3].now == 0 && es[4].now == 10 && es[5].now == 20
    requires !es[0].req.IsJob() && !es[1].req.IsJob() && !es[3].req.IsJob()
    requires es[2].req == es[4].req == es[5].req == ReminderJob(10)
    requires VISIT in ss[4].bookings && ss[4].bookings[VISIT] == Visit(12, 13, Confirmed)
    ensures Watching(ss, es, VISIT, 12, 10, 10)
  {
    assert Reminds(es, 2, 10) && Reminds(es, 4, 10) && Reminds(es, 5, 10);
  }
}
