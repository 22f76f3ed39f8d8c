/** The services over one database: whatever requests arrive and whichever connections are lost, the
    committed store is where a run of the engine has arrived. */
module Platform {
  import opened Counting
  import opened Domain
  import opened Engine
  import opened Invariants
  import opened Requests
  import opened Runs
  import opened Sessions
  import BookingService
  import N = NotificationSpec
  import NotificationService
  import ReviewService

  class Platform {
    const base: Database
    ghost var states: seq<Store>
    ghost var events: seq<Event>

    ghost predicate Valid()
      reads this, base
    {
      Run(states, events) && base.store == states[|events|]
    }

    constructor (users: map<Id, User>)
      requires forall i :: i in users ==> users[i].id == i
      ensures Valid() && base.store == Start(users) && events == []
    {
      base := new Database(Start(users));
      states, events := [Start(users)], [];
    }

    /** One request or job run over one connection: either it leaves no trace, or it is the next event
        of the run; it is the latter whenever it is not answered with an error. `count` is the number a
        job answers: the rows its run added, or nothing when it is answered with an error. */
    method Handle(now: Instant, req: Request, link: Link) returns (ok: bool, count: nat)
      requires Valid()
      modifies this`states, this`events, base
      ensures Valid()
      ensures || (states == old(states) && events == old(events) && base.store == old(base.store))
              || (&& events == old(events) + [Event(now, req)]
                  && states == old(states) + [base.store]
                  && base.store == Apply(old(base.store), Event(now, req)))
      ensures ok ==> events == old(events) + [Event(now, req)]
      ensures count == if ok && req.IsJob() then Announced(old(base.store), Event(now, req)) else 0
      ensures |JobRows(base.store)| >= |JobRows(old(base.store))| + count
      ensures ok || !req.IsJob() ==> |JobRows(base.store)| == |JobRows(old(base.store))| + count
    {
      ghost var before := base.store;
      count := 0;
      SoundAt(states, events, |events|);
      AnnouncedIsGrowth(before, Event(now, req));
      JobRowsOnlyGrow(before, Event(now, req));
      var db := new Session(base, now, link);
      if req.ReminderJob? || req.OverdueJob? {
        ok, count := RunJob(db, req);
      } else if req.actor !in base.store.users {
        return false, 0;
      } else {
        ok := Dispatch(db, req, base.store.users[req.actor]);
      }
      if ok || base.store != before {
        Follow(Event(now, req), before);
      }
    }

    /** The database has moved on by the event `e`. */
    ghost method Follow(e: Event, before: Store)
      requires Run(states, events) && states[|events|] == before && base.store == Apply(before, e)
      modifies this`states, this`events
      ensures Valid()
      ensures events == old(events) + [e] && states == old(states) + [base.store]
    {
      RunGrowsBy(states, events, e, base.store);
      states, events := states + [base.store], events + [e];
    }

    /** Any sequence of them: the committed store goes through the states of the run and no others. The
        events of the run are a subsequence of the requests, in the order received, and contain every
        request not answered with an error. What the jobs answered adds up to at most the growth of
        the rows they write, exactly to it if every job was answered, and stays within four per
        booking. */
    method HandleAll(inputs: seq<(Event, Link)>) returns (answers: seq<bool>, total: nat, ghost picks: seq<nat>)
      requires Valid()
      modifies this`states, this`events, base
      ensures Valid()
      ensures old(states) <= states && old(events) <= events
      ensures Selected(inputs, |inputs|, answers, events[|old(events)|..], picks)
      ensures |JobRows(old(base.store))| + total <= |JobRows(base.store)| <= 4 * |base.store.bookings|
      ensures AllAnswered(inputs, |inputs|, answers) ==> |JobRows(old(base.store))| + total == |JobRows(base.store)|
    {
      answers, total, picks := [], 0, [];
      ghost var rows, added := |JobRows(base.store)|, [];
      for n := 0 to |inputs|
        invariant Valid()
        invariant old(states) <= states && events == old(events) + added
        invariant Selected(inputs, n, answers, added, picks)
        invariant Balanced(inputs, n, answers, rows, total, |JobRows(base.store)|)
      {
        ghost var before := |JobRows(base.store)|;
        ghost var logged;
        var ok, count;
        ok, count, logged := HandleOne(inputs[n].0, inputs[n].1);
        SelectedOneMore(inputs, n, answers, added, picks, ok, logged);
        BalancedOneMore(inputs, n, answers, rows, total, before, ok, count, |JobRows(base.store)|);
        answers, total := answers + [ok], total + count;
        picks, added := picks + if logged then [n] else [], added + if logged then [inputs[n].0] else [];
      }
      assert events[|old(events)|..] == added;
      SoundAt(states, events, |events|);
      JobRowBound(base.store);
    }

    method HandleOne(e: Event, link: Link) returns (ok: bool, count: nat, ghost logged: bool)
      requires Valid()
      modifies this`states, this`events, base
      ensures Valid()
      ensures old(states) <= states && events == old(events) + if logged then [e] else []
      ensures ok ==> logged
      ensures |JobRows(base.store)| >= |JobRows(old(base.store))| + count
      ensures ok || !e.req.IsJob() ==> |JobRows(base.store)| == |JobRows(old(base.store))| + count
    {
      ok, count := Handle(e.now, e.req, link);
      logged := events != old(events);
    }
  }

  /** `total` is at most the growth of the rows, and equal to it if every job was answered. */
  ghost predicate Balanced(inputs: seq<(Event, Link)>, n: nat, answers: seq<bool>, first: nat, total: nat, rows: nat)
    requires n == |answers| <= |inputs|
  {
    first + total <= rows && (AllAnswered(inputs, n, answers) ==> first + total == rows)
  }

  lemma BalancedOneMore(inputs: seq<(Event, Link)>, n: nat, answers: seq<bool>, first: nat, total: nat, rows: nat,
                        ok: bool, count: nat, rows': nat)
    requires n == |answers| < |inputs| && Balanced(inputs, n, answers, first, total, rows)
    requires rows' >= rows + count
    requires ok || !inputs[n].0.req.IsJob() ==> rows' == rows + count
    ensures Balanced(inputs, n + 1, answers + [ok], first, total + count, rows')
  {
    var longer := answers + [ok];
    if AllAnswered(inputs, n + 1, longer) {
      assert inputs[n].0.req.IsJob() ==> longer[n];
      forall m | 0 <= m < n && inputs[m].0.req.IsJob()
        ensures answers[m]
      {
        assert longer[m];
      }
    }
  }

  /** Every job among the first `n` requests was answered without error. */
  ghost predicate AllAnswered(inputs: seq<(Event, Link)>, n: nat, answers: seq<bool>)
    requires n == |answers| <= |inputs|
  {
    forall m :: 0 <= m < n && inputs[m].0.req.IsJob() ==> answers[m]
  }

  ghost predicate Picked(picks: seq<nat>, m: nat) {
    exists k :: 0 <= k < |picks| && picks[k] == m
  }

  /** `added` are the requests at the positions `picks` among the first `n`, in order, and no request
      answered without error is missing. */
  ghost predicate Selected(inputs: seq<(Event, Link)>, n: nat, answers: seq<bool>, added: seq<Event>, picks: seq<nat>) {
    && n == |answers| <= |inputs| && |added| == |picks|
    && (forall k :: 0 <= k < |picks| ==> picks[k] < n && added[k] == inputs[picks[k]].0)
    && (forall k, l :: 0 <= k < l < |picks| ==> picks[k] < picks[l])
    && (forall m :: 0 <= m < n && answers[m] ==> Picked(picks, m))
  }

  lemma SelectedOneMore(inputs: seq<(Event, Link)>, n: nat, answers: seq<bool>, added: seq<Event>, picks: seq<nat>,
                        ok: bool, logged: bool)
    requires n < |inputs| && Selected(inputs, n, answers, added, picks) && (ok ==> logged)
    ensures Selected(inputs, n + 1, answers + [ok], added + if logged then [inputs[n].0] else [],
                     picks + if logged then [n] else [])
  {
    var picks' := picks + if logged then [n] else [];
    forall m | 0 <= m <= n && (answers + [ok])[m]
      ensures Picked(picks', m)
    {
      if m < n {
        var k :| 0 <= k < |picks| && picks[k] == m;
        assert picks'[k] == m;
      } else {
        assert picks'[|picks|] == m;
      }
    }
  }

  ghost predicate Traceless(before: Store, after: Store, done: Store, ok: bool) {
    (after == before || after == done) && (ok ==> after == done)
  }

  function Count(r: Result<nat>): nat {
    if r.Success? then r.value else 0
  }

  method RunReminder(db: Session, window: int) returns (r: Result<nat>)
    requires db.Opened() && Integrity(db.tx)
    modifies db, db.base
    ensures var o := N.Remind(old(db.tx), db.now, window);
            Traceless(old(db.tx), db.base.store, o.store, r.Success?) && (r.Success? ==> r == o.result)
  {
    r := NotificationService.RunBookingReminderJob(db, window);
  }

  method RunOverdue(db: Session) returns (r: Result<nat>)
    requires db.Opened() && Integrity(db.tx)
    modifies db, db.base
    ensures var o := N.Chase(old(db.tx), db.now);
            Traceless(old(db.tx), db.base.store, o.store, r.Success?) && (r.Success? ==> r == o.result)
  {
    r := NotificationService.RunOverdueBookingJob(db);
  }

  method RunJob(db: Session, req: Request) returns (ok: bool, count: nat)
    requires db.Opened() && Integrity(db.tx) && req.IsJob()
    modifies db, db.base
    ensures Traceless(old(db.tx), db.base.store, Apply(old(db.tx), Event(db.now, req)), ok)
    ensures count == if ok then Announced(old(db.tx), Event(db.now, req)) else 0
  {
    if req.ReminderJob? {
      var r := RunReminder(db, req.window);
      return r.Success?, Count(r);
    } else {
      var r := RunOverdue(db);
      return r.Success?, Count(r);
    }
  }

  method Dispatch(db: Session, req: Request, user: User) returns (ok: bool)
    requires db.Opened() && Integrity(db.tx) && !req.IsJob()
    modifies db, db.base
    ensures Traceless(old(db.tx), db.base.store, Answer(old(db.tx), db.now, req, user), ok)
  {
    if req.WritesBooking() {
      ok := DispatchBooking(db, req, user);
    } else if req.MarkRead? || req.MarkAllRead? {
      ok := DispatchNotification(db, req, user);
    } else {
      ok := DispatchReview(db, req, user);
    }
  }

  method DispatchBooking(db: Session, req: Request, user: User) returns (ok: bool)
    requires db.Opened() && Integrity(db.tx) && req.WritesBooking()
    modifies db, db.base
    ensures Traceless(old(db.tx), db.base.store, Answer(old(db.tx), db.now, req, user), ok)
  {
    match req
    case CreateBooking(_, newId, input) =>
      var r := BookingService.CreateBooking(db, newId, user.id, input);
      ok := r.Success?;
    case UpdateBooking(_, id, upd) =>
      var r := BookingService.UpdateBooking(db, id, upd, user);
      ok := r.Success?;
    case CancelBooking(_, id) =>
      var r := BookingService.CancelBooking(db, id, user);
      ok := r.Success?;
    case DeleteBooking(_, id) =>
      var r := BookingService.DeleteBooking(db, id, user);
      ok := r.Success?;
  }

  method DispatchReview(db: Session, req: Request, user: User) returns (ok: bool)
    requires db.Opened() && Integrity(db.tx)
    requires req.CreateReview? || req.UpdateReview? || req.DeleteReview?
    modifies db, db.base
    ensures Traceless(old(db.tx), db.base.store, Answer(old(db.tx), db.now, req, user), ok)
  {
    match req
    case CreateReview(_, newId, booking, rating, comment) =>
      var r := ReviewService.CreateReview(db, newId, user, booking, rating, comment);
      ok := r.Success?;
    case UpdateReview(_, id, rating, comment) =>
      var r := ReviewService.UpdateReview(db, id, rating, comment, user);
      ok := r.Success?;
    case DeleteReview(_, id) =>
      var r := ReviewService.DeleteReview(db, id, user);
      ok := r.Success?;
  }

  method DispatchNotification(db: Session, req: Request, user: User) returns (ok: bool)
    requires db.Opened() && Integrity(db.tx) && (req.MarkRead? || req.MarkAllRead?)
    modifies db, db.base
    ensures Traceless(old(db.tx), db.base.store, Answer(old(db.tx), db.now, req, user), ok)
  {
    if req.MarkRead? {
      var r := NotificationService.MarkNotificationAsRead(db, req.key, user.id);
      ok := r.Success?;
    } else {
      var r := NotificationService.MarkAllAsRead(db, user.id);
      ok := r.Success?;
    }
  }
}
