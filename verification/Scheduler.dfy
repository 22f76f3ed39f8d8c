/** The in-process scheduler: its fields, its loop, and what a tick does to the store. */
module Scheduler {
  import opened Domain
  import opened Requests
  import opened Sessions
  import opened P = SchedulerProtocol
  import E = Engine
  import N = NotificationSpec
  import NotificationService

  class BackgroundJobScheduler {
    var task: Option<nat>
    var running: bool
    // The event loop's side.
    var live: set<nat>
    var created: nat

    /** The scheduler between calls: no stop is in progress. */
    ghost function View(): P.State
      reads this
    {
      P.State(task, running, live, created, None)
    }

    constructor ()
      ensures View() == P.INITIAL
    {
      task, running, live, created := None, false, {}, 0;
    }

    method IsRunning() returns (r: bool)
      ensures r == P.IsRunning(View())
    {
      r := running && task.Some? && task.value in live;
    }

    method Start(hasLoop: bool)
      requires P.Inv(View())
      modifies this
      ensures View() == P.Next(old(View()), P.Start(hasLoop))
      ensures P.Inv(View())
      ensures hasLoop ==> P.IsRunning(View())
    {
      P.InvKept(View(), P.Start(hasLoop));
      var already := IsRunning();
      if already {
        return;
      }
      if !hasLoop {
        return;
      }
      running := true;
      task := Some(created);
      live := live + {created};
      created := created + 1;
    }

    /** A stop that completes without a start in between. */
    method Stop()
      requires P.Inv(View())
      modifies this
      ensures P.Inv(View()) && live == {} && task == None && !running
      ensures var waiting := P.Next(old(View()), P.BeginStop);
              View() == if waiting.awaited.None? then waiting else P.Next(waiting, P.EndStop)
    {
      ghost var q := View();
      P.InvKept(q, P.BeginStop);
      P.Agreement(q);
      if !running && task.None? {
        return;
      }
      running := false;
      if task.Some? {
        P.StoppedIsEmpty(P.Next(q, P.BeginStop));
        live := live - {task.value};
        task := None;
      }
    }

    /** The loop of a task whose scheduler stays as it is for the given ticks: it works them all off
        while running, whatever fails in them, and nothing once stopped. */
    method RunLoop(base: Database, window: int, ticks: seq<Tick>)
      requires BookingTables(base.store)
      modifies base
      ensures base.store == if running then AfterTicks(old(base.store), window, ticks) else old(base.store)
    {
      ghost var s := base.store;
      var n := 0;
      while n < |ticks| && running
        invariant 0 <= n <= |ticks| && (!running ==> n == 0)
        invariant BookingTables(base.store)
        invariant base.store == AfterTicks(s, window, ticks[..n])
      {
        ghost var before := base.store;
        ExecuteJobs(base, window, ticks[n]);
        TickKeepsBookings(before, window, ticks[n]);
        assert ticks[..n + 1][..n] == ticks[..n];
        n := n + 1;
      }
      assert ticks[..|ticks|] == ticks;
    }
  }

  // ---------- One tick ----------

  function ReminderCost(s: Store, now: Instant, window: int): nat {
    2 + 2 * |N.UpcomingIds(s, now, window)|
  }

  function OverdueCost(s: Store, now: Instant): nat {
    2 + 2 * |N.OverdueIds(s, now)|
  }

  /** The store after a reminder run over a connection. */
  function AfterReminder(s: Store, now: Instant, window: int, link: Link): Store {
    if !Commits(link, ReminderCost(s, now, window)) then s else N.Remind(s, now, window).store
  }

  function AfterOverdue(s: Store, now: Instant, link: Link): Store {
    if !Commits(link, OverdueCost(s, now)) then s else N.Chase(s, now).store
  }

  method RunReminder(base: Database, now: Instant, window: int, link: Link)
    requires BookingTables(base.store)
    modifies base
    ensures base.store == AfterReminder(old(base.store), now, window, link)
  {
    var session := new Session(base, now, link);
    var processed := NotificationService.RunBookingReminderJob(session, window);
    session.Rollback();
  }

  method RunOverdue(base: Database, now: Instant, link: Link)
    requires BookingTables(base.store)
    modifies base
    ensures base.store == AfterOverdue(old(base.store), now, link)
  {
    var session := new Session(base, now, link);
    var processed := NotificationService.RunOverdueBookingJob(session);
    session.Rollback();
  }

  /** When each of the two jobs of a tick runs, and over which connection. */
  datatype Tick = Tick(first: Instant, firstLink: Link, second: Instant, secondLink: Link)

  function AfterTick(s: Store, window: int, t: Tick): Store {
    AfterOverdue(AfterReminder(s, t.first, window, t.firstLink), t.second, t.secondLink)
  }

  function AfterTicks(s: Store, window: int, ticks: seq<Tick>): Store {
    if ticks == [] then s else AfterTick(AfterTicks(s, window, ticks[..|ticks| - 1]), window, ticks[|ticks| - 1])
  }

  /** With connections that last, a tick is the reminder job and then the overdue job; with one that is
      lost at once, it is the other job alone. */
  lemma TickRunsBoth(s: Store, window: int, t: Tick)
    ensures var remind, chase := E.Event(t.first, E.ReminderJob(window)), E.Event(t.second, E.OverdueJob);
            var middle := E.Apply(s, remind);
            && (t.firstLink.trips >= ReminderCost(s, t.first, window)
                && t.secondLink.trips >= OverdueCost(middle, t.second) ==>
                  AfterTick(s, window, t) == E.Apply(middle, chase))
            && (t.firstLink == Link(0, false) && t.secondLink.trips >= OverdueCost(s, t.second) ==>
                  AfterTick(s, window, t) == E.Apply(s, chase))
            && (t.firstLink.trips >= ReminderCost(s, t.first, window) && t.secondLink == Link(0, false) ==>
                  AfterTick(s, window, t) == middle)
  {
  }

  lemma TickKeepsBookings(s: Store, window: int, t: Tick)
    ensures AfterTick(s, window, t).bookings == s.bookings && AfterTick(s, window, t).users == s.users
  {
    ReminderKeepsBookings(s, t.first, window, t.firstLink);
    OverdueKeepsBookings(AfterReminder(s, t.first, window, t.firstLink), t.second, t.secondLink);
  }

  lemma ReminderKeepsBookings(s: Store, now: Instant, window: int, link: Link)
    ensures var s' := AfterReminder(s, now, window, link); s'.bookings == s.bookings && s'.users == s.users
  {
    E.OtherMove(s, E.Event(now, E.ReminderJob(window)));
  }

  lemma OverdueKeepsBookings(s: Store, now: Instant, link: Link)
    ensures var s' := AfterOverdue(s, now, link); s'.bookings == s.bookings && s'.users == s.users
  {
    E.OtherMove(s, E.Event(now, E.OverdueJob));
  }

  /** Each job has its own session: one that raises, at any round trip, leaves no trace unless its commit was
      applied, and does not keep the other from its whole effect. */
  method ExecuteJobs(base: Database, window: int, t: Tick)
    requires BookingTables(base.store)
    modifies base
    ensures base.store == AfterTick(old(base.store), window, t)
  {
    ghost var s := base.store;
    RunReminder(base, t.first, window, t.firstLink);
    ReminderKeepsBookings(s, t.first, window, t.firstLink);
    RunOverdue(base, t.second, t.secondLink);
  }

  // ---------- The ticks as events of the engine ----------

  function ApplyAll(s: Store, es: seq<E.Event>): Store {
    if es == [] then s else E.Apply(ApplyAll(s, es[..|es| - 1]), es[|es| - 1])
  }

  /** The runs of one tick that committed: those whose commit was applied. */
  function ReminderRun(s: Store, window: int, t: Tick): seq<E.Event> {
    if !Commits(t.firstLink, ReminderCost(s, t.first, window)) then [] else [E.Event(t.first, E.ReminderJob(window))]
  }

  function OverdueRun(s: Store, t: Tick): seq<E.Event> {
    if !Commits(t.secondLink, OverdueCost(s, t.second)) then [] else [E.Event(t.second, E.OverdueJob)]
  }

  function Committed(s: Store, window: int, ticks: seq<Tick>): seq<E.Event> {
    if ticks == [] then [] else
    var t, before := ticks[|ticks| - 1], AfterTicks(s, window, ticks[..|ticks| - 1]);
    Committed(s, window, ticks[..|ticks| - 1])
    + ReminderRun(before, window, t)
    + OverdueRun(AfterReminder(before, t.first, window, t.firstLink), t)
  }

  lemma ApplyOneMore(s: Store, es: seq<E.Event>, e: E.Event)
    ensures ApplyAll(s, es + [e]) == E.Apply(ApplyAll(s, es), e)
    ensures ApplyAll(s, es + []) == ApplyAll(s, es)
  {
    assert (es + [e])[..|es|] == es && es + [] == es;
  }

  lemma ReminderRunApplies(s: Store, es: seq<E.Event>, window: int, t: Tick)
    ensures var before := ApplyAll(s, es);
            ApplyAll(s, es + ReminderRun(before, window, t)) == AfterReminder(before, t.first, window, t.firstLink)
  {
    ApplyOneMore(s, es, E.Event(t.first, E.ReminderJob(window)));
  }

  lemma OverdueRunApplies(s: Store, es: seq<E.Event>, t: Tick)
    ensures var before := ApplyAll(s, es);
            ApplyAll(s, es + OverdueRun(before, t)) == AfterOverdue(before, t.second, t.secondLink)
  {
    ApplyOneMore(s, es, E.Event(t.second, E.OverdueJob));
  }

  /** Whatever fails in whichever tick, the loop leaves the store where the engine arrives by exactly
      the job runs that committed, with the bookings it started from. */
  lemma {:induction false} LoopIsItsCommittedRuns(s: Store, window: int, ticks: seq<Tick>)
    ensures AfterTicks(s, window, ticks) == ApplyAll(s, Committed(s, window, ticks))
    ensures AfterTicks(s, window, ticks).bookings == s.bookings
  {
    if ticks != [] {
      var t, earlier := ticks[|ticks| - 1], ticks[..|ticks| - 1];
      var before := AfterTicks(s, window, earlier);
      LoopIsItsCommittedRuns(s, window, earlier);
      TickKeepsBookings(before, window, t);
      var es := Committed(s, window, earlier);
      ReminderRunApplies(s, es, window, t);
      OverdueRunApplies(s, es + ReminderRun(before, window, t), t);
    }
  }
}
