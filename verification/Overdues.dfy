/** When the overdue job tells of a booking, over whole runs. */
module Overdues {
  import opened Domain
  import opened Engine
  import opened Invariants
  import opened Runs
  import opened Reminders

  /** The job ran at `m`, strictly after the end the booking had then, while it was confirmed. */
  ghost predicate FoundOverdue(ss: seq<Store>, es: seq<Event>, m: nat, b: Id)
    requires m < |es| < |ss|
  {
    && es[m].req.OverdueJob? && b in ss[m].bookings && ss[m].bookings[b].status == Confirmed
    && ss[m].bookings[b].end < es[m].now
  }

  lemma EarnedWhenOverdue(ss: seq<Store>, es: seq<Event>, b: Id, m: nat, n: nat, u: Id)
    requires BookingRun(ss, es) && m < n < |ss|
    requires b in ss[n].bookings && Participant(ss[n].bookings[b], u)
    ensures Earns(ss[m], es[m], ss[m + 1], Key(u, b, BookingOverdue)) <==> FoundOverdue(ss, es, m, b)
  {
    assert BookingMove(ss[m], es[m], ss[m + 1]);
    if b in ss[m + 1].bookings {
      SameParticipants(ss, es, b, m + 1, n);
    }
  }

  /** Over every run, a participant holds an overdue notice exactly when some earlier run of the job came
      strictly after the end the booking then had, while it was confirmed. */
  lemma OverdueWhenPastEnd(ss: seq<Store>, es: seq<Event>, b: Id, r: nat, n: nat, u: Id)
    requires Run(ss, es) && r <= n < |ss|
    requires b in ss[n].bookings && Participant(ss[n].bookings[b], u)
    ensures Key(u, b, BookingOverdue) in ss[r].notifications <==> exists i :: 0 <= i < r && FoundOverdue(ss, es, i, b)
  {
    StepsAreLawful(ss, es);
    var k := Key(u, b, BookingOverdue);
    EarnedAt(ss, es, k, r);
    if i :| 0 <= i < r && Earns(ss[i], es[i], ss[i + 1], k) {
      EarnedWhenOverdue(ss, es, b, i, n, u);
    }
    if i :| 0 <= i < r && FoundOverdue(ss, es, i, b) {
      EarnedWhenOverdue(ss, es, b, i, n, u);
    }
  }

  /** A run of the job after the end of a booking that is confirmed leaves both participants a notice, in
      every later state. */
  lemma PastEndTellsBoth(ss: seq<Store>, es: seq<Event>, b: Id, m: nat, n: nat)
    requires Run(ss, es) && m < n < |ss|
    requires es[m].req == OverdueJob && b in ss[m].bookings && ss[m].bookings[b].status == Confirmed
    requires es[m].now > ss[m].bookings[b].end
    ensures b in ss[n].bookings
    ensures Key(ss[n].bookings[b].customer, b, BookingOverdue) in ss[n].notifications
    ensures Key(ss[n].bookings[b].provider, b, BookingOverdue) in ss[n].notifications
  {
    StepsAreLawful(ss, es);
    SameParticipants(ss, es, b, m, n);
    assert FoundOverdue(ss, es, m, b);
    OverdueWhenPastEnd(ss, es, b, n, n, ss[n].bookings[b].customer);
    OverdueWhenPastEnd(ss, es, b, n, n, ss[n].bookings[b].provider);
  }

  /** A run at or before the end, or of a booking that is not confirmed, writes no notice of it. */
  lemma UpToEndTellsNobody(ss: seq<Store>, es: seq<Event>, b: Id, m: nat, u: Id)
    requires Run(ss, es) && m < |es| && b in ss[m].bookings
    requires es[m].now <= ss[m].bookings[b].end || ss[m].bookings[b].status != Confirmed
    ensures Key(u, b, BookingOverdue) in ss[m + 1].notifications <==> Key(u, b, BookingOverdue) in ss[m].notifications
  {
    StepsAreLawful(ss, es);
    assert BookingMove(ss[m], es[m], ss[m + 1]) && Grows(ss[m], es[m], ss[m + 1]);
  }
}
