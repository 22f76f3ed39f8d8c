/** The provider's calendar: what the availability answer means, and how much time runs can book. */
module ProviderCalendar {
  import opened Domain
  import opened Rules
  import opened Engine
  import opened Invariants
  import opened Runs
  import B = BookingSpec

  predicate Covers(b: Booking, t: Instant) {
    b.start <= t < b.end
  }

  /** At instant `t` the provider is inside one of its active bookings other than the excluded one. */
  ghost predicate Busy(s: Store, provider: Id, t: Instant, exclude: Option<Id>) {
    exists i :: i in s.bookings && BusyWith(s.bookings[i], provider, t, exclude)
  }

  predicate BusyWith(b: Booking, provider: Id, t: Instant, exclude: Option<Id>) {
    b.provider == provider && b.status != Cancelled && Covers(b, t) && exclude != Some(b.id)
  }

  // ---------- Availability ----------

  function CheckProviderAvailability(s: Store, provider: Id, start: Instant, end: Instant): Result<bool> {
    if provider !in s.users then Failure(NotFound)
    else if s.users[provider].role != Provider then Failure(BadRequest)
    else Success(Available(s.bookings, provider, start, end, None))
  }

  /** For a nonempty slot the overlap query answers "free" exactly when the provider is busy at no
      instant of the slot, the excluded booking aside; touching bookings do not count. */
  lemma AvailabilityIsExact(s: Store, provider: Id, start: Instant, end: Instant, exclude: Option<Id>)
    requires BookingTables(s) && start < end
    ensures Available(s.bookings, provider, start, end, exclude) <==>
            forall t :: start <= t < end ==> !Busy(s, provider, t, exclude)
  {
    if t :| start <= t < end && Busy(s, provider, t, exclude) {
      var i :| i in s.bookings && BusyWith(s.bookings[i], provider, t, exclude);
      assert Conflicts(s.bookings[i], provider, start, end, exclude);
    }
    if !Available(s.bookings, provider, start, end, exclude) {
      var i :| i in s.bookings && Conflicts(s.bookings[i], provider, start, end, exclude);
      var t := if s.bookings[i].start < start then start else s.bookings[i].start;
      assert BusyWith(s.bookings[i], provider, t, exclude) && Busy(s, provider, t, exclude);
    }
  }

  /** What the availability endpoint answers is what a booking request by any other user would meet:
      free exactly when the request is not refused for a conflict. */
  lemma AvailabilityPredictsBooking(s: Store, newId: Id, customer: Id, input: B.BookingCreate, now: Instant)
    requires customer != input.provider
    ensures var answer := CheckProviderAvailability(s, input.provider, input.start, input.end);
            var booked := B.Create(s, newId, customer, input, now).result;
            && (answer == Success(false) <==> booked == Failure(Conflict))
            && (answer.Failure? ==> booked == Failure(answer.error))
  {
  }

  /** Two booking tables that differ in one booking, which is cancelled in one and absent from the
      other, give the same answer to every availability query. */
  lemma CancelledNeverConflicts(before: map<Id, Booking>, after: map<Id, Booking>, id: Id)
    requires id !in before && id in after && !Active(after[id])
    requires forall i :: i in after <==> i in before || i == id
    requires forall i :: i in before ==> after[i] == before[i]
    ensures forall p, x, y, e :: Available(after, p, x, y, e) <==> Available(before, p, x, y, e)
  {
    forall p, x, y, e
      ensures Available(after, p, x, y, e) <==> Available(before, p, x, y, e)
    {
      if Available(before, p, x, y, e) {
        forall i | i in after
          ensures !Conflicts(after[i], p, x, y, e)
        {
          if i != id {
            assert !Conflicts(before[i], p, x, y, e);
          }
        }
      } else {
        var i :| i in before && Conflicts(before[i], p, x, y, e);
        assert Conflicts(after[i], p, x, y, e);
      }
    }
  }

  /** Creating a booking and then cancelling or deleting it leaves every availability answer, for
      every provider, slot and exclusion, as it was. */
  lemma CancellationFreesTheSlot(s: Store, id: Id, customer: Id, input: B.BookingCreate, user: User, now: Instant,
                                 later: Instant)
    requires B.Create(s, id, customer, input, now).result.Success?
    ensures var s1 := B.Create(s, id, customer, input, now).store;
            var cancelled, deleted := B.Cancel(s1, id, user, later), B.Delete(s1, id, user, later);
            && (cancelled.result.Success? ==>
                  forall p, x, y, e :: Available(cancelled.store.bookings, p, x, y, e) <==>
                        Available(s.bookings, p, x, y, e))
            && (deleted.result.Success? ==>
                  forall p, x, y, e :: Available(deleted.store.bookings, p, x, y, e) <==>
                        Available(s.bookings, p, x, y, e))
  {
    var s1 := B.Create(s, id, customer, input, now).store;
    CancelledNeverConflicts(s.bookings, B.Withdrawn(s1, id, user, later).bookings, id);
  }

  // ---------- Capacity ----------

  /** The part of a booking inside the window [lo, hi). */
  function Clip(b: Booking, lo: Instant, hi: Instant): nat {
    var from, to := if b.start > lo then b.start else lo, if b.end < hi then b.end else hi;
    if from < to then to - from else 0
  }

  function BookedTime(rows: seq<Booking>, lo: Instant, hi: Instant): nat {
    if rows == [] then 0 else Clip(rows[0], lo, hi) + BookedTime(rows[1..], lo, hi)
  }

  function CoverCount(rows: seq<Booking>, t: Instant): nat {
    if rows == [] then 0 else (if Covers(rows[0], t) then 1 else 0) + CoverCount(rows[1..], t)
  }

  /** `rows` are pairwise disjoint bookings. */
  ghost predicate AllApart(rows: seq<Booking>) {
    forall m, n :: 0 <= m < n < |rows| ==> Apart(rows[m], rows[n])
  }

  lemma {:induction false} NoneCover(rows: seq<Booking>, t: Instant)
    requires forall n :: 0 <= n < |rows| ==> !Covers(rows[n], t)
    ensures CoverCount(rows, t) == 0
  {
    if rows != [] {
      NoneCover(rows[1..], t);
    }
  }

  lemma {:induction false} AtMostOneCovers(rows: seq<Booking>, t: Instant)
    requires AllApart(rows)
    ensures CoverCount(rows, t) <= 1
  {
    if rows != [] {
      if Covers(rows[0], t) {
        forall n | 0 <= n < |rows[1..]|
          ensures !Covers(rows[1..][n], t)
        {
          assert Apart(rows[0], rows[n + 1]);
        }
        NoneCover(rows[1..], t);
      } else {
        AtMostOneCovers(rows[1..], t);
      }
    }
  }

  /** Widening the window by one instant adds the bookings that cover it. */
  lemma {:induction false} WindowGrows(rows: seq<Booking>, lo: Instant, hi: Instant)
    requires lo <= hi
    ensures BookedTime(rows, lo, hi + 1) == BookedTime(rows, lo, hi) + CoverCount(rows, hi)
  {
    if rows != [] {
      WindowGrows(rows[1..], lo, hi);
    }
  }

  lemma {:induction false} EmptyWindow(rows: seq<Booking>, lo: Instant)
    ensures BookedTime(rows, lo, lo) == 0
  {
    if rows != [] {
      EmptyWindow(rows[1..], lo);
    }
  }

  lemma {:induction false} BookedTimeBound(rows: seq<Booking>, lo: Instant, hi: Instant)
    requires AllApart(rows) && lo <= hi
    ensures BookedTime(rows, lo, hi) <= hi - lo
    decreases hi - lo
  {
    if lo == hi {
      EmptyWindow(rows, lo);
    } else {
      BookedTimeBound(rows, lo, hi - 1);
      WindowGrows(rows, lo, hi - 1);
      AtMostOneCovers(rows, hi - 1);
    }
  }

  /** `rows` are active bookings of the provider, each listed once. */
  ghost predicate ActiveRows(s: Store, provider: Id, rows: seq<Booking>) {
    && (forall n :: 0 <= n < |rows| ==>
          rows[n].id in s.bookings && s.bookings[rows[n].id] == rows[n] && rows[n].provider == provider
              && rows[n].status != Cancelled)
    && (forall m, n :: 0 <= m < n < |rows| ==> rows[m].id != rows[n].id)
  }

  /** In every state of every run, for every provider and window, the time its active bookings take
      of the window, all added up, is at most the length of the window; and no instant lies in two
      of them. */
  lemma CalendarCapacity(ss: seq<Store>, es: seq<Event>, n: nat, provider: Id, rows: seq<Booking>, lo: Instant,
                         hi: Instant)
    requires Run(ss, es) && n < |ss|
    requires ActiveRows(ss[n], provider, rows) && lo <= hi
    ensures BookedTime(rows, lo, hi) <= hi - lo
    ensures forall t :: CoverCount(rows, t) <= 1
  {
    SoundAt(ss, es, n);
    RowsApart(ss[n], provider, rows);
    BookedTimeBound(rows, lo, hi);
    forall t
      ensures CoverCount(rows, t) <= 1
    {
      AtMostOneCovers(rows, t);
    }
  }

  lemma RowsApart(s: Store, provider: Id, rows: seq<Booking>)
    requires Calendar(s) && ActiveRows(s, provider, rows)
    ensures AllApart(rows)
  {
    forall m, n | 0 <= m < n < |rows|
      ensures Apart(rows[m], rows[n])
    {
      assert rows[m].id != rows[n].id;
    }
  }
}
