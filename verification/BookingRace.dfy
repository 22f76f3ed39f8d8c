/** Bookings when the overlap check and the insert of different requests interleave, with each other and
    with every other request: no lock is taken and no constraint decides. */
module BookingRace {
  import opened Domain
  import opened Rules
  import opened Engine
  import opened Invariants
  import opened Runs
  import B = BookingSpec

  /** A booking request whose checks have passed, on the store `checked`, and whose insert is still to
      come. */
  datatype Draft = Draft(id: Id, customer: Id, input: B.BookingCreate, checked: Store)

  datatype World = World(store: Store, drafts: seq<Draft>)

  datatype Step =
    | Other(event: Event)
    | Check(actor: Id, newId: Id, input: B.BookingCreate)
    | Insert(n: nat, now: Instant)

  function Inserted(s: Store, d: Draft, now: Instant): Outcome<Booking> {
    B.Insert(s, d.id, d.customer, d.input, now)
  }

  function Next(w: World, st: Step): World {
    match st
    case Other(e) => World(Apply(w.store, e), w.drafts)
    case Check(actor, newId, input) =>
      if actor !in w.store.users || B.CheckRefusal(w.store, actor, input).Some? then w
      else World(w.store, w.drafts + [Draft(newId, actor, input, w.store)])
    case Insert(n, now) =>
      if n >= |w.drafts| then w
      else World(Inserted(w.store, w.drafts[n], now).store, w.drafts[..n] + w.drafts[n + 1..])
  }

  ghost predicate Race(ws: seq<World>, sts: seq<Step>) {
    && |ws| == |sts| + 1
    && (forall i :: i in ws[0].store.users ==> ws[0].store.users[i].id == i)
    && ws[0] == World(Start(ws[0].store.users), [])
    && forall n :: 0 <= n < |sts| ==> Taken(ws, sts, n)
  }

  ghost predicate Taken(ws: seq<World>, sts: seq<Step>, n: nat)
    requires n < |sts| && n + 1 < |ws|
  {
    ws[n + 1] == Next(ws[n], sts[n])
  }

  /** Some active booking in the draft's slot was not there, as it is now, when the draft was checked. */
  ghost predicate Overtaken(s: Store, d: Draft) {
    exists i :: i in s.bookings && Overtakes(s.bookings[i], i, d)
  }

  predicate Overtakes(b: Booking, i: Id, d: Draft) {
    && Conflicts(b, d.input.provider, d.input.start, d.input.end, None)
    && !(i in d.checked.bookings && d.checked.bookings[i] == b)
  }

  /** The insert of a booking keeps the calendar exactly when its slot is free at that moment. */
  lemma InsertNeedsFreeSlot(s: Store, d: Draft, now: Instant)
    requires BookingTables(s) && Calendar(s) && Inserted(s, d, now).result.Success?
    ensures Calendar(Inserted(s, d, now).store) <==>
            Available(s.bookings, d.input.provider, d.input.start, d.input.end, None)
  {
    var b := B.NewBooking(d.id, d.customer, d.input);
    var s' := Inserted(s, d, now).store;
    assert s'.bookings == s.bookings[d.id := b];
    if Available(s.bookings, d.input.provider, d.input.start, d.input.end, None) {
      forall i | i in s.bookings && s.bookings[i].provider == b.provider && Active(s.bookings[i])
        ensures Apart(s.bookings[i], b)
      {
        assert !Conflicts(s.bookings[i], d.input.provider, d.input.start, d.input.end, None);
      }
    } else {
      var i :| i in s.bookings && Conflicts(s.bookings[i], d.input.provider, d.input.start, d.input.end, None);
      assert !Apart(s'.bookings[i], s'.bookings[d.id]);
    }
  }

  /** The insert of a checked booking keeps the calendar exactly when no active booking committed since
      its check overlaps its slot. */
  lemma InsertNeedsNoOvertaking(s: Store, d: Draft, now: Instant)
    requires BookingTables(s) && Calendar(s) && Inserted(s, d, now).result.Success?
    requires B.CheckRefusal(d.checked, d.customer, d.input).None?
    ensures Calendar(Inserted(s, d, now).store) <==> !Overtaken(s, d)
  {
    InsertNeedsFreeSlot(s, d, now);
    if i :| i in s.bookings && Conflicts(s.bookings[i], d.input.provider, d.input.start, d.input.end, None) {
      assert Overtakes(s.bookings[i], i, d);
    }
  }

  /** The tables, and what is known of the drafts, whatever the calendar. */
  ghost predicate Checked(w: World) {
    && BookingTables(w.store)
    && forall n :: 0 <= n < |w.drafts| ==>
          B.CheckRefusal(w.drafts[n].checked, w.drafts[n].customer, w.drafts[n].input).None?
  }

  lemma CheckedKept(w: World, st: Step, w': World)
    requires Checked(w) && w' == Next(w, st)
    ensures Checked(w')
  {
    match st
    case Other(e) => BookingTablesKept(w.store, e);
    case Check(_, _, _) =>
    case Insert(n, now) =>
  }

  lemma StartIsChecked(users: map<Id, User>)
    requires forall i :: i in users ==> users[i].id == i
    ensures Checked(World(Start(users), [])) && Calendar(Start(users))
  {
  }

  lemma {:induction false} CheckedAt(ws: seq<World>, sts: seq<Step>, n: nat)
    requires Race(ws, sts) && n < |ws|
    ensures Checked(ws[n])
  {
    if n == 0 {
      StartIsChecked(ws[0].store.users);
    } else {
      CheckedAt(ws, sts, n - 1);
      assert Taken(ws, sts, n - 1);
      CheckedKept(ws[n - 1], sts[n - 1], ws[n]);
    }
  }

  /** The step inserts a booking that was overtaken after its check. */
  ghost predicate Breaks(w: World, st: Step) {
    && st.Insert? && st.n < |w.drafts|
    && Inserted(w.store, w.drafts[st.n], st.now).result.Success?
    && Overtaken(w.store, w.drafts[st.n])
  }

  lemma StepKeepsCalendar(w: World, st: Step, w': World)
    requires Checked(w) && Calendar(w.store) && w' == Next(w, st)
    ensures Calendar(w'.store) <==> !Breaks(w, st)
  {
    match st
    case Other(e) => CalendarKept(w.store, e);
    case Check(_, _, _) =>
    case Insert(n, now) =>
      if n < |w.drafts| && Inserted(w.store, w.drafts[n], now).result.Success? {
        InsertNeedsNoOvertaking(w.store, w.drafts[n], now);
      }
  }

  ghost predicate CalendarThrough(ws: seq<World>, n: nat)
    requires n < |ws|
  {
    forall m :: 0 <= m <= n ==> Calendar(ws[m].store)
  }

  ghost predicate NeverBroken(ws: seq<World>, sts: seq<Step>, n: nat)
    requires n <= |sts| < |ws|
  {
    forall m :: 0 <= m < n ==> !Breaks(ws[m], sts[m])
  }

  lemma OneMore(ws: seq<World>, sts: seq<Step>, n: nat)
    requires 0 < n <= |sts| < |ws|
    ensures CalendarThrough(ws, n) <==> CalendarThrough(ws, n - 1) && Calendar(ws[n].store)
    ensures NeverBroken(ws, sts, n) <==> NeverBroken(ws, sts, n - 1) && !Breaks(ws[n - 1], sts[n - 1])
  {
  }

  /** Over every interleaving, the providers' active bookings stay disjoint exactly as long as no
      booking is inserted that was overtaken after its check. */
  lemma {:induction false} CalendarSurvives(ws: seq<World>, sts: seq<Step>, n: nat)
    requires Race(ws, sts) && n < |ws|
    ensures CalendarThrough(ws, n) <==> NeverBroken(ws, sts, n)
  {
    if n == 0 {
      StartIsChecked(ws[0].store.users);
    } else {
      CalendarSurvives(ws, sts, n - 1);
      OneMore(ws, sts, n);
      if CalendarThrough(ws, n - 1) {
        CheckedAt(ws, sts, n - 1);
        assert Taken(ws, sts, n - 1);
        assert Calendar(ws[n - 1].store);
        StepKeepsCalendar(ws[n - 1], sts[n - 1], ws[n]);
      }
    }
  }

  /** A check directly followed by its insert is the serial request, which is never overtaken. */
  lemma CheckThenInsertIsCreate(w: World, actor: Id, newId: Id, input: B.BookingCreate, now: Instant)
    requires actor in w.store.users
    ensures var checked := Next(w, Check(actor, newId, input));
            B.CheckRefusal(w.store, actor, input).None? ==>
              && Next(checked, Insert(|w.drafts|, now)) ==
                    World(B.Create(w.store, newId, actor, input, now).store, w.drafts)
              && !Breaks(checked, Insert(|w.drafts|, now))
  {
    if B.CheckRefusal(w.store, actor, input).None? {
      assert Next(w, Check(actor, newId, input)).drafts[..|w.drafts|] == w.drafts;
    }
  }

  lemma CheckPasses(w: World, actor: Id, newId: Id, input: B.BookingCreate)
    requires actor in w.store.users && actor != input.provider && w.store.bookings == map[]
    requires input.provider in w.store.users && w.store.users[input.provider].role == Provider
    ensures Next(w, Check(actor, newId, input)) == World(w.store, w.drafts + [Draft(newId, actor, input, w.store)])
  {
  }

  lemma FirstInserts(w: World, d: Draft)
    requires w.drafts != [] && w.drafts[0] == d && d.id !in w.store.bookings
    requires BookingRow(w.store.users, B.NewBooking(d.id, d.customer, d.input))
    ensures var w' := Next(w, Insert(0, 0));
            && w'.store.users == w.store.users && w'.drafts == w.drafts[1..]
            && w'.store.bookings == w.store.bookings[d.id := B.NewBooking(d.id, d.customer, d.input)]
    ensures Inserted(w.store, d, 0).result.Success?
  {
    assert w.drafts[..0] + w.drafts[1..] == w.drafts[1..];
  }

  lemma BothBooked(s: Store, i: Id, j: Id, a: Booking, b: Booking)
    requires i in s.bookings && s.bookings[i] == a && j in s.bookings && s.bookings[j] == b && i != j
    requires a.provider == b.provider && Active(a) && Active(b) && !Apart(a, b)
    ensures !Calendar(s)
  {
  }

  lemma BreaksFirst(w: World, d: Draft, i: Id, b: Booking)
    requires w.drafts != [] && w.drafts[0] == d && Inserted(w.store, d, 0).result.Success?
    requires i in w.store.bookings && w.store.bookings[i] == b && Overtakes(b, i, d)
    ensures Breaks(w, Insert(0, 0))
  {
  }

  lemma RaceGrows(ws: seq<World>, sts: seq<Step>, st: Step, w: World) returns (ws': seq<World>, sts': seq<Step>)
    requires Race(ws, sts) && w == Next(ws[|sts|], st)
    ensures Race(ws', sts') && ws' == ws + [w] && sts' == sts + [st]
  {
    ws', sts' := ws + [w], sts + [st];
    forall n | 0 <= n < |sts'|
      ensures Taken(ws', sts', n)
    {
      if n < |sts| {
        assert Taken(ws, sts, n);
      }
    }
  }

  lemma BothChecked(input: B.BookingCreate, users: map<Id, User>) returns (ws: seq<World>, sts: seq<Step>)
    requires input.provider != 1 && input.provider != 2
    requires users ==
             map[1 := User(1, Customer), 2 := User(2, Customer), input.provider := User(input.provider, Provider)]
    ensures Race(ws, sts) && |sts| == 2
    ensures ws[2] == World(Start(users), [Draft(11, 1, input, Start(users)), Draft(12, 2, input, Start(users))])
  {
    var s := Start(users);
    var d, e := Draft(11, 1, input, s), Draft(12, 2, input, s);
    ws, sts := [World(s, [])], [];
    CheckPasses(ws[0], 1, 11, input);
    ws, sts := RaceGrows(ws, sts, Check(1, 11, input), World(s, [d]));
    CheckPasses(ws[1], 2, 12, input);
    ws, sts := RaceGrows(ws, sts, Check(2, 12, input), World(s, [d, e]));
  }

  /** Two customers ask for the same slot; both are checked before either is inserted, and both are
      booked. */
  lemma DoubleBooking(input: B.BookingCreate) returns (ws: seq<World>, sts: seq<Step>)
    requires input.start < input.end && input.provider != 1 && input.provider != 2
    ensures Race(ws, sts) && |sts| == 4 && !Calendar(ws[4].store)
    ensures Breaks(ws[3], sts[3])
  {
    var users := map[1 := User(1, Customer), 2 := User(2, Customer), input.provider := User(input.provider, Provider)];
    var a, b := B.NewBooking(11, 1, input), B.NewBooking(12, 2, input);
    ws, sts := BothChecked(input, users);
    var d, e := ws[2].drafts[0], ws[2].drafts[1];
    FirstInserts(ws[2], d);
    ws, sts := RaceGrows(ws, sts, Insert(0, 0), Next(ws[2], Insert(0, 0)));
    FirstInserts(ws[3], e);
    BreaksFirst(ws[3], e, 11, a);
    ws, sts := RaceGrows(ws, sts, Insert(0, 0), Next(ws[3], Insert(0, 0)));
    BothBooked(ws[4].store, 11, 12, a, b);
  }
}
