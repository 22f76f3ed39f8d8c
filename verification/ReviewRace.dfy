/** Reviews when the duplicate check and the insert of different requests interleave, with each other
    and with every other request: the unique constraint decides. */
module ReviewRace {
  import opened Domain
  import opened Engine
  import opened Invariants
  import opened Runs
  import R = ReviewSpec

  /** The committed store, and the reviews whose checks have passed and whose insert is still to come. */
  datatype World = World(store: Store, drafts: seq<Review>)

  datatype Step =
    | Other(event: Event)
    | Check(actor: Id, newId: Id, booking: Id, rating: int, comment: Option<string>)
    | Insert(n: nat)

  function Next(w: World, st: Step): World {
    match st
    case Other(e) => World(Apply(w.store, e), w.drafts)
    case Check(actor, newId, booking, rating, comment) =>
      if actor !in w.store.users || R.DraftRefusal(w.store, w.store.users[actor], booking).Some? then w
      else World(w.store, w.drafts + [R.Draft(w.store, newId, w.store.users[actor], booking, rating, comment)])
    case Insert(n) =>
      if n >= |w.drafts| then w
      else World(R.Insert(w.store, w.drafts[n]).store, w.drafts[..n] + w.drafts[n + 1..])
  }

  /** Sound, with every draft still entitled to its booking, however long ago it was checked. */
  ghost predicate Fair(w: World) {
    Sound(w.store) && forall n :: 0 <= n < |w.drafts| ==> Earned(w.store, w.drafts[n])
  }

  lemma DraftsStayEarned(s: Store, e: Event, r: Review)
    requires Sound(s) && Earned(s, r)
    ensures Earned(Apply(s, e), r)
  {
    TerminalFrozen(s, e, r.booking);
  }

  lemma OtherKeepsFair(w: World, e: Event)
    requires Fair(w)
    ensures Fair(Next(w, Other(e)))
  {
    SoundKept(w.store, e);
    forall n | 0 <= n < |w.drafts|
      ensures Earned(Apply(w.store, e), w.drafts[n])
    {
      DraftsStayEarned(w.store, e, w.drafts[n]);
    }
  }

  lemma CheckKeepsFair(w: World, st: Step)
    requires Fair(w) && st.Check?
    ensures Fair(Next(w, st))
  {
  }

  /** An insert that the constraints let through keeps everything: reviews touch no other table. */
  lemma InsertKeepsSound(s: Store, r: Review)
    requires Sound(s) && Earned(s, r)
    ensures Sound(R.Insert(s, r).store)
  {
    var s' := R.Insert(s, r).store;
    if s' != s {
      assert Adds(s, s', r);
      ReviewMoveKeeps(s, s');
      OnlyReviewsChange(s, s');
    }
  }

  lemma OnlyReviewsChange(s: Store, s': Store)
    requires Sound(s) && s' == s.(reviews := s'.reviews)
    requires ReviewTable(s') && ReviewsEarned(s')
    ensures Sound(s')
  {
    forall i | i in s'.bookings
      ensures LedgerOf(s', i)
    {
      assert LedgerOf(s, i);
    }
  }

  lemma EarnedStays(s: Store, r: Review, d: Review)
    requires Earned(s, d)
    ensures Earned(R.Insert(s, r).store, d)
  {
  }

  lemma InsertKeepsFair(w: World, n: nat)
    requires Fair(w)
    ensures Fair(Next(w, Insert(n)))
  {
    if n < |w.drafts| {
      InsertKeepsSound(w.store, w.drafts[n]);
      var rest := w.drafts[..n] + w.drafts[n + 1..];
      forall m | 0 <= m < |rest|
        ensures Earned(w.store, rest[m])
      {
        assert rest[m] == w.drafts[if m < n then m else m + 1];
        EarnedStays(w.store, w.drafts[n], rest[m]);
      }
    }
  }

  ghost predicate Race(ws: seq<World>, sts: seq<Step>) {
    && |ws| == |sts| + 1
    && (forall i :: i in ws[0].store.users ==> ws[0].store.users[i].id == i)
    && ws[0] == World(Start(ws[0].store.users), [])
    && forall n :: 0 <= n < |sts| ==> ws[n + 1] == Next(ws[n], sts[n])
  }

  lemma {:induction false} FairAt(ws: seq<World>, sts: seq<Step>, n: nat)
    requires Race(ws, sts) && n < |ws|
    ensures Fair(ws[n])
  {
    if n > 0 {
      FairAt(ws, sts, n - 1);
      match sts[n - 1]
      case Other(e) => OtherKeepsFair(ws[n - 1], e);
      case Check(_, _, _, _, _) => CheckKeepsFair(ws[n - 1], sts[n - 1]);
      case Insert(m) => InsertKeepsFair(ws[n - 1], m);
    }
  }

  /** However checks and inserts interleave, a booking never has two live reviews, and every live
      review is rated 1 to 5 and belongs to a completed booking and to its two participants. */
  lemma OneReviewPerBooking(ws: seq<World>, sts: seq<Step>, n: nat)
    requires Race(ws, sts) && n < |ws|
    ensures var s := ws[n].store;
            && (forall i, j :: i in s.reviews && j in s.reviews && s.reviews[i].booking == s.reviews[j].booking ==>
                  i == j)
            && (forall i :: i in s.reviews ==> Earned(s, s.reviews[i]) && 1 <= s.reviews[i].rating <= 5)
  {
    FairAt(ws, sts, n);
    var s := ws[n].store;
    forall i | i in s.reviews
      ensures Earned(s, s.reviews[i]) && 1 <= s.reviews[i].rating <= 5
    {
      assert ReviewRow(s, s.reviews[i]);
    }
  }

  /** Every checked request has the rating its schema admits. */
  predicate Validated(sts: seq<Step>) {
    forall n :: 0 <= n < |sts| && sts[n].Check? ==> 1 <= sts[n].rating <= 5
  }

  ghost predicate RatedInRange(w: World) {
    forall n :: 0 <= n < |w.drafts| ==> 1 <= w.drafts[n].rating <= 5
  }

  lemma {:induction false} RatedAt(ws: seq<World>, sts: seq<Step>, n: nat)
    requires Race(ws, sts) && Validated(sts) && n < |ws|
    ensures RatedInRange(ws[n])
  {
    if n > 0 {
      RatedAt(ws, sts, n - 1);
      RatedKept(ws[n - 1], sts[n - 1]);
    }
  }

  lemma RatedKept(w: World, st: Step)
    requires RatedInRange(w) && (st.Check? ==> 1 <= st.rating <= 5)
    ensures RatedInRange(Next(w, st))
  {
  }

  /** However long the check lies back and whatever happened since: inserting a draft under a new id is
      answered as a duplicate exactly when its booking has a review by now, and otherwise succeeds. */
  lemma ConflictIsDuplicate(ws: seq<World>, sts: seq<Step>, n: nat, d: nat)
    requires Race(ws, sts) && Validated(sts) && n < |ws| && d < |ws[n].drafts|
    requires ws[n].drafts[d].id !in ws[n].store.reviews
    ensures var s, r := ws[n].store, ws[n].drafts[d];
            && (R.Insert(s, r).result == Failure(Conflict) <==> R.Reviewed(s, r.booking))
            && (R.Insert(s, r).result == Success(r) <==> !R.Reviewed(s, r.booking))
  {
    FairAt(ws, sts, n);
    RatedAt(ws, sts, n);
    var s, r := ws[n].store, ws[n].drafts[d];
    assert Earned(s, r);
    assert BookingRow(s.users, s.bookings[r.booking]);
    assert ReviewRow(s, r);
  }

  /** The serial request, validated and with a new id: 409 exactly when a customer asks for a second
      review of a completed booking of theirs. */
  lemma CreateConflictIsDuplicate(s: Store, id: Id, user: User, booking: Id, rating: int, comment: Option<string>)
    requires BookingTables(s) && id !in s.reviews && 1 <= rating <= 5
    ensures R.Create(s, id, user, booking, rating, comment).result == Failure(Conflict) <==>
            && user.role == Customer
            && booking in s.bookings && s.bookings[booking].customer == user.id
                  && s.bookings[booking].status == Completed
            && R.Reviewed(s, booking)
  {
    if R.DraftRefusal(s, user, booking).None? {
      assert BookingRow(s.users, s.bookings[booking]);
      assert ReviewRow(s, R.Draft(s, id, user, booking, rating, comment));
    }
  }

  /** A check followed at once by its insert is the serial request. */
  lemma CheckThenInsertIsCreate(w: World, actor: Id, newId: Id, booking: Id, rating: int, comment: Option<string>)
    requires actor in w.store.users
    ensures var checked := Next(w, Check(actor, newId, booking, rating, comment));
            var user := w.store.users[actor];
            R.DraftRefusal(w.store, user, booking).None? ==>
              Next(checked, Insert(|w.drafts|)) ==
                  World(R.Create(w.store, newId, user, booking, rating, comment).store, w.drafts)
  {
    var checked := Next(w, Check(actor, newId, booking, rating, comment));
    if R.DraftRefusal(w.store, w.store.users[actor], booking).None? {
      assert checked.drafts[..|w.drafts|] == w.drafts;
    }
  }
}
