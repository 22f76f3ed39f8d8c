/** What each booking request does to the committed store: every check first, then every effect. */
module BookingSpec {
  import opened Domain
  import opened Rules

  datatype BookingCreate = BookingCreate(provider: Id, service: string, start: Instant, end: Instant)

  datatype BookingUpdate = BookingUpdate(service: Option<string>, start: Option<Instant>,
                                         end: Option<Instant>, status: Option<Status>)

  const CANCEL_ONLY := BookingUpdate(None, None, None, Some(Cancelled))

  // ---------- Create ----------

  function NewBooking(id: Id, customer: Id, input: BookingCreate): Booking {
    Booking(id, customer, input.provider, input.service, input.start, input.end, Pending)
  }

  /** The checks before the insert, in order. */
  function CheckRefusal(s: Store, customer: Id, input: BookingCreate): Option<Error> {
    if customer == input.provider then Some(BadRequest)
    else if input.provider !in s.users then Some(NotFound)
    else if s.users[input.provider].role != Provider then Some(BadRequest)
    else if !Available(s.bookings, input.provider, input.start, input.end, None) then Some(Conflict)
    else None
  }

  function CreateRefusal(s: Store, id: Id, customer: Id, input: BookingCreate): Option<Error> {
    if CheckRefusal(s, customer, input).Some? then CheckRefusal(s, customer, input)
    else if id in s.bookings || customer !in s.users || input.end <= input.start then Some(IntegrityError)
    else None
  }

  /** The insert alone: the constraints know nothing of overlaps. */
  function Insert(s: Store, id: Id, customer: Id, input: BookingCreate, now: Instant): Outcome<Booking> {
    var b := NewBooking(id, customer, input);
    if id in s.bookings || !BookingRow(s.users, b) then Outcome(s, Failure(IntegrityError))
    else
      Outcome(s.(bookings := s.bookings[id := b],
                 notifications := Deliver(s.notifications, {Key(b.provider, id, BookingCreated)}, now)),
              Success(b))
  }

  function Create(s: Store, id: Id, customer: Id, input: BookingCreate, now: Instant): Outcome<Booking> {
    var refusal := CreateRefusal(s, id, customer, input);
    if refusal.Some? then Outcome(s, Failure(refusal.value)) else
    var b := NewBooking(id, customer, input);
    Outcome(s.(bookings := s.bookings[id := b],
               notifications := Deliver(s.notifications, {Key(b.provider, id, BookingCreated)}, now)),
            Success(b))
  }

  // ---------- Update ----------

  predicate Reschedules(upd: BookingUpdate) {
    upd.start.Some? || upd.end.Some?
  }

  predicate ChangesStatus(b: Booking, upd: BookingUpdate) {
    upd.status.Some? && upd.status.value != b.status
  }

  function Updated(b: Booking, upd: BookingUpdate): Booking {
    b.(service := if upd.service.Some? then upd.service.value else b.service,
       start := if upd.start.Some? then upd.start.value else b.start,
       end := if upd.end.Some? then upd.end.value else b.end,
       status := if upd.status.Some? then upd.status.value else b.status)
  }

  function UpdateNotes(b: Booking, upd: BookingUpdate, actor: Id): set<Key> {
    if ChangesStatus(b, upd) then StatusNotes(Updated(b, upd), actor) else {}
  }

  function UpdateRefusal(s: Store, id: Id, upd: BookingUpdate, user: User): Option<Error> {
    if id !in s.bookings then Some(NotFound) else
    var b := s.bookings[id];
    var after := Updated(b, upd);
    if !Visible(b, user) then Some(Forbidden)
    else if Terminal(b.status) then Some(BadRequest)
    else if TransitionError(b.status, after.status, user.role).Some? then
        TransitionError(b.status, after.status, user.role)
    else if Reschedules(upd) && after.end <= after.start then Some(BadRequest)
    else if Reschedules(upd) && !Available(s.bookings, b.provider, after.start, after.end, Some(id)) then Some(Conflict)
    else None
  }

  function Update(s: Store, id: Id, upd: BookingUpdate, user: User, now: Instant): Outcome<Booking> {
    var refusal := UpdateRefusal(s, id, upd, user);
    if refusal.Some? then Outcome(s, Failure(refusal.value)) else
    var b := s.bookings[id];
    Outcome(s.(bookings := s.bookings[id := Updated(b, upd)],
               notifications := Deliver(s.notifications, UpdateNotes(b, upd, user.id), now)),
            Success(Updated(b, upd)))
  }

  // ---------- Read ----------

  function GetById(s: Store, id: Id, user: User): Result<Booking> {
    if id !in s.bookings then Failure(NotFound)
    else if Visible(s.bookings[id], user) then Success(s.bookings[id])
    else Failure(Forbidden)
  }

  // ---------- Cancel and delete ----------

  /** The store after `user` cancels booking `id`. */
  function Withdrawn(s: Store, id: Id, user: User, now: Instant): Store
    requires id in s.bookings
  {
    var b := s.bookings[id].(status := Cancelled);
    s.(bookings := s.bookings[id := b], notifications := Deliver(s.notifications, StatusNotes(b, user.id), now))
  }

  function CancelRefusal(s: Store, id: Id, user: User): Option<Error> {
    var found := GetById(s, id, user);
    if found.Failure? then Some(found.error) else TransitionError(found.value.status, Cancelled, user.role)
  }

  function Cancel(s: Store, id: Id, user: User, now: Instant): Outcome<Booking> {
    var refusal := CancelRefusal(s, id, user);
    if refusal.Some? then Outcome(s, Failure(refusal.value))
    else Outcome(Withdrawn(s, id, user, now), Success(s.bookings[id].(status := Cancelled)))
  }

  function DeleteRefusal(s: Store, id: Id, user: User): Option<Error> {
    if id !in s.bookings then Some(NotFound)
    else if user.role == Provider then Some(Forbidden)
    else if user.role == Customer && s.bookings[id].customer != user.id then Some(Forbidden)
    else if s.bookings[id].status != Pending then Some(BadRequest)
    else None
  }

  function Delete(s: Store, id: Id, user: User, now: Instant): Outcome<()> {
    var refusal := DeleteRefusal(s, id, user);
    if refusal.Some? then Outcome(s, Failure(refusal.value)) else Outcome(Withdrawn(s, id, user, now), Success(()))
  }

  // ---------- The three ways to cancel ----------

  /** Cancelling and patching the status to cancelled are the same request: same answer, same error
      class, same store, for every state, booking and caller. */
  lemma CancelIsPatchToCancelled(s: Store, id: Id, user: User, now: Instant)
    ensures Cancel(s, id, user, now) == Update(s, id, CANCEL_ONLY, user, now)
  {
  }

  /** Deleting is cancelling restricted to pending bookings and to callers that are not providers. */
  lemma DeleteIsRestrictedCancel(s: Store, id: Id, user: User, now: Instant)
    ensures Delete(s, id, user, now).result.Success? ==>
              && Cancel(s, id, user, now).result.Success?
              && Cancel(s, id, user, now).store == Delete(s, id, user, now).store
    ensures Delete(s, id, user, now).result.Success? <==>
              && Cancel(s, id, user, now).result.Success?
              && user.role != Provider
              && s.bookings[id].status == Pending
  {
  }
}
