/** The transition tables, the access rule and the overlap rule of bookings. */
module Rules {
  import opened Domain

  function ValidTransitions(s: Status): set<Status> {
    match s
    case Pending => {Confirmed, Cancelled}
    case Confirmed => {Completed, Cancelled}
    case Completed => {}
    case Cancelled => {}
  }

  function AllowedRoles(from: Status, to: Status): set<Role> {
    match (from, to)
    case (Pending, Confirmed) => {Provider, Admin}
    case (Pending, Cancelled) => {Customer, Provider, Admin}
    case (Confirmed, Completed) => {Provider, Admin}
    case (Confirmed, Cancelled) => {Customer, Provider, Admin}
    case _ => {}
  }

  predicate Terminal(s: Status) {
    s == Completed || s == Cancelled
  }

  predicate Permitted(from: Status, to: Status, role: Role) {
    to in ValidTransitions(from) && role in AllowedRoles(from, to)
  }

  /** The error the transition check raises, if any. */
  function TransitionError(current: Status, target: Status, role: Role): Option<Error> {
    if current == Cancelled then Some(BadRequest)
    else if current == Completed then Some(BadRequest)
    else if target == current then None
    else if target !in ValidTransitions(current) then Some(BadRequest)
    else if role !in AllowedRoles(current, target) then Some(Forbidden)
    else None
  }

  /** How many status changes a booking still has in it. */
  function Rank(s: Status): nat {
    match s
    case Pending => 2
    case Confirmed => 1
    case _ => 0
  }

  /** The changes of status the platform allows, and to whom, in so many words. */
  predicate MayMove(from: Status, to: Status, role: Role) {
    || (from == Pending && to == Confirmed && (role == Provider || role == Admin))
    || (from == Confirmed && to == Completed && (role == Provider || role == Admin))
    || ((from == Pending || from == Confirmed) && to == Cancelled)
  }

  /** The check admits exactly the unchanged status of a live booking and the allowed changes, each of
      which lowers the rank. It answers 403 exactly when a customer confirms a pending or completes a
      confirmed booking, and 400 otherwise. */
  lemma TransitionCheckIsExact(from: Status, to: Status, role: Role)
    ensures Permitted(from, to, role) <==> MayMove(from, to, role)
    ensures TransitionError(from, to, role).None? <==>
            (from == Pending || from == Confirmed) && (to == from || MayMove(from, to, role))
    ensures MayMove(from, to, role) ==> Rank(to) < Rank(from)
    ensures TransitionError(from, to, role) == Some(Forbidden) <==>
            role == Customer && ((from == Pending && to == Confirmed) || (from == Confirmed && to == Completed))
    ensures TransitionError(from, to, role).Some? ==> TransitionError(from, to, role).value in {Forbidden, BadRequest}
  {
  }

  /** Who may read or modify a booking. */
  predicate Visible(b: Booking, user: User) {
    || user.role == Admin
    || (user.role == Customer && b.customer == user.id)
    || (user.role == Provider && b.provider == user.id)
  }

  predicate Active(b: Booking) {
    b.status != Cancelled
  }

  /** The WHERE clause of the overlap query. */
  predicate Conflicts(b: Booking, provider: Id, start: Instant, end: Instant, exclude: Option<Id>) {
    && b.provider == provider
    && Active(b)
    && b.start < end
    && b.end > start
    && (exclude.Some? ==> b.id != exclude.value)
  }

  predicate Available(bookings: map<Id, Booking>, provider: Id, start: Instant, end: Instant, exclude: Option<Id>) {
    forall i | i in bookings :: !Conflicts(bookings[i], provider, start, end, exclude)
  }

  /** The users a status change tells: the customer when confirmed or completed; both participants
      but the actor when cancelled. `b` is the booking after the change. */
  function StatusNotes(b: Booking, actor: Id): set<Key> {
    match b.status
    case Pending => {}
    case Confirmed => {Key(b.customer, b.id, BookingConfirmed)}
    case Completed => {Key(b.customer, b.id, BookingCompleted)}
    case Cancelled =>
      (if actor != b.customer then {Key(b.customer, b.id, BookingCancelled)} else {}) +
      (if actor != b.provider then {Key(b.provider, b.id, BookingCancelled)} else {})
  }
}
