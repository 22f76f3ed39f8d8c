/** The rows of the four tables, the vocabulary of the services, and the constraints PostgreSQL
    enforces on every committed state. */
module Domain {
  type Id = int
  type Instant = int

  datatype Option<+T> = None | Some(value: T)

  /** What a request can raise. The first four are the HTTP codes 404, 403, 400 and 409; a violated
      table constraint reaches the client as 500, a lost database or Redis connection as 500 or 503. */
  datatype Error = NotFound | Forbidden | BadRequest | Conflict | IntegrityError | Unavailable

  datatype Result<+T> = Success(value: T) | Failure(error: Error) {
    predicate IsFailure() {
      Failure?
    }

    function PropagateFailure<U>(): Result<U>
      requires Failure?
    {
      Failure(error)
    }

    function Extract(): T
      requires Success?
    {
      value
    }
  }

  datatype Role = Admin | Provider | Customer

  datatype Status = Pending | Confirmed | Completed | Cancelled

  datatype NotificationType =
    | BookingCreated
    | BookingConfirmed
    | BookingCancelled
    | BookingReminder
    | BookingCompleted
    | BookingOverdue

  datatype User = User(id: Id, role: Role)

  datatype Booking = Booking(id: Id, customer: Id, provider: Id, service: string,
                             start: Instant, end: Instant, status: Status)

  /** The columns of the constraint uq_notifications_user_booking_type. */
  datatype Key = Key(user: Id, booking: Id, kind: NotificationType)

  /** The remaining columns of a notification. */
  datatype Receipt = Receipt(createdAt: Instant, isRead: bool, readAt: Option<Instant>)

  datatype Review = Review(id: Id, booking: Id, customer: Id, provider: Id,
                           rating: int, comment: Option<string>)

  datatype Store = Store(users: map<Id, User>,
                         bookings: map<Id, Booking>,
                         notifications: map<Key, Receipt>,
                         reviews: map<Id, Review>)

  /** A request's effect on the committed store, together with its answer. */
  datatype Outcome<+T> = Outcome(store: Store, result: Result<T>)

  /** A connection: `trips` round trips are answered, then it is lost; `applied` says that the request
      of the next trip still reached the server, and only its reply did not arrive. */
  datatype Link = Link(trips: nat, applied: bool)

  // ---------- Table constraints ----------

  predicate BookingRow(users: map<Id, User>, b: Booking) {
    && b.end > b.start
    && b.customer != b.provider
    && b.customer in users
    && b.provider in users
  }

  predicate NotificationRow(s: Store, k: Key) {
    k.user in s.users && k.booking in s.bookings
  }

  predicate ReviewRow(s: Store, r: Review) {
    && 1 <= r.rating <= 5
    && r.booking in s.bookings
    && r.customer in s.users
    && r.provider in s.users
  }

  ghost predicate BookingTables(s: Store) {
    && (forall i :: i in s.users ==> s.users[i].id == i)
    && (forall i :: i in s.bookings ==> s.bookings[i].id == i && BookingRow(s.users, s.bookings[i]))
  }

  ghost predicate NotificationTable(s: Store) {
    forall k :: k in s.notifications ==> NotificationRow(s, k)
  }

  ghost predicate ReviewTable(s: Store) {
    && (forall i :: i in s.reviews ==> s.reviews[i].id == i && ReviewRow(s, s.reviews[i]))
    && (forall i, j :: i in s.reviews && j in s.reviews && i != j ==> s.reviews[i].booking != s.reviews[j].booking)
  }

  /** Primary keys, foreign keys, CHECK constraints and unique constraints of the schema. */
  ghost predicate Integrity(s: Store) {
    BookingTables(s) && NotificationTable(s) && ReviewTable(s)
  }

  // ---------- Notifications ----------

  function Unread(now: Instant): Receipt {
    Receipt(now, false, None)
  }

  /** The ledger after delivering every notification in `keys`: a key that is already there keeps
      its row. */
  function Deliver(ledger: map<Key, Receipt>, keys: set<Key>, now: Instant): map<Key, Receipt> {
    (map k | k in keys :: Unread(now)) + ledger
  }

  lemma DeliverDomain(ledger: map<Key, Receipt>, keys: set<Key>, now: Instant)
    ensures Deliver(ledger, keys, now).Keys == ledger.Keys + keys
  {
  }

  lemma DeliverTwice(ledger: map<Key, Receipt>, a: set<Key>, b: set<Key>, now: Instant)
    ensures Deliver(Deliver(ledger, a, now), b, now) == Deliver(ledger, a + b, now)
  {
    var left, right := Deliver(Deliver(ledger, a, now), b, now), Deliver(ledger, a + b, now);
    assert left.Keys == right.Keys;
    assert forall k :: k in left ==> left[k] == right[k];
  }

  // ---------- Sets ----------

  lemma NoMembers<T>(r: set<T>)
    requires forall x :: x !in r
    ensures r == {}
  {
  }

  lemma SameMembers<T>(a: set<T>, b: set<T>)
    requires forall x :: x in a <==> x in b
    ensures a == b
  {
  }

  lemma Inhabited<T>(r: set<T>)
    requires r != {}
    ensures exists x :: x in r
  {
    if forall x :: x !in r {
      NoMembers(r);
      assert false;
    }
  }

  lemma Element<T>(r: set<T>) returns (x: T)
    requires r != {}
    ensures x in r
  {
    Inhabited(r);
    x :| x in r;
  }
}
