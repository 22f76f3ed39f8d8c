/** What each review request does to the committed store. */
module ReviewSpec {
  import opened Domain

  predicate Reviewed(s: Store, booking: Id) {
    exists i | i in s.reviews :: s.reviews[i].booking == booking
  }

  /** The checks before the insert, in order. */
  function DraftRefusal(s: Store, user: User, booking: Id): Option<Error> {
    if user.role != Customer then Some(Forbidden)
    else if booking !in s.bookings then Some(NotFound)
    else if s.bookings[booking].customer != user.id then Some(Forbidden)
    else if s.bookings[booking].status != Completed then Some(BadRequest)
    else if Reviewed(s, booking) then Some(Conflict)
    else None
  }

  function Draft(s: Store, id: Id, user: User, booking: Id, rating: int, comment: Option<string>): Review
    requires booking in s.bookings
  {
    Review(id, booking, user.id, s.bookings[booking].provider, rating, comment)
  }

  /** The insert itself: any violated constraint is answered as a conflict. */
  function Insert(s: Store, r: Review): Outcome<Review> {
    if r.id in s.reviews || !ReviewRow(s, r) || Reviewed(s, r.booking) then Outcome(s, Failure(Conflict))
    else Outcome(s.(reviews := s.reviews[r.id := r]), Success(r))
  }

  function Create(s: Store, id: Id, user: User, booking: Id, rating: int, comment: Option<string>): Outcome<Review> {
    var refusal := DraftRefusal(s, user, booking);
    if refusal.Some? then Outcome(s, Failure(refusal.value))
        else Insert(s, Draft(s, id, user, booking, rating, comment))
  }

  function Edited(r: Review, rating: Option<int>, comment: Option<string>): Review {
    r.(rating := if rating.Some? then rating.value else r.rating,
       comment := if comment.Some? then comment else r.comment)
  }

  function Update(s: Store, id: Id, rating: Option<int>, comment: Option<string>, user: User): Outcome<Review> {
    if id !in s.reviews then Outcome(s, Failure(NotFound))
    else if user.role != Customer || s.reviews[id].customer != user.id then Outcome(s, Failure(Forbidden))
    else
      var r := Edited(s.reviews[id], rating, comment);
      if !ReviewRow(s, r) then Outcome(s, Failure(IntegrityError))
      else Outcome(s.(reviews := s.reviews[id := r]), Success(r))
  }

  function Delete(s: Store, id: Id, user: User): Outcome<()> {
    if id !in s.reviews then Outcome(s, Failure(NotFound))
    else if user.role == Admin || (user.role == Customer && s.reviews[id].customer == user.id) then
      Outcome(s.(reviews := s.reviews - {id}), Success(()))
    else Outcome(s, Failure(Forbidden))
  }
}
