/** The review requests as the service runs them on a session. */
module ReviewService {
  import opened Domain
  import opened Requests
  import opened Sessions
  import Spec = ReviewSpec

  method CreateReview(db: Session, newId: Id, user: User, booking: Id, rating: int, comment: Option<string>)
    returns (r: Result<Review>)
    requires db.Opened() && Integrity(db.tx)
    modifies db, db.base
    ensures Serves(old(db.tx), Spec.Create(old(db.tx), newId, user, booking, rating, comment), 3, true,
                   Link(old(db.budget), db.applied), db.base.store, r)
  {
    if user.role != Customer {
      return Failure(Forbidden);
    }
    var found :- db.GetBooking(booking);
    if found.None? {
      return Failure(NotFound);
    }
    if found.value.customer != user.id {
      return Failure(Forbidden);
    }
    if found.value.status != Completed {
      return Failure(BadRequest);
    }
    var _ :- db.RoundTrip();
    var duplicate := exists i | i in db.tx.reviews :: db.tx.reviews[i].booking == booking;
    if duplicate {
      return Failure(Conflict);
    }
    var review := Review(newId, found.value.id, user.id, found.value.provider, rating, comment);
    db.Touch(InsertReview(review));
    var done := db.CommitAndRefresh();
    if done == Failure(IntegrityError) {
      return Failure(Conflict);
    }
    var _ :- done;
    return Success(review);
  }

  method UpdateReview(db: Session, id: Id, rating: Option<int>, comment: Option<string>, user: User)
    returns (r: Result<Review>)
    requires db.Opened() && Integrity(db.tx)
    modifies db, db.base
    ensures Serves(old(db.tx), Spec.Update(old(db.tx), id, rating, comment, user), 2, true,
                   Link(old(db.budget), db.applied), db.base.store, r)
  {
    var found :- db.GetReview(id);
    if found.None? {
      return Failure(NotFound);
    }
    var review := found.value;
    if user.role != Customer || review.customer != user.id {
      return Failure(Forbidden);
    }
    if rating.Some? {
      review := review.(rating := rating.value);
    }
    if comment.Some? {
      review := review.(comment := comment);
    }
    db.Touch(Change.UpdateReview(review));
    var _ :- db.CommitAndRefresh();
    return Success(review);
  }

  method DeleteReview(db: Session, id: Id, user: User) returns (r: Result<()>)
    requires db.Opened() && Integrity(db.tx)
    modifies db, db.base
    ensures Serves(old(db.tx), Spec.Delete(old(db.tx), id, user), 2, false, Link(old(db.budget), db.applied),
                   db.base.store, r)
  {
    var found :- db.GetReview(id);
    if found.None? {
      return Failure(NotFound);
    }
    var isAuthor := user.role == Customer && found.value.customer == user.id;
    var isAdmin := user.role == Admin;
    if !(isAuthor || isAdmin) {
      return Failure(Forbidden);
    }
    db.Touch(Change.DeleteReview(found.value.id));
    var committed := db.Commit();
    if committed.Failure? {
      db.Rollback();
      return Failure(committed.error);
    }
    return Success(());
  }
}
