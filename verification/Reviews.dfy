/** `submit_review` (rentalhouse/rentalapp/views.py): the tenant of a
    booking reviews it at most once. */
module Reviews {
  import opened Common
  import opened Entities
  import Forms

  /** The cleaned fields of a `ReviewRatingForm` (the text already stripped
      of surrounding whitespace, as it is checked and stored). */
  datatype ReviewRequest = ReviewRequest(rating: int, text: string)

  /** Some review is already recorded for booking `b`. */
  predicate Reviewed(db: Db, b: BookingId) {
    exists k | k in db.reviews :: db.reviews[k].booking == b
  }

  /** No booking has two reviews. */
  ghost predicate OneReviewPerBooking(db: Db) {
    forall k, k' | k in db.reviews && k' in db.reviews && k != k' ::
      db.reviews[k].booking != db.reviews[k'].booking
  }

  /** `submit_review`: a tenant reviews one of their own bookings. A booking
      that already has a review is refused, a GET shows the form, and a POST
      whose form validates records one review (under the key `newId` the
      database assigns) carrying the booking's tenant and property. */
  function SubmitReview(db: Db, user: User, id: BookingId, verb: HttpMethod,
                        form: ReviewRequest, newId: ReviewId): (r: Reply)
    requires Valid(db) && newId !in db.reviews
    ensures Valid(r.db)
    ensures OneReviewPerBooking(db) ==> OneReviewPerBooking(r.db)
    ensures r.outcome.Success? <==>
      && user.role == Tenant && id in db.bookings && db.bookings[id].tenant == user.id
      && !Reviewed(db, id) && verb == Post
      && Forms.ReviewFormErrors(form.rating, form.text) == []
    ensures r.outcome == AlreadyDone <==>
      user.role == Tenant && id in db.bookings && db.bookings[id].tenant == user.id && Reviewed(db, id)
    ensures r.outcome == FormShown <==>
      && user.role == Tenant && id in db.bookings && db.bookings[id].tenant == user.id
      && !Reviewed(db, id) && verb != Post
    ensures r.outcome.Invalid? <==>
      && user.role == Tenant && id in db.bookings && db.bookings[id].tenant == user.id
      && !Reviewed(db, id) && verb == Post
      && Forms.ReviewFormErrors(form.rating, form.text) != []
    ensures r.outcome.Invalid? ==> r.outcome.errors == Forms.ReviewFormErrors(form.rating, form.text)
    ensures !r.outcome.Success? ==> r.db == db
    ensures r.outcome.Success? ==>
      var b := db.bookings[id];
      && r.db == db.(reviews := r.db.reviews)
      && r.db.reviews.Keys == db.reviews.Keys + {newId}
      && (forall k | k in db.reviews :: r.db.reviews[k] == db.reviews[k])
      && r.db.reviews[newId] == Review(id, b.tenant, b.property, form.rating, form.text)
      && 1 <= form.rating <= 5
      && Reviewed(r.db, id)
  {
    if user.role != Tenant then Reply(db, Denied)
    else if id !in db.bookings || db.bookings[id].tenant != user.id then Reply(db, NotFound)
    else if Reviewed(db, id) then Reply(db, AlreadyDone)
    else if verb != Post then Reply(db, FormShown)
    else
      var errors := Forms.ReviewFormErrors(form.rating, form.text);
      if errors != [] then Reply(db, Invalid(errors))
      else
        var b := db.bookings[id];
        var r := Reply(db.(reviews := db.reviews[newId := Review(id, b.tenant, b.property, form.rating, form.text)]), Success);
        assert r.db.reviews[newId].booking == id;
        r
  }

  /** After a review is recorded, every further attempt on the same booking
      is refused and changes nothing. */
  lemma SecondReviewRefused(db: Db, user: User, id: BookingId, verb: HttpMethod, form: ReviewRequest, newId: ReviewId,
                            verb2: HttpMethod, form2: ReviewRequest, newId2: ReviewId)
    requires Valid(db) && newId !in db.reviews
    requires SubmitReview(db, user, id, verb, form, newId).outcome.Success?
    requires newId2 !in SubmitReview(db, user, id, verb, form, newId).db.reviews
    ensures var once := SubmitReview(db, user, id, verb, form, newId).db;
      var again := SubmitReview(once, user, id, verb2, form2, newId2);
      again.outcome == AlreadyDone && again.db == once
  {
  }
}
