/** The booking workflow of rentalhouse/rentalapp/views.py: a tenant books
    an available property (`book_property`), the property's owner confirms
    the booking (`confirm_booking`), and either party cancels it
    (`cancel_booking`). A booking moves from pending to confirmed or to
    cancelled, and its property's status follows: confirming occupies it,
    cancelling frees an occupied one. */
module Bookings {
  import opened Common
  import opened Entities
  import Pricing
  import Forms

  /** The submitted fields of a `BookingForm`. */
  datatype BookingRequest = BookingRequest(
    start: Option<Date>,
    end: Option<Date>,
    durationMonths: Option<int>)

  /** Every confirmed booking's property is marked occupied. */
  ghost predicate ConfirmedOccupy(db: Db) {
    forall id | id in db.bookings && db.bookings[id].status == BookingStatus.Confirmed ::
      db.bookings[id].property in db.properties
      && db.properties[db.bookings[id].property].status == Occupied
  }

  /** `user` owns the property booking `id` is for: the lookup
      `Bookings(pk=id, property__owner__user=user)` finds it. */
  predicate OwnsBooking(db: Db, user: UserId, id: BookingId) {
    && id in db.bookings
    && db.bookings[id].property in db.properties
    && db.properties[db.bookings[id].property].owner == user
  }

  /** `user` may cancel booking `b`: as the owner of its property or as its
      tenant, holding the matching account type and profile. */
  predicate MayCancel(db: Db, user: User, b: Booking): (ok: bool)
    requires b.property in db.properties
    ensures ok ==> user.id == db.properties[b.property].owner || user.id == b.tenant
    ensures ok ==> user.role != Admin
    ensures ok ==> user.id in db.owners || user.id in db.tenants
    ensures user.role == Owner && user.id in db.owners && user.id == db.properties[b.property].owner ==> ok
    ensures user.role == Tenant && user.id in db.tenants && user.id == b.tenant ==> ok
  {
    || (user.role == Owner && user.id in db.owners && db.properties[b.property].owner == user.id)
    || (user.role == Tenant && user.id in db.tenants && b.tenant == user.id)
  }

  /** The booking `book_property` saves: its length in months, the total for
      the stay and the deposit come from the property, and it starts out
      pending. */
  function NewBooking(tenant: UserId, pid: PropertyId, p: Property, form: BookingRequest): Booking {
    var months := Pricing.DurationMonths(form.start, form.end);
    Booking(tenant, pid, form.start, form.end, months,
            Pricing.TotalAmount(p.rent, months), Pricing.SecurityDeposit(p),
            BookingStatus.Pending)
  }

  /** `book_property`: only a tenant with a tenant profile may book, only an
      available property can be booked, a GET shows the form, and a POST
      whose `BookingForm` validates adds one pending booking under the key
      `newId` the database assigns. */
  function BookProperty(db: Db, user: User, pid: PropertyId, verb: HttpMethod,
                        form: BookingRequest, today: Date, newId: BookingId): (r: Reply)
    requires Valid(db) && newId !in db.bookings
    ensures Valid(r.db)
    ensures ConfirmedOccupy(db) ==> ConfirmedOccupy(r.db)
    ensures r.outcome.Success? <==>
      && user.role == Tenant && user.id in db.tenants
      && pid in db.properties && db.properties[pid].status == Available
      && verb == Post
      && Forms.BookingClean(form.start, form.end, form.durationMonths, today).Accept?
    ensures r.outcome == Denied <==> user.role != Tenant
    ensures !r.outcome.Success? ==> r.db == db
    ensures r.outcome.Success? ==>
      && r.db == db.(bookings := r.db.bookings)
      && r.db.bookings.Keys == db.bookings.Keys + {newId}
      && (forall k | k in db.bookings :: r.db.bookings[k] == db.bookings[k])
      && var b := r.db.bookings[newId];
         var p := db.properties[pid];
         && b.tenant == user.id && b.property == pid && b.status == BookingStatus.Pending
         && b.start == form.start && b.end == form.end
         && b.durationMonths >= 1
         && b.total == p.rent * b.durationMonths
         && b.deposit == (if p.deposit.Some? && p.deposit.value != 0 then p.deposit.value else p.rent)
         && (b.start.None? || b.end.None? ==> b.durationMonths == 1)
         && (b.start.Some? && b.end.Some? ==>
               && today <= b.start.value < b.end.value
               && 30 * (b.durationMonths - 1) < b.end.value - b.start.value <= 30 * b.durationMonths)
  {
    if user.role != Tenant then Reply(db, Denied)
    else if pid !in db.properties || db.properties[pid].status != Available then Reply(db, NotFound)
    else if user.id !in db.tenants then Reply(db, NotFound)
    else if verb != Post then Reply(db, FormShown)
    else
      match Forms.BookingClean(form.start, form.end, form.durationMonths, today)
      case Reject(message) => Reply(db, Invalid([message]))
      case Accept =>
        var b := NewBooking(user.id, pid, db.properties[pid], form);
        Reply(db.(bookings := db.bookings[newId := b]), Success)
  }

  /** `confirm_booking`: the owner of the booking's property turns a pending
      booking into a confirmed one and marks the property occupied, whatever
      its status was. Anything else changes nothing: another account type is
      denied, a booking of someone else's property is not found, and a
      booking that is no longer pending is reported as already processed. */
  function ConfirmBooking(db: Db, user: User, id: BookingId): (r: Reply)
    requires Valid(db)
    ensures Valid(r.db)
    ensures ConfirmedOccupy(db) ==> ConfirmedOccupy(r.db)
    ensures r.outcome.Success? <==>
      user.role == Owner && OwnsBooking(db, user.id, id) && db.bookings[id].status == BookingStatus.Pending
    ensures r.outcome == Denied <==> user.role != Owner
    ensures r.outcome == AlreadyDone <==>
      user.role == Owner && OwnsBooking(db, user.id, id) && db.bookings[id].status != BookingStatus.Pending
    ensures !r.outcome.Success? ==> r.db == db
    ensures r.outcome.Success? ==>
      var b := db.bookings[id];
      && r.db == db.(bookings := r.db.bookings, properties := r.db.properties)
      && SameExcept(db.bookings, r.db.bookings, id)
      && SameExcept(db.properties, r.db.properties, b.property)
      && r.db.bookings[id] == b.(status := BookingStatus.Confirmed)
      && r.db.properties[b.property] == db.properties[b.property].(status := Occupied)
  {
    if user.role != Owner then Reply(db, Denied)
    else if !OwnsBooking(db, user.id, id) then Reply(db, NotFound)
    else
      var b := db.bookings[id];
      if b.status != BookingStatus.Pending then Reply(db, AlreadyDone)
      else
        var p := db.properties[b.property];
        Reply(db.(bookings := db.bookings[id := b.(status := BookingStatus.Confirmed)],
                  properties := db.properties[b.property := p.(status := Occupied)]),
              Success)
  }

  /** `cancel_booking` as written: a POST by the property's owner or by the
      booking's tenant cancels a pending booking and then frees the
      property if it is occupied, whichever booking occupied it. A GET, a
      missing booking, an unauthorised user and a booking that is no longer
      pending change nothing. */
  function CancelBooking(db: Db, user: User, verb: HttpMethod, id: BookingId): (r: Reply)
    requires Valid(db)
    ensures Valid(r.db)
    ensures r.outcome.Success? <==>
      && verb == Post && id in db.bookings
      && MayCancel(db, user, db.bookings[id]) && db.bookings[id].status == BookingStatus.Pending
    ensures r.outcome == BadMethod <==> verb != Post
    ensures r.outcome == Denied <==>
      verb == Post && id in db.bookings && !MayCancel(db, user, db.bookings[id])
    ensures !r.outcome.Success? ==> r.db == db
    ensures r.outcome.Success? ==>
      var b := db.bookings[id];
      var p := db.properties[b.property];
      && r.db == db.(bookings := r.db.bookings, properties := r.db.properties)
      && SameExcept(db.bookings, r.db.bookings, id)
      && SameExcept(db.properties, r.db.properties, b.property)
      && r.db.bookings[id] == b.(status := BookingStatus.Cancelled)
      && var p' := r.db.properties[b.property];
         && p' == p.(status := p'.status)
         && (p.status == Occupied ==> p'.status == Available)
         && (p.status != Occupied ==> p' == p)
  {
    if verb != Post then Reply(db, BadMethod)
    else if id !in db.bookings then Reply(db, NotFound)
    else
      var b := db.bookings[id];
      if !MayCancel(db, user, b) then Reply(db, Denied)
      else if b.status != BookingStatus.Pending then Reply(db, AlreadyDone)
      else
        var p := db.properties[b.property];
        var p' := if p.status == Occupied then p.(status := Available) else p;
        Reply(db.(bookings := db.bookings[id := b.(status := BookingStatus.Cancelled)],
                  properties := db.properties[b.property := p']),
              Success)
  }

  /** Some booking other than `except` holds property `pid` confirmed. */
  predicate HeldByConfirmed(db: Db, pid: PropertyId, except: BookingId) {
    exists k | k in db.bookings ::
      k != except && db.bookings[k].property == pid && db.bookings[k].status == BookingStatus.Confirmed
  }

  /** `cancel_booking` as its comment intends: the property is freed only when
      it is occupied and no confirmed booking holds it. It answers every
      request as `CancelBooking` does and changes the bookings the same way,
      and it keeps every confirmed booking's property occupied. */
  function CancelBookingKeepingOccupancy(db: Db, user: User, verb: HttpMethod, id: BookingId): (r: Reply)
    requires Valid(db)
    ensures Valid(r.db)
    ensures ConfirmedOccupy(db) ==> ConfirmedOccupy(r.db)
    ensures var written := CancelBooking(db, user, verb, id);
      && r.outcome == written.outcome
      && r.db.bookings == written.db.bookings
    ensures r.outcome.Success? ==>
      var b := db.bookings[id];
      var p := db.properties[b.property];
      && r.db == db.(bookings := r.db.bookings, properties := r.db.properties)
      && r.db.properties == db.properties[b.property := r.db.properties[b.property]]
      && (r.db.properties[b.property].status == Available <==>
            p.status == Available || (p.status == Occupied && !HeldByConfirmed(db, b.property, id)))
  {
    var written := CancelBooking(db, user, verb, id);
    if !written.outcome.Success? then written
    else
      var b := db.bookings[id];
      var p := db.properties[b.property];
      var p' := if p.status == Occupied && !HeldByConfirmed(db, b.property, id) then p.(status := Available) else p;
      var r := Reply(written.db.(properties := db.properties[b.property := p']), Success);
      assert ConfirmedOccupy(db) ==> ConfirmedOccupy(r.db) by {
        if ConfirmedOccupy(db) {
          forall k | k in r.db.bookings && r.db.bookings[k].status == BookingStatus.Confirmed
            ensures r.db.properties[r.db.bookings[k].property].status == Occupied
          {
            assert k != id && r.db.bookings[k] == db.bookings[k];
            if db.bookings[k].property == b.property {
              assert HeldByConfirmed(db, b.property, id);
            }
          }
        }
      }
      r
  }

  /** A small database with one property and two bookings of it: booking 1
      is confirmed (so the property is occupied), booking 2 is still
      pending. */
  function TwoBookingsOneConfirmed(): Db {
    var p := Property(10, "Dhaka", "apartment", 2, 1500000, None, Occupied);
    var b1 := Booking(20, 0, Some(0), Some(30), 1, 1500000, 1500000, BookingStatus.Confirmed);
    var b2 := Booking(21, 0, Some(0), Some(30), 1, 1500000, 1500000, BookingStatus.Pending);
    Db({10}, {20, 21}, map[0 := p], map[1 := b1, 2 := b2], map[], map[], map[], map[])
  }

  /** As written, cancelling the pending booking 2 frees the property that
      the confirmed booking 1 occupies: afterwards a confirmed booking's
      property is listed as available and can be booked again. */
  lemma CancelFreesPropertyHeldByAnother()
    ensures var db := TwoBookingsOneConfirmed();
      var r := CancelBooking(db, User(21, Tenant), Post, 2);
      && Valid(db) && ConfirmedOccupy(db)
      && r.outcome.Success?
      && r.db.bookings[1].status == BookingStatus.Confirmed
      && r.db.properties[0].status == Available
      && !ConfirmedOccupy(r.db)
  {
    var db := TwoBookingsOneConfirmed();
    var r := CancelBooking(db, User(21, Tenant), Post, 2);
    assert r.db.bookings[1] == db.bookings[1];
  }

  /** A confirmed booking stays confirmed: whoever asks, neither confirming
      it again nor cancelling it changes the database, and neither succeeds. */
  lemma ConfirmedBookingStaysConfirmed(db: Db, owner: User, user: User, verb: HttpMethod, id: BookingId)
    requires Valid(db) && id in db.bookings && db.bookings[id].status == BookingStatus.Confirmed
    ensures ConfirmBooking(db, owner, id).db == db
    ensures !ConfirmBooking(db, owner, id).outcome.Success?
    ensures CancelBooking(db, user, verb, id).db == db
    ensures !CancelBooking(db, user, verb, id).outcome.Success?
  {
  }

  /** In particular, a booking just confirmed can no longer be cancelled. */
  lemma ConfirmThenCancelKeepsConfirmation(db: Db, owner: User, user: User, verb: HttpMethod, id: BookingId)
    requires Valid(db)
    requires ConfirmBooking(db, owner, id).outcome.Success?
    ensures var confirmed := ConfirmBooking(db, owner, id).db;
      CancelBooking(confirmed, user, verb, id).db == confirmed
  {
    ConfirmedBookingStaysConfirmed(ConfirmBooking(db, owner, id).db, owner, user, verb, id);
  }

  /** Confirming twice is confirming once: the second request finds the
      booking processed and changes nothing. */
  lemma ConfirmIdempotent(db: Db, user: User, id: BookingId)
    requires Valid(db)
    ensures var once := ConfirmBooking(db, user, id).db;
      ConfirmBooking(once, user, id).db == once
  {
  }

  /** Cancelling twice is cancelling once: the second request finds the
      booking no longer pending and changes nothing. */
  lemma CancelIdempotent(db: Db, user: User, verb: HttpMethod, id: BookingId)
    requires Valid(db)
    ensures var once := CancelBooking(db, user, verb, id).db;
      CancelBooking(once, user, verb, id).db == once
  {
  }

  /** For a form `BookingForm.clean` accepts with both dates, the stay is at
      least a day long, so the one-month floor of `book_property` never
      applies: the length is exactly the rounded-up number of 30-day months. */
  lemma ValidatedStayNeedsNoFloor(form: BookingRequest, today: Date)
    requires Forms.BookingClean(form.start, form.end, form.durationMonths, today).Accept?
    requires form.start.Some? && form.end.Some?
    ensures Pricing.DurationMonths(form.start, form.end) == Pricing.CeilMonths(form.end.value - form.start.value)
  {
  }
}
