/** `confirm_payment` (rentalhouse/rentalapp/views.py): the owner a payment
    is addressed to marks it as received. */
module Payments {
  import opened Common
  import opened Entities

  /** The lookup `Payments(pk=id, owner__user=user)` finds the payment. */
  predicate PayableTo(db: Db, user: UserId, id: PaymentId) {
    id in db.payments && db.payments[id].owner == user
  }

  /** `confirm_payment`: a POST by an owner on a payment addressed to them
      that is not yet completed completes it; the payment date is filled in
      with `today` only when none was recorded. A completed payment is left
      as it is, and a GET, another account type or someone else's payment
      change nothing. */
  function ConfirmPayment(db: Db, user: User, verb: HttpMethod, id: PaymentId, today: Date): (r: Reply)
    ensures Valid(db) ==> Valid(r.db)
    ensures r.outcome.Success? <==>
      verb == Post && user.role == Owner && PayableTo(db, user.id, id)
      && db.payments[id].status != PaymentStatus.Completed
    ensures r.outcome == BadMethod <==> verb != Post
    ensures r.outcome == Denied <==> verb == Post && user.role != Owner
    ensures r.outcome == AlreadyDone <==>
      verb == Post && user.role == Owner && PayableTo(db, user.id, id)
      && db.payments[id].status == PaymentStatus.Completed
    ensures verb == Post && user.role == Owner && PayableTo(db, user.id, id) ==>
      id in r.db.payments && r.db.payments[id].status == PaymentStatus.Completed
    ensures !r.outcome.Success? ==> r.db == db
    ensures r.outcome.Success? ==>
      var before := db.payments[id];
      && r.db == db.(payments := r.db.payments)
      && SameExcept(db.payments, r.db.payments, id)
      && var after := r.db.payments[id];
         && after == before.(status := PaymentStatus.Completed, paidOn := after.paidOn)
         && (before.paidOn.Some? ==> after.paidOn == before.paidOn)
         && (before.paidOn.None? ==> after.paidOn == Some(today))
  {
    if verb != Post then Reply(db, BadMethod)
    else if user.role != Owner then Reply(db, Denied)
    else if !PayableTo(db, user.id, id) then Reply(db, NotFound)
    else
      var p := db.payments[id];
      if p.status == PaymentStatus.Completed then Reply(db, AlreadyDone)
      else
        var paidOn := if p.paidOn.None? then Some(today) else p.paidOn;
        Reply(db.(payments := db.payments[id := p.(status := PaymentStatus.Completed, paidOn := paidOn)]),
              Success)
  }

  /** Confirming a payment a second time, on any later day, changes nothing
      further: the second request finds it completed. */
  lemma ConfirmPaymentIdempotent(db: Db, user: User, verb: HttpMethod, id: PaymentId, today: Date, later: Date)
    ensures var once := ConfirmPayment(db, user, verb, id, today).db;
      ConfirmPayment(once, user, verb, id, later).db == once
  {
  }
}
