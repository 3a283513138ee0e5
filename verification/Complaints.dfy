/** The complaint resolution workflow of rentalhouse/rentalapp/views.py: the
    owner of the property a complaint is about updates its status and notes
    (the POST branch of `owner_complaints`) or resolves it in one step
    (`quick_resolve_complaint`). A complaint carries a resolution time
    exactly while it is resolved. */
module Complaints {
  import opened Common
  import opened Entities

  const QuickResolutionNote := "Resolved by owner."

  /** The submitted fields of a `ComplaintResolutionForm`. */
  datatype Resolution = Resolution(status: ComplaintStatus, notes: string)

  /** The resolution time is recorded exactly when the complaint is resolved. */
  predicate Stamped(c: Complaint) {
    c.resolvedAt.Some? <==> c.status == Resolved
  }

  ghost predicate AllStamped(db: Db) {
    forall id | id in db.complaints :: Stamped(db.complaints[id])
  }

  /** The lookup `ComplaintsRequests(complaint_id=id, property__in=<user's
      properties>)` finds the complaint. */
  predicate AboutOwnProperty(db: Db, user: UserId, id: ComplaintId) {
    && id in db.complaints
    && db.complaints[id].property in db.properties
    && db.properties[db.complaints[id].property].owner == user
  }

  /** The complaint after the owner saves a resolution form: status and
      notes as submitted, a resolution time kept if there already was one and
      taken from `now` otherwise, and no resolution time for any status but
      resolved. Whatever the complaint looked like before, it comes out
      `Stamped`. */
  function Resolve(c: Complaint, form: Resolution, now: Instant): (c': Complaint)
    ensures Stamped(c')
    ensures c' == c.(status := form.status, notes := form.notes, resolvedAt := c'.resolvedAt)
    ensures form.status == Resolved && c.resolvedAt.Some? ==> c'.resolvedAt == c.resolvedAt
    ensures form.status == Resolved && c.resolvedAt.None? ==> c'.resolvedAt == Some(now)
  {
    var c' := c.(status := form.status, notes := form.notes);
    var c' := if c'.status == Resolved && c'.resolvedAt.None? then c'.(resolvedAt := Some(now)) else c';
    if c'.status != Resolved then c'.(resolvedAt := None) else c'
  }

  /** The POST branch of `owner_complaints`: an owner with an owner profile
      saves a resolution for a complaint about one of their properties. Any
      other request changes nothing. */
  function UpdateComplaint(db: Db, user: User, id: ComplaintId, form: Resolution, now: Instant): (r: Reply)
    ensures Valid(db) ==> Valid(r.db)
    ensures AllStamped(db) ==> AllStamped(r.db)
    ensures r.outcome.Success? <==>
      user.role == Owner && user.id in db.owners && AboutOwnProperty(db, user.id, id)
    ensures r.outcome == Denied <==> user.role != Owner
    ensures !r.outcome.Success? ==> r.db == db
    ensures r.outcome.Success? ==>
      && r.db == db.(complaints := r.db.complaints)
      && SameExcept(db.complaints, r.db.complaints, id)
      && r.db.complaints[id] == Resolve(db.complaints[id], form, now)
  {
    if user.role != Owner then Reply(db, Denied)
    else if user.id !in db.owners then Reply(db, NoProfile)
    else if !AboutOwnProperty(db, user.id, id) then Reply(db, NotFound)
    else
      Reply(db.(complaints := db.complaints[id := Resolve(db.complaints[id], form, now)]), Success)
  }

  /** `quick_resolve_complaint`: the owner marks a complaint about one of
      their properties resolved with the canned note, and the resolution time
      is overwritten with `now` even when one was already recorded. A missing
      profile or complaint is caught and changes nothing. */
  function QuickResolve(db: Db, user: User, id: ComplaintId, now: Instant): (r: Reply)
    ensures Valid(db) ==> Valid(r.db)
    ensures AllStamped(db) ==> AllStamped(r.db)
    ensures r.outcome.Success? <==>
      user.role == Owner && user.id in db.owners && AboutOwnProperty(db, user.id, id)
    ensures r.outcome == Denied <==> user.role != Owner
    ensures !r.outcome.Success? ==> r.db == db
    ensures r.outcome.Success? ==>
      && r.db == db.(complaints := r.db.complaints)
      && SameExcept(db.complaints, r.db.complaints, id)
      && r.db.complaints[id].status == Resolved
      && r.db.complaints[id].resolvedAt == Some(now)
      && r.db.complaints[id] == db.complaints[id].(status := Resolved, notes := QuickResolutionNote, resolvedAt := Some(now))
  {
    if user.role != Owner then Reply(db, Denied)
    else if user.id !in db.owners then Reply(db, NoProfile)
    else if !AboutOwnProperty(db, user.id, id) then Reply(db, NotFound)
    else
      var c := db.complaints[id];
      Reply(db.(complaints := db.complaints[id := c.(status := Resolved, notes := QuickResolutionNote, resolvedAt := Some(now))]),
            Success)
  }

  /** Saving the same resolution twice, at any two times, is saving it once:
      a resolved complaint keeps its first resolution time. */
  lemma UpdateComplaintIdempotent(db: Db, user: User, id: ComplaintId, form: Resolution, now: Instant, later: Instant)
    ensures var once := UpdateComplaint(db, user, id, form, now).db;
      UpdateComplaint(once, user, id, form, later).db == once
  {
  }

  /** Re-saving a quickly resolved complaint as resolved keeps the quick
      resolution's time. */
  lemma ResaveKeepsQuickStamp(db: Db, user: User, id: ComplaintId, notes: string, now: Instant, later: Instant)
    requires QuickResolve(db, user, id, now).outcome.Success?
    ensures var quick := QuickResolve(db, user, id, now).db;
      UpdateComplaint(quick, user, id, Resolution(Resolved, notes), later).db.complaints[id].resolvedAt == Some(now)
  {
  }
}
