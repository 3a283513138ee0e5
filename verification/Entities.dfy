/** The records the request handlers read and write, as immutable values, and
    the database as one map per table. A foreign key to an owner or tenant
    profile is written as the id of that profile's user. */
module Entities {
  import opened Common

  /** `available` and `occupied` are the statuses the handlers read and write;
      any further value the property model may allow is carried as `Other`. */
  datatype PropertyStatus = Available | Occupied | Other(name: string)

  datatype Property = Property(
    owner: UserId,
    city: string,
    propertyType: string,
    bedrooms: int,
    rent: Cents,
    deposit: Option<Cents>,
    status: PropertyStatus)

  datatype BookingStatus = Pending | Confirmed | Cancelled | Completed

  datatype Booking = Booking(
    tenant: UserId,
    property: PropertyId,
    start: Option<Date>,
    end: Option<Date>,
    durationMonths: int,
    total: Cents,
    deposit: Cents,
    status: BookingStatus)

  datatype PaymentStatus = Pending | Completed | Failed

  datatype Payment = Payment(
    booking: BookingId,
    tenant: UserId,
    owner: UserId,
    amount: Cents,
    status: PaymentStatus,
    paidOn: Option<Date>)

  datatype ComplaintStatus = Open | InProgress | Resolved

  datatype Complaint = Complaint(
    tenant: UserId,
    property: PropertyId,
    title: string,
    status: ComplaintStatus,
    notes: string,
    resolvedAt: Option<Instant>)

  datatype Review = Review(
    booking: BookingId,
    tenant: UserId,
    property: PropertyId,
    rating: int,
    text: string)

  datatype Message = Message(
    sender: UserId,
    receiver: UserId,
    property: Option<PropertyId>,
    text: string)

  /** The tables the handlers touch. `owners` and `tenants` hold the users
      that have an owner or a tenant profile. */
  datatype Db = Db(
    owners: set<UserId>,
    tenants: set<UserId>,
    properties: map<PropertyId, Property>,
    bookings: map<BookingId, Booking>,
    payments: map<PaymentId, Payment>,
    complaints: map<ComplaintId, Complaint>,
    reviews: map<ReviewId, Review>,
    messages: map<MessageId, Message>)

  /** Referential integrity: every foreign key to a profile, a property, a
      booking or a payment's parties points at an existing row. The sender
      and receiver of a message are user accounts, which the database does
      not hold. */
  ghost predicate Valid(db: Db) {
    && (forall p | p in db.properties :: db.properties[p].owner in db.owners)
    && (forall b | b in db.bookings ::
          db.bookings[b].property in db.properties && db.bookings[b].tenant in db.tenants)
    && (forall p | p in db.payments ::
          && db.payments[p].booking in db.bookings
          && db.payments[p].tenant in db.tenants && db.payments[p].owner in db.owners)
    && (forall c | c in db.complaints ::
          db.complaints[c].property in db.properties && db.complaints[c].tenant in db.tenants)
    && (forall r | r in db.reviews ::
          && db.reviews[r].booking in db.bookings
          && db.reviews[r].tenant in db.tenants && db.reviews[r].property in db.properties)
    && (forall m | m in db.messages && db.messages[m].property.Some? ::
          db.messages[m].property.value in db.properties)
  }

  /** The response of a handler: the database after the request and what the
      user is told. */
  datatype Reply = Reply(db: Db, outcome: Outcome)

  /** `m'` has the keys of `m` and agrees with it everywhere but at `k`. */
  ghost predicate SameExcept<K, V>(m: map<K, V>, m': map<K, V>, k: K) {
    m'.Keys == m.Keys && forall j | j in m && j != k :: m'[j] == m[j]
  }
}
