/** Shared vocabulary of the rental-house model: optional values, identifiers,
    calendar values, money, the requesting user, the verdict of a form
    validator and the outcome of a request handler. */
module Common {

  /** A value that may be absent (Python's `None`). */
  datatype Option<+T> = None | Some(value: T)

  /** A calendar date, as a day number: consecutive days differ by one. */
  type Date = int

  /** A point in time (a timezone-aware datetime), as an integer tick count. */
  type Instant = int

  /** A money amount in cents; the application stores two-decimal amounts. */
  type Cents = int

  type UserId = nat
  type PropertyId = nat
  type BookingId = nat
  type PaymentId = nat
  type ComplaintId = nat
  type ReviewId = nat
  type MessageId = nat

  /** The `user_type` of an account. */
  datatype Role = Tenant | Owner | Admin

  /** The authenticated user issuing a request. */
  datatype User = User(id: UserId, role: Role)

  datatype HttpMethod = Get | Post

  /** Python truthiness of an optional number: `None` and zero are false. */
  predicate Truthy(x: Option<int>) {
    x.Some? && x.value != 0
  }

  /** Python truthiness of an optional string: `None` and `""` are false. */
  predicate TruthyText(s: Option<string>) {
    s.Some? && |s.value| > 0
  }

  /** The result of one `clean*` validator: it either accepts the value or
      raises a `ValidationError` carrying a message. */
  datatype Verdict = Accept | Reject(message: string)

  /** What a request handler reports back to the user (the flash message
      kind, or the page it renders instead of changing anything). */
  datatype Outcome =
    | Success                      // the change was made
    | Denied                       // wrong account type, or not a party to the record
    | NotFound                     // the lookup found no matching record
    | NoProfile                    // the user's owner or tenant profile is missing
    | BadMethod                    // the handler only accepts POST
    | AlreadyDone                  // nothing left to do: already processed, paid or reviewed
    | FormShown                    // a GET request: the blank form is rendered
    | Invalid(errors: seq<string>) // the submitted form did not validate
}
