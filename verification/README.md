# Rental house management: a Dafny model of the request handlers

This project models the core of a Django rental-property application. It
covers the request handlers in `rentalhouse/rentalapp/views.py` that change
data, the property search, and the validation rules of the forms in
`rentalhouse/rentalapp/form.py`.

The database is an immutable value `Entities.Db`. It holds one map per table
(properties, bookings, payments, complaints, reviews, messages) and the sets
of users that have an owner or a tenant profile. Each handler is a pure
function from the database and the request to a `Reply`. A reply holds the
database after the request and an `Outcome`. The outcomes are success,
access denied, not found, missing profile, wrong HTTP method, already
processed, form shown, or form invalid with its messages. Redirect targets
and flash texts are abstracted into these outcomes.

Modules:

- `Common`: the option type, ids, roles, Python truthiness for optional
  numbers, validator verdicts and handler outcomes.
- `Text`: Python's whitespace set and `str.strip`, ASCII case folding, and
  substring search.
- `Entities`: the records, the database, and its referential integrity
  `Valid`.
- `Pricing`: the booking length in months, the total and the deposit.
- `Forms`: the `clean`/`clean_<field>` rules of the forms.
- `Bookings`: `book_property`, `confirm_booking`, `cancel_booking`, and a
  corrected cancel.
- `Payments`: `confirm_payment`.
- `Complaints`: the resolution branch of `owner_complaints`, and
  `quick_resolve_complaint`.
- `Search`: `property_search`.
- `Reviews`: `submit_review`.
- `Messaging`: `delete_message`.

Representations:

- Dates are integers counting days.
- Date-times (`timezone.now()`) are integer instants. They are passed in as
  the parameters `today` and `now`.
- Money is an integer number of cents.
- Database keys chosen for new rows are passed in as `newId`.

## Model

| member | source | states |
|---|---|---|
| Text.Strip | rentalhouse/rentalapp/form.py:340 | the stripped text is the slice of the input between a whitespace-only prefix and a whitespace-only suffix, neither of its ends is whitespace, and it is empty exactly when the input is all whitespace |
| Text.Contains | rentalhouse/rentalapp/views.py:291 | the needle is found exactly when it occurs at some position of the text |
| Pricing.CeilMonths | rentalhouse/rentalapp/views.py:344-346 | the result `m` is the ceiling of days/30: `30*(m-1) < days <= 30*m` |
| Pricing.DurationMonths | rentalhouse/rentalapp/views.py:340-346 | at least one month; exactly one when a date is missing; otherwise the fewest months, at least one, whose 30-day blocks cover the days between the dates |
| Pricing.TotalAmount | rentalhouse/rentalapp/views.py:349 | the total for a stay of one month or more splits evenly into that many instalments of one month's rent, and is never below one month's rent |
| Pricing.SecurityDeposit | rentalhouse/rentalapp/views.py:350 | the deposit is the property's own deposit when it is given and non-zero, and one month's rent when it is missing or zero |
| Pricing.TotalCoversStay | rentalhouse/rentalapp/views.py:341-349 | whole-month pricing charges at least the per-day share of the rent and less than one extra month's rent; a stay of no positive length costs one month |
| Forms.PasswordsClean | rentalhouse/rentalapp/form.py:33-41 | rejects, with the mismatch message, exactly when both passwords are given and differ |
| Forms.PasswordsValid | rentalhouse/rentalapp/form.py:8-41 | registration passwords pass exactly when the stripped password has at least 6 characters, the confirmation is not blank, neither holds a null character, and the two agree after stripping |
| Forms.RentAmountClean | rentalhouse/rentalapp/form.py:104-108 | accepts exactly a positive rent |
| Forms.AvailableFromClean | rentalhouse/rentalapp/form.py:110-114 | accepts exactly a missing date or one not before today |
| Forms.BedroomsClean | rentalhouse/rentalapp/form.py:116-120 | accepts exactly a missing or non-negative count |
| Forms.PropertyFormErrors | rentalhouse/rentalapp/form.py:104-120 | no errors exactly when all three field rules accept; at most one error per field |
| Forms.SearchFieldsValid | rentalhouse/rentalapp/form.py:132-185 | a query passes the field checks exactly when the city has at most 100 characters and no null character, the type is one of the choices, and every bound is absent or at least zero; for such a query a bound is truthy exactly when it is given and positive |
| Forms.SearchClean | rentalhouse/rentalapp/form.py:187-200 | rejects exactly when both bounds of bedrooms or of rent are truthy and the minimum exceeds the maximum; for valid fields, that is a positive maximum below the minimum |
| Forms.BookingClean | rentalhouse/rentalapp/form.py:213-229 | accepts exactly when the dates, if both given, satisfy start before end and start not in the past, and the duration is missing or not negative |
| Forms.AmountClean | rentalhouse/rentalapp/form.py:241-245 | accepts exactly a positive payment amount |
| Forms.DueDateClean | rentalhouse/rentalapp/form.py:247-251 | accepts exactly a missing due date or one not before today |
| Forms.PaymentFormErrors | rentalhouse/rentalapp/form.py:241-251 | no errors exactly when both payment field rules accept |
| Forms.TitleClean | rentalhouse/rentalapp/form.py:264-268 | accepts exactly a complaint title of at least 5 characters |
| Forms.RatingClean | rentalhouse/rentalapp/form.py:292-296 | accepts exactly a rating from 1 to 5 |
| Forms.ReviewTextClean | rentalhouse/rentalapp/form.py:298-302 | accepts exactly an empty review text or one of at least 10 characters |
| Forms.ReviewFormErrors | rentalhouse/rentalapp/form.py:292-302 | no errors exactly when both review field rules accept |
| Forms.MessageTextClean | rentalhouse/rentalapp/form.py:338-342 | rejects exactly a message text made only of whitespace |
| Forms.ReportDatesClean | rentalhouse/rentalapp/form.py:488-496 | rejects exactly when both report dates are given and the start is after the end |
| Bookings.BookProperty | rentalhouse/rentalapp/views.py:322-364 | succeeds exactly for a tenant with a profile who posts a valid form for an available property; only non-tenants are denied; nothing changes unless it succeeds; on success it adds one pending booking with the computed length, total and deposit, keeps every other booking, and keeps integrity and the rule that confirmed bookings occupy their property |
| Bookings.ValidatedStayNeedsNoFloor | rentalhouse/rentalapp/views.py:341-346 | once the booking form accepts both dates, the stay is at least a day, so the one-month floor never applies and the length is exactly the rounded-up number of 30-day months |
| Bookings.ConfirmBooking | rentalhouse/rentalapp/views.py:366-389 | succeeds exactly for the owner of the booking's property when the booking is pending; then the booking becomes confirmed and the property occupied, and nothing else changes; a non-pending booking is reported as already processed and left unchanged; other account types are denied; confirmed bookings keep occupying their property |
| Bookings.CancelBooking | rentalhouse/rentalapp/views.py:391-439 | succeeds exactly on a POST by the property's owner or the booking's tenant for a pending booking; then the booking is cancelled and an occupied property becomes available, whichever booking occupied it; in every other case nothing changes |
| Bookings.MayCancel | rentalhouse/rentalapp/views.py:404-418 | only the property's owner or the booking's tenant may cancel, never an admin and never an account without a profile; the owner holding an owner profile, and the tenant holding a tenant profile, always may |
| Bookings.CancelFreesPropertyHeldByAnother | rentalhouse/rentalapp/views.py:426-431 | a concrete database on which cancelling a pending booking frees a property that another, confirmed booking holds |
| Bookings.CancelBookingKeepingOccupancy | rentalhouse/rentalapp/views.py:423-433 | the same outcome and booking change as the handler, but frees the property only when no confirmed booking holds it, so confirmed bookings keep occupying their property |
| Bookings.ConfirmedBookingStaysConfirmed | rentalhouse/rentalapp/views.py:375-384 | for any booking already confirmed, whoever asks and with any method, neither confirming it again nor cancelling it succeeds, and both leave the database unchanged |
| Bookings.ConfirmThenCancelKeepsConfirmation | rentalhouse/rentalapp/views.py:423-437 | a booking just confirmed by its property's owner can no longer be cancelled: the cancel leaves the confirmed database unchanged |
| Bookings.ConfirmIdempotent | rentalhouse/rentalapp/views.py:375-384 | confirming a booking twice leaves the same database as confirming it once |
| Bookings.CancelIdempotent | rentalhouse/rentalapp/views.py:423-437 | cancelling a booking twice leaves the same database as cancelling it once |
| Payments.ConfirmPayment | rentalhouse/rentalapp/views.py:442-466 | a GET is refused, a non-owner denied; succeeds exactly for the payment's owner when the payment is not yet completed; a found payment ends up completed; an existing payment date is kept and a missing one set to today; nothing else changes |
| Payments.ConfirmPaymentIdempotent | rentalhouse/rentalapp/views.py:454-462 | confirming a payment again on any later day changes nothing, so its payment date is the first one |
| Complaints.Resolve | rentalhouse/rentalapp/views.py:671-679 | the saved complaint takes the submitted status and notes, keeps an existing resolution time, gets `now` when newly resolved, and carries a resolution time exactly when it is resolved |
| Complaints.UpdateComplaint | rentalhouse/rentalapp/views.py:634-685 | succeeds exactly for an owner with a profile and a complaint about one of their properties; nothing changes otherwise; only that complaint changes; integrity and the time-stamp rule are kept |
| Complaints.QuickResolve | rentalhouse/rentalapp/views.py:708-731 | other account types are denied; succeeds exactly for an owner with a profile and a complaint about one of their properties; the complaint becomes resolved with the canned note and its resolution time is overwritten with `now`; nothing changes otherwise |
| Complaints.UpdateComplaintIdempotent | rentalhouse/rentalapp/views.py:673-677 | saving the same resolution again at a later time changes nothing |
| Complaints.ResaveKeepsQuickStamp | rentalhouse/rentalapp/views.py:722-724 | re-saving a quickly resolved complaint as resolved keeps the quick resolution's time |
| Search.Keep | rentalhouse/rentalapp/views.py:291-301 | one query-set filter keeps exactly the elements that satisfy it and adds none |
| Search.SearchChain | rentalhouse/rentalapp/views.py:279-301 | the view's chain of filters only narrows the listing to available properties, and without a bound and valid form it lists every available property |
| Search.PropertySearch | rentalhouse/rentalapp/views.py:278-301 | the results are exactly the available properties that pass every truthy bound of a valid bound form, in listing order; without a valid form they are all available properties |
| Search.SearchIsOneFilter | rentalhouse/rentalapp/views.py:279-301 | the six successive filters of the view equal one pass over the listing by the conjunction of the bounds |
| Search.PassesSearchSteps | rentalhouse/rentalapp/views.py:290-301 | a property passes the six filter steps exactly when it matches the query |
| Search.SearchCleanRejectsOnlyEmptyRanges | rentalhouse/rentalapp/form.py:187-200 | for well-formed fields, the search form's cross-field check accepts a query exactly when some property passes all of its bounds |
| Search.ZeroMaxBedroomsIsNoBound | rentalhouse/rentalapp/views.py:296-297 | a maximum of zero bedrooms is falsy and lists the same properties as no maximum |
| Reviews.SubmitReview | rentalhouse/rentalapp/views.py:733-763 | only a tenant's own booking can be reviewed, and at most once; a GET shows the form; a POST whose rating or text breaks its rule is refused with exactly the broken rules' messages; a valid POST adds one review tied to the booking, its tenant and its property; at most one review per booking is kept |
| Reviews.SecondReviewRefused | rentalhouse/rentalapp/views.py:741-743 | after a successful review, a second submission for the same booking is refused and changes nothing |
| Messaging.DeleteMessage | rentalhouse/rentalapp/views.py:824-845 | a missing message is not found; only its sender or receiver may delete it; deleting removes exactly that message |
| Messaging.DeleteTwiceNotFound | rentalhouse/rentalapp/views.py:827-832 | a deleted message is not found by a second delete, which changes nothing |

## Left out

- Rendering, redirect targets and flash-message texts: replaced by the `Outcome` of each handler.
- The ORM: lookups are map membership plus the lookup's filter; `save()` is a map update.
- Read-only views (home, listings, property detail, dashboards, inbox, owner booking and payment lists) and the GET listing part of `owner_complaints` with its counts: they change nothing.
- Login, logout, registration's user and profile creation, the profile page, and password hashing: the model covers only the registration form's password rules.
- `clean_email` of the registration form: it queries the user table, which this model does not hold.
- `add_property`, `edit_property`, `make_payment`, `submit_complaint` and `send_message`: they save a validated form as one row. Their forms' rules are modelled in `Forms`; the saves are not.
- `delete_property`: it has no form; on a POST by the property's owner it deletes the property row. Deleting rows that others refer to is the ORM's cascade, which this model does not hold.
- CSV and PDF report export: they produce output files and are not part of this model.
- `timezone.now()`: it becomes the `today` and `now` parameters.
- Concurrent requests: each handler runs on one database value.
- `book_property` computes `math.ceil(days / 30)` in floating point. The model uses exact integer ceiling division, which agrees for every realistic stay length.
- Decimal money amounts: they are integer cents, so the two-decimal-place check of the decimal fields always holds.
- The booking form's submitted `duration_months`: it is checked by `Forms.BookingClean`, but the handler overwrites it, so it is not stored.
- The booking's `special_requests`: it is stored as submitted, and no rule reads it.
- The stored payment carries no method or due date, because no modelled handler reads them after the form is cleaned. The due date's rule is `Forms.DueDateClean`.
- `models.py` (field declarations, choices and defaults) is not modelled. New bookings start out pending, which is taken to be the default booking status.
- Property statuses other than available and occupied are carried as `PropertyStatus.Other`.
- A complaint resolution form that fails validation: it is not modelled, and the resolution is taken as a valid status and notes.
- Django's own field checks (required fields, choices, maximum lengths, minimum lengths): they are modelled only for the search form, by `Forms.SearchFieldsValid`, and for the registration passwords, by `Forms.PasswordsValid`. Both include the null-character check every character field makes.
- Text.Contains and Search.PropertySearch: `icontains` is modelled as ASCII lower-casing followed by a substring test. The database's collation may fold more characters.

## Findings

| source | as written | input that shows it | evidently intended | confidence | as-written member | corrected member |
|---|---|---|---|---|---|---|
| rentalhouse/rentalapp/views.py:426-431 | cancelling a pending booking sets the property to available whenever it is occupied | property 1 is occupied by confirmed booking 1; the tenant of pending booking 2 for property 1 cancels it; property 1 becomes available while booking 1 is still confirmed | only free the property if this booking occupied it; a pending booking never did, so no confirmed booking may be left holding an available property | medium, not executed | Bookings.CancelFreesPropertyHeldByAnother | Bookings.CancelBookingKeepingOccupancy |
