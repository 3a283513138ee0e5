/** The `clean*` validators of the application's forms
    (rentalhouse/rentalapp/form.py). Each takes the values Django's field
    validation has already produced (`None` for an absent optional value) and
    either accepts or rejects with the message the form shows. Dates are
    compared with `today`, the server's current date. */
module Forms {
  import opened Common
  import Text

  const PasswordsDiffer := "Passwords do not match"
  const RentNotPositive := "Rent amount must be positive"
  const AvailableInPast := "Available date cannot be in the past"
  const NegativeBedrooms := "Number of bedrooms cannot be negative"
  const BedroomBoundsCrossed := "Minimum bedrooms cannot be greater than maximum bedrooms"
  const RentBoundsCrossed := "Minimum rent cannot be greater than maximum rent"
  const EndNotAfterStart := "End date must be after start date"
  const StartInPast := "Start date cannot be in the past"
  const DurationTooShort := "Duration must be at least 1 month"
  const AmountNotPositive := "Payment amount must be positive"
  const DueInPast := "Due date cannot be in the past"
  const TitleTooShort := "Title must be at least 5 characters long"
  const RatingOutOfRange := "Rating must be between 1 and 5"
  const ReviewTooShort := "Review must be at least 10 characters long"
  const MessageEmpty := "Message cannot be empty"
  const ReportDatesCrossed := "Start date cannot be after end date"

  /** The messages of the rejecting verdicts, in order. */
  function Errors(vs: seq<Verdict>): (errs: seq<string>)
    ensures |errs| == 0 <==> forall i :: 0 <= i < |vs| ==> vs[i].Accept?
    ensures |errs| <= |vs|
    ensures forall m :: m in errs <==> exists i :: 0 <= i < |vs| && vs[i].Reject? && vs[i].message == m
  {
    if |vs| == 0 then []
    else (if vs[0].Reject? then [vs[0].message] else []) + Errors(vs[1..])
  }

  /** Every `CharField` refuses a value holding the null character. */
  predicate NoNull(s: string) {
    '\0' !in s
  }

  // ---------------------------------------------------------------- registration

  /** `UserRegistrationForm.clean`: both passwords given (non-empty) and
      different is the one rejected case. */
  function PasswordsClean(password: Option<string>, confirm: Option<string>): (v: Verdict)
    ensures v.Reject? <==>
      password.Some? && confirm.Some? && |password.value| > 0 && |confirm.value| > 0
      && password.value != confirm.value
    ensures v.Reject? ==> v.message == PasswordsDiffer
  {
    if TruthyText(password) && TruthyText(confirm) && password.value != confirm.value
    then Reject(PasswordsDiffer) else Accept
  }

  /** The two password fields as submitted. Both are required character fields
      whose value is stripped of surrounding whitespace; `password` must then
      have at least 6 characters, and no character field may contain a null
      character. A field that fails reaches `clean` as `None`. The whole form
      is valid when both fields pass and `clean` accepts. */
  function PasswordsValid(password: string, confirm: string): (ok: bool)
    ensures ok <==>
      |Text.Strip(password)| >= 6 && !Text.Blank(confirm)
      && Text.Strip(password) == Text.Strip(confirm)
      && NoNull(password) && NoNull(confirm)
  {
    var pw := Text.Strip(password);
    var cf := Text.Strip(confirm);
    var pwOk := |pw| >= 6 && NoNull(password);
    var cfOk := |cf| > 0 && NoNull(confirm);
    && pwOk && cfOk
    && PasswordsClean(if pwOk then Some(pw) else None, if cfOk then Some(cf) else None).Accept?
  }

  // ---------------------------------------------------------------- property

  /** `PropertyForm.clean_rent_amount`. */
  function RentAmountClean(rent: Cents): (v: Verdict)
    ensures v.Accept? <==> rent > 0
    ensures v.Reject? ==> v.message == RentNotPositive
  {
    if rent <= 0 then Reject(RentNotPositive) else Accept
  }

  /** `PropertyForm.clean_available_from`: an absent date is accepted. */
  function AvailableFromClean(availableFrom: Option<Date>, today: Date): (v: Verdict)
    ensures v.Accept? <==> availableFrom.None? || availableFrom.value >= today
    ensures v.Reject? ==> v.message == AvailableInPast
  {
    if availableFrom.Some? && availableFrom.value < today then Reject(AvailableInPast) else Accept
  }

  /** `PropertyForm.clean_bedrooms`: `bedrooms and bedrooms < 0`; zero is
      falsy but not negative, so only a negative count is rejected. */
  function BedroomsClean(bedrooms: Option<int>): (v: Verdict)
    ensures v.Accept? <==> bedrooms.None? || bedrooms.value >= 0
    ensures v.Reject? ==> v.message == NegativeBedrooms
  {
    if Truthy(bedrooms) && bedrooms.value < 0 then Reject(NegativeBedrooms) else Accept
  }

  /** The field errors of a `PropertyForm`, in the order the fields are
      declared (bedrooms, rent amount, available from). */
  function PropertyFormErrors(bedrooms: Option<int>, rent: Cents, availableFrom: Option<Date>, today: Date): (errs: seq<string>)
    ensures |errs| == 0 <==>
      (bedrooms.None? || bedrooms.value >= 0) && rent > 0
      && (availableFrom.None? || availableFrom.value >= today)
    ensures |errs| <= 3
  {
    var vs := [BedroomsClean(bedrooms), RentAmountClean(rent), AvailableFromClean(availableFrom, today)];
    assert vs[0].Accept? && vs[1].Accept? && vs[2].Accept? <==> forall i :: 0 <= i < |vs| ==> vs[i].Accept?;
    Errors(vs)
  }

  // ---------------------------------------------------------------- search

  const PropertyTypeChoices: seq<string> := ["", "apartment", "house", "villa", "condo", "studio"]

  /** The cleaned fields of a `PropertySearchForm` (city already stripped;
      the empty string is the "Any Type" choice). */
  datatype SearchQuery = SearchQuery(
    city: string,
    propertyType: string,
    minBedrooms: Option<int>,
    maxBedrooms: Option<int>,
    minRent: Option<Cents>,
    maxRent: Option<Cents>)

  /** A bound declared with `min_value=0`: absent, or at least zero. */
  predicate NonNegativeBound(b: Option<int>) {
    b.None? || b.value >= 0
  }

  /** The field declarations: the city at most 100 characters and free of
      the null character, the type one of the choices, every bound absent or
      at least zero. For such a query a bound is truthy exactly when it is
      given and positive, and a non-empty type names a kind of property. */
  predicate SearchFieldsValid(q: SearchQuery): (ok: bool)
    ensures ok <==>
      && |q.city| <= 100 && NoNull(q.city)
      && q.propertyType in PropertyTypeChoices
      && NonNegativeBound(q.minBedrooms) && NonNegativeBound(q.maxBedrooms)
      && NonNegativeBound(q.minRent) && NonNegativeBound(q.maxRent)
    ensures ok ==>
      && (Truthy(q.minBedrooms) <==> q.minBedrooms.Some? && q.minBedrooms.value > 0)
      && (Truthy(q.maxBedrooms) <==> q.maxBedrooms.Some? && q.maxBedrooms.value > 0)
      && (Truthy(q.minRent) <==> q.minRent.Some? && q.minRent.value > 0)
      && (Truthy(q.maxRent) <==> q.maxRent.Some? && q.maxRent.value > 0)
    ensures ok && |q.propertyType| > 0 ==>
      q.propertyType in {"apartment", "house", "villa", "condo", "studio"}
  {
    && |q.city| <= 100 && NoNull(q.city)
    && q.propertyType in PropertyTypeChoices
    && NonNegativeBound(q.minBedrooms) && NonNegativeBound(q.maxBedrooms)
    && NonNegativeBound(q.minRent) && NonNegativeBound(q.maxRent)
  }

  /** `PropertySearchForm.clean`: a pair of bounds is compared only when both
      are truthy, so a zero or absent bound never causes a rejection. */
  function SearchClean(q: SearchQuery): (v: Verdict)
    ensures v.Reject? <==>
      || (Truthy(q.minBedrooms) && Truthy(q.maxBedrooms) && q.minBedrooms.value > q.maxBedrooms.value)
      || (Truthy(q.minRent) && Truthy(q.maxRent) && q.minRent.value > q.maxRent.value)
    ensures SearchFieldsValid(q) ==>
      (v.Reject? <==>
        || (q.minBedrooms.Some? && q.maxBedrooms.Some? && q.maxBedrooms.value > 0
            && q.minBedrooms.value > q.maxBedrooms.value)
        || (q.minRent.Some? && q.maxRent.Some? && q.maxRent.value > 0
            && q.minRent.value > q.maxRent.value))
    ensures (v.Reject? && Truthy(q.minBedrooms) && Truthy(q.maxBedrooms)
      && q.minBedrooms.value > q.maxBedrooms.value) ==> v.message == BedroomBoundsCrossed
  {
    if Truthy(q.minBedrooms) && Truthy(q.maxBedrooms) && q.minBedrooms.value > q.maxBedrooms.value then
      Reject(BedroomBoundsCrossed)
    else if Truthy(q.minRent) && Truthy(q.maxRent) && q.minRent.value > q.maxRent.value then
      Reject(RentBoundsCrossed)
    else
      Accept
  }

  predicate SearchFormValid(q: SearchQuery) {
    SearchFieldsValid(q) && SearchClean(q).Accept?
  }

  // ---------------------------------------------------------------- booking

  /** `BookingForm.clean`. With both dates given the stay must end after it
      starts and must not start before today; a duration of zero is falsy and
      so slips through, only a negative one is rejected. */
  function BookingClean(start: Option<Date>, end: Option<Date>, durationMonths: Option<int>, today: Date): (v: Verdict)
    ensures v.Accept? <==>
      && (start.None? || end.None? || (start.value < end.value && today <= start.value))
      && (durationMonths.None? || durationMonths.value >= 0)
    ensures v.Reject? && start.Some? && end.Some? && start.value >= end.value ==>
      v.message == EndNotAfterStart
  {
    if start.Some? && end.Some? && start.value >= end.value then Reject(EndNotAfterStart)
    else if start.Some? && end.Some? && start.value < today then Reject(StartInPast)
    else if Truthy(durationMonths) && durationMonths.value < 1 then Reject(DurationTooShort)
    else Accept
  }

  // ---------------------------------------------------------------- payment

  /** `PaymentForm.clean_amount`. */
  function AmountClean(amount: Cents): (v: Verdict)
    ensures v.Accept? <==> amount > 0
    ensures v.Reject? ==> v.message == AmountNotPositive
  {
    if amount <= 0 then Reject(AmountNotPositive) else Accept
  }

  /** `PaymentForm.clean_due_date`: an absent date is accepted. */
  function DueDateClean(due: Option<Date>, today: Date): (v: Verdict)
    ensures v.Accept? <==> due.None? || due.value >= today
    ensures v.Reject? ==> v.message == DueInPast
  {
    if due.Some? && due.value < today then Reject(DueInPast) else Accept
  }

  /** The field errors of a `PaymentForm`, amount first. */
  function PaymentFormErrors(amount: Cents, due: Option<Date>, today: Date): (errs: seq<string>)
    ensures |errs| == 0 <==> amount > 0 && (due.None? || due.value >= today)
  {
    var vs := [AmountClean(amount), DueDateClean(due, today)];
    assert vs[0].Accept? && vs[1].Accept? <==> forall i :: 0 <= i < |vs| ==> vs[i].Accept?;
    Errors(vs)
  }

  // ---------------------------------------------------------------- complaint

  /** `ComplaintRequestForm.clean_title`. */
  function TitleClean(title: string): (v: Verdict)
    ensures v.Accept? <==> |title| >= 5
    ensures v.Reject? ==> v.message == TitleTooShort
  {
    if |title| < 5 then Reject(TitleTooShort) else Accept
  }

  // ---------------------------------------------------------------- review

  /** `ReviewRatingForm.clean_rating`. */
  function RatingClean(rating: int): (v: Verdict)
    ensures v.Accept? <==> 1 <= rating <= 5
    ensures v.Reject? ==> v.message == RatingOutOfRange
  {
    if rating < 1 || rating > 5 then Reject(RatingOutOfRange) else Accept
  }

  /** `ReviewRatingForm.clean_review_text`: the empty text is falsy and so is
      accepted; any other text needs at least 10 characters. */
  function ReviewTextClean(text: string): (v: Verdict)
    ensures v.Accept? <==> |text| == 0 || |text| >= 10
    ensures v.Reject? ==> v.message == ReviewTooShort
  {
    if |text| > 0 && |text| < 10 then Reject(ReviewTooShort) else Accept
  }

  /** The field errors of a `ReviewRatingForm`, rating first. */
  function ReviewFormErrors(rating: int, text: string): (errs: seq<string>)
    ensures |errs| == 0 <==> 1 <= rating <= 5 && (|text| == 0 || |text| >= 10)
  {
    var vs := [RatingClean(rating), ReviewTextClean(text)];
    assert vs[0].Accept? && vs[1].Accept? <==> forall i :: 0 <= i < |vs| ==> vs[i].Accept?;
    Errors(vs)
  }

  // ---------------------------------------------------------------- message

  /** `MessageForm.clean_message_text`: a text that strips to nothing, that
      is one made only of whitespace, is rejected. */
  function MessageTextClean(text: string): (v: Verdict)
    ensures v.Reject? <==> forall i :: 0 <= i < |text| ==> Text.IsSpace(text[i])
    ensures v.Reject? ==> v.message == MessageEmpty
  {
    if |Text.Strip(text)| < 1 then Reject(MessageEmpty) else Accept
  }

  // ---------------------------------------------------------------- report

  /** `ReportGenerationForm.clean`: a start after the end is rejected; equal
      dates are a one-day report and are accepted. */
  function ReportDatesClean(start: Option<Date>, end: Option<Date>): (v: Verdict)
    ensures v.Reject? <==> start.Some? && end.Some? && start.value > end.value
    ensures v.Reject? ==> v.message == ReportDatesCrossed
  {
    if start.Some? && end.Some? && start.value > end.value then Reject(ReportDatesCrossed) else Accept
  }
}
