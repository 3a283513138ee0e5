/** How a new booking is priced: its length in whole months, the amount due
    for the stay and the security deposit (rentalhouse/rentalapp/views.py,
    `book_property`). */
module Pricing {
  import opened Common
  import opened Entities

  /** `months` whole 30-day months are enough for a stay of `days` days. */
  predicate Covers(months: int, days: int) {
    days <= 30 * months
  }

  /** `ceil(days / 30)`, computed exactly on integers. */
  function CeilMonths(days: int): (m: int)
    ensures 30 * (m - 1) < days <= 30 * m
  {
    -((-days) / 30)
  }

  /** The booking length in months: one month when a date is missing,
      otherwise `max(1, ceil(days / 30))` for the days between the dates.
      This is the fewest whole months, at least one, that cover the stay. */
  function DurationMonths(start: Option<Date>, end: Option<Date>): (m: int)
    ensures m >= 1
    ensures start.None? || end.None? ==> m == 1
    ensures start.Some? && end.Some? ==>
      var days := end.value - start.value;
      && Covers(m, days)
      && (forall k :: 1 <= k < m ==> !Covers(k, days))
      && (days > 0 ==> 30 * (m - 1) < days)
  {
    if start.Some? && end.Some? then
      var ceil := CeilMonths(end.value - start.value);
      if ceil < 1 then 1 else ceil
    else
      1
  }

  /** The amount due for the whole stay: one month's rent for every month
      booked, so it splits evenly into `months` monthly instalments of `rent`. */
  function TotalAmount(rent: Cents, months: int): (total: Cents)
    ensures months > 0 ==> total % months == 0 && total / months == rent
    ensures months > 0 && rent >= 0 ==> rent <= total
  {
    DivisionOfMultiple(rent, months);
    rent * months
  }

  lemma DivisionOfMultiple(a: int, m: int)
    ensures m > 0 ==> (a * m) % m == 0 && (a * m) / m == a
    ensures m > 0 && a >= 0 ==> a <= a * m
  {
    if m > 0 {
      var q, r := (a * m) / m, (a * m) % m;
      assert a * m == m * q + r && 0 <= r < m;
      var d := a - q;
      assert m * d == r by {
        assert m * d == m * a - m * q;
      }
      if d >= 1 {
        MulMonotone(m, 1, d);
      } else if d <= -1 {
        MulMonotone(m, d, -1);
      }
      if a >= 0 {
        MulMonotone(a, 1, m);
      }
    }
  }

  /** `property.security_deposit or property.rent_amount`: the deposit the
      property names, unless it is missing or zero, in which case one month's
      rent. */
  function SecurityDeposit(p: Property): (d: Cents)
    ensures d == p.rent || (p.deposit.Some? && d == p.deposit.value)
    ensures p.deposit.Some? && p.deposit.value != 0 ==> d == p.deposit.value
    ensures p.deposit.None? || p.deposit.value == 0 ==> d == p.rent
  {
    if Truthy(p.deposit) then p.deposit.value else p.rent
  }

  lemma MulMonotone(a: int, b: int, c: int)
    requires a >= 0 && b <= c
    ensures a * b <= a * c
  {
    assert a * c - a * b == a * (c - b);
  }

  /** Whole-month pricing never charges less than the per-day share of the
      rent for the days booked, and overcharges by less than one month:
      `rent * days <= 30 * total <= rent * days + 29 * rent`. A stay of no
      positive length costs exactly one month. */
  lemma TotalCoversStay(rent: Cents, start: Date, end: Date)
    requires rent >= 0
    ensures var days := end - start;
      var total := TotalAmount(rent, DurationMonths(Some(start), Some(end)));
      && (days > 0 ==> rent * days <= 30 * total <= rent * days + 29 * rent)
      && (days <= 0 ==> total == rent)
  {
    var days := end - start;
    var m := DurationMonths(Some(start), Some(end));
    if days > 0 {
      MulMonotone(rent, days, 30 * m);
      MulMonotone(rent, 30 * m - 29, days);
      assert rent * (30 * m) == 30 * (rent * m);
      assert rent * (30 * m - 29) == 30 * (rent * m) - 29 * rent;
    } else {
      assert Covers(1, days);
    }
  }
}
