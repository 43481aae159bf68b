/**
 * The quote shown on the booking form and stored with a booking: the number of
 * rental days between the two dates and the total price for them.
 */
module Pricing {
  import opened Wrappers
  import opened Money
  import opened Catalog

  /** Milliseconds in a day. */
  const MillisPerDay: nat := 86_400_000

  /**
   * A date field of the booking form: the text the user entered (empty when
   * nothing is selected) and the instant, in milliseconds, that `new Date`
   * gives for it.
   */
  datatype DateInput = DateInput(text: string, millis: int)

  datatype Quote = Quote(days: nat, total: string)

  function Abs(x: int): nat { if x < 0 then -x else x }

  /** The rental days: the whole days that cover the span. */
  function RentalDays(startMs: int, endMs: int): (days: nat)
    ensures Abs(endMs - startMs) <= days * MillisPerDay
    ensures days > 0 ==> (days - 1) * MillisPerDay < Abs(endMs - startMs)
    ensures days == 0 <==> startMs == endMs
  {
    (Abs(endMs - startMs) + MillisPerDay - 1) / MillisPerDay
  }

  /** The order of the two dates does not matter: the span is taken as an absolute value. */
  lemma RentalDaysSymmetric(startMs: int, endMs: int)
    ensures RentalDays(startMs, endMs) == RentalDays(endMs, startMs)
    ensures startMs != endMs ==> RentalDays(startMs, endMs) >= 1
  {
  }

  /** The quote's total: the day rate times the days, or "$NaN" when the price did not parse. */
  function TotalFor(dayRate: Option<nat>, days: nat): (total: string)
    ensures dayRate.Some? ==> total == FormatMoney(dayRate.value * days)
    ensures dayRate.Some? ==> ParseMoney(total) == Some(dayRate.value * days)
    ensures dayRate.None? ==> total == NotANumberMoney && ParseMoney(total).None?
  {
    if dayRate.Some? then
      ParseMoneyOfFormatMoney(dayRate.value * days);
      FormatMoney(dayRate.value * days)
    else
      NotANumberMoneyIsNotParsed();
      NotANumberMoney
  }

  /**
   * `calculateTotal`: no quote unless both dates are filled in and the car is
   * known; otherwise the rental days and the total for them at the car's day rate.
   */
  function CalculateTotal(start: DateInput, end: DateInput, car: Option<Car>): (q: Option<Quote>)
    ensures q.None? <==> start.text == "" || end.text == "" || car.None?
    ensures q.Some? ==> q.value.days == RentalDays(start.millis, end.millis)
    ensures q.Some? && ParseDayRate(car.value.price).Some? ==>
              q.value.total == FormatMoney(ParseDayRate(car.value.price).value * q.value.days)
    ensures q.Some? && ParseDayRate(car.value.price).None? ==> q.value.total == NotANumberMoney
    ensures q.Some? && ParseDayRate(car.value.price).Some? ==>
              ParseMoney(q.value.total) == Some(ParseDayRate(car.value.price).value * q.value.days)
    ensures q.Some? && ParseDayRate(car.value.price).None? ==> ParseMoney(q.value.total).None?
  {
    if start.text == "" || end.text == "" || car.None? then None
    else
      var days := RentalDays(start.millis, end.millis);
      Some(Quote(days, TotalFor(ParseDayRate(car.value.price), days)))
  }

  /** The duration stored with a booking: the number of days in digits, then " Days". */
  function DurationLabel(days: nat): (text: string)
    ensures |text| > 5 && text[|text| - 5..] == " Days"
    ensures ParseWhole(text[..|text| - 5]) == Some(days)
    ensures |text| > 6 ==> text[0] != '0'
  {
    ParseWholeOfDigits(days);
    assert (Digits(days) + " Days")[..|Digits(days)|] == Digits(days);
    Digits(days) + " Days"
  }

  /**
   * A car priced at whole dollars a day ("$150/day") is quoted the days of the
   * span and a total of that many dollars per day, written with two decimals
   * (three days at "$150/day" is "$450.00").
   */
  lemma {:induction false} QuoteForWholeDollarPrice(car: Car, start: DateInput, end: DateInput, dollars: nat)
    requires car.price == "$" + Digits(dollars) + "/day"
    requires start.text != "" && end.text != ""
    ensures CalculateTotal(start, end, Some(car))
         == Some(Quote(RentalDays(start.millis, end.millis),
                       FormatMoney(dollars * 100 * RentalDays(start.millis, end.millis))))
  {
    ParseDayRateOfWholeDollars(dollars);
  }
}
