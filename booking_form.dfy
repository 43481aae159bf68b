/**
 * What the two booking forms share: the record a submission builds and the
 * outcomes a submission can have.
 */
module BookingForm {
  import opened Wrappers
  import opened Money
  import opened Catalog
  import opened Pricing
  import opened Bookings

  /** How `handleSubmit` ends; only a submission that went through leads to the bookings page. */
  datatype SubmitOutcome = Submitted | MissingInput | NotAuthenticated | InsertFailed

  /** The page the form navigates to after the submission, if any. */
  function Destination(outcome: SubmitOutcome): (page: Option<string>)
    ensures page == Some("/bookings") <==> outcome == Submitted
    ensures outcome == MissingInput || outcome == InsertFailed ==> page == None
  {
    match outcome
    case Submitted => Some("/bookings")
    case NotAuthenticated => Some("/login")
    case _ => None
  }

  /** The booking object a submission builds from the car, the dates and the quote. */
  function BookingRecord(car: Car, start: DateInput, end: DateInput, quote: Quote,
                         id: int, userId: Option<string>, carId: Option<int>): (b: Booking)
    ensures b.id == id && b.userId == userId && b.carId == carId && b.status == Pending
    ensures CalculateTotal(start, end, Some(car)) == Some(quote) ==> IsNewBooking(b, car, start, end)
  {
    Booking(id, userId, carId, car.brand + " " + car.model, start.text, end.text,
            DurationLabel(quote.days), car.price, quote.total, Pending)
  }

  /**
   * `b` is what a submission for `car` between `start` and `end` stores: a Pending
   * booking named after the car, carrying the dates as entered, the car's price,
   * and the days and total of the quote for that car and those dates.
   */
  ghost predicate IsNewBooking(b: Booking, car: Car, start: DateInput, end: DateInput): (isNew: bool)
    ensures isNew ==> b.status == Pending && start.text != "" && end.text != ""
    ensures isNew ==> |b.duration| > 5 &&
                      ParseWhole(b.duration[..|b.duration| - 5]) == Some(RentalDays(start.millis, end.millis))
    ensures isNew && ParseDayRate(car.price).Some? ==>
              ParseMoney(b.total) == Some(ParseDayRate(car.price).value * RentalDays(start.millis, end.millis))
  {
    var days := RentalDays(start.millis, end.millis);
    && b.status == Pending
    && b.carName == car.brand + " " + car.model
    && b.checkIn == start.text && b.checkOut == end.text
    && b.duration == DurationLabel(days)
    && b.price == car.price
    && CalculateTotal(start, end, Some(car)) == Some(Quote(days, b.total))
  }
}
