/** The booking form of the local variant: the new booking is appended to the stored list. */
module LocalBookingPage {
  import opened Wrappers
  import opened Catalog
  import opened Pricing
  import opened Bookings
  import opened Storage
  import opened BookingForm

  /**
   * `handleSubmit`: a missing date or car stops it before anything is stored;
   * otherwise the quote is computed and a Pending booking with id `now` (the
   * current time of the call) is pushed onto the end of the stored list.
   */
  method HandleSubmit(store: LocalStorage, car: Option<Car>, start: DateInput, end: DateInput, now: int)
    returns (outcome: SubmitOutcome)
    modifies store`bookings
    ensures outcome == MissingInput <==> start.text == "" || end.text == "" || car.None?
    ensures outcome == Submitted || outcome == MissingInput
    ensures outcome == MissingInput ==> store.bookings == old(store.bookings)
    ensures outcome == Submitted ==>
      && |store.bookings| == |old(store.bookings)| + 1
      && store.bookings[..|old(store.bookings)|] == old(store.bookings)
      && IsNewBooking(store.bookings[|old(store.bookings)|], car.value, start, end)
      && store.bookings[|old(store.bookings)|].id == now
      && store.bookings[|old(store.bookings)|].userId.None?
      && store.bookings[|old(store.bookings)|].carId.None?
  {
    if start.text == "" || end.text == "" || car.None? {
      return MissingInput;
    }
    var quote := CalculateTotal(start, end, car);
    var booking := BookingRecord(car.value, start, end, quote.value, now, None, None);
    var bookings := store.bookings;
    bookings := bookings + [booking];
    store.bookings := bookings;
    outcome := Submitted;
  }
}
