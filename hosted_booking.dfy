/** The booking form of the hosted variant: the new booking is inserted into the remote table. */
module HostedBookingPage {
  import opened Wrappers
  import opened Catalog
  import opened Pricing
  import opened Bookings
  import opened Remote
  import opened BookingForm

  /**
   * `handleSubmit`: a missing date or car stops it first, then a missing signed-in
   * user; otherwise one Pending booking for the user is inserted. `user` is what
   * the auth service reports, `newId` the id the table gives the new row, and
   * `insertFails` whether the insert call fails.
   */
  method HandleSubmit(table: RemoteBookings, car: Option<Car>, start: DateInput, end: DateInput,
                      user: Option<string>, newId: int, insertFails: bool)
    returns (outcome: SubmitOutcome)
    modifies table
    ensures start.text == "" || end.text == "" || car.None? ==> outcome == MissingInput
    ensures start.text != "" && end.text != "" && car.Some? ==>
      outcome == (if user.None? then NotAuthenticated else if insertFails then InsertFailed else Submitted)
    ensures outcome != Submitted ==> table.rows == old(table.rows)
    ensures outcome == Submitted ==>
      && |table.rows| == |old(table.rows)| + 1
      && table.rows[..|old(table.rows)|] == old(table.rows)
      && IsNewBooking(table.rows[|old(table.rows)|], car.value, start, end)
      && table.rows[|old(table.rows)|].id == newId
      && table.rows[|old(table.rows)|].userId == user
      && table.rows[|old(table.rows)|].carId == Some(car.value.id)
  {
    if start.text == "" || end.text == "" || car.None? {
      return MissingInput;
    }
    var quote := CalculateTotal(start, end, car);
    if quote.None? {
      return MissingInput;
    }
    if user.None? {
      return NotAuthenticated;
    }
    var booking := BookingRecord(car.value, start, end, quote.value, newId, user, Some(car.value.id));
    var ok := table.Insert(booking, insertFails);
    if !ok {
      return InsertFailed;
    }
    outcome := Submitted;
  }
}
