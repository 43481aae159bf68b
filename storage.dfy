/**
 * The browser's localStorage as the local variant uses it: three keys, each
 * holding a JSON value. A missing "bookings" key reads as the empty list, as
 * every reader treats it.
 */
module Storage {
  import opened Wrappers
  import opened Bookings

  /** The record the mock sign-in stores under "user"; `login` stores no full name. */
  datatype User = User(fullName: Option<string>, email: string, id: int)

  class LocalStorage {
    var user: Option<User>          // the "user" key
    var bookings: seq<Booking>      // the "bookings" key
    var adminUser: Option<string>   // the "adminUser" key

    constructor ()
      ensures user == None && bookings == [] && adminUser == None
    {
      user := None;
      bookings := [];
      adminUser := None;
    }
  }
}
