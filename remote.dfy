/**
 * The hosted variant's "bookings" table, reduced to what the pages use: an
 * insert and an update by id, either of which can fail. Whether a call fails is
 * the caller's `fails` argument; no error value beyond the failure is modelled.
 */
module Remote {
  import opened Bookings

  class RemoteBookings {
    var rows: seq<Booking>

    constructor (rows: seq<Booking>)
      ensures this.rows == rows
    {
      this.rows := rows;
    }

    /** Inserting one row into the bookings table. */
    method Insert(b: Booking, fails: bool) returns (ok: bool)
      modifies this
      ensures ok == !fails
      ensures rows == if ok then old(rows) + [b] else old(rows)
    {
      ok := !fails;
      if ok {
        rows := rows + [b];
      }
    }

    /** Setting the status of every row with the id. */
    method Update(id: int, status: string, fails: bool) returns (ok: bool)
      modifies this
      ensures ok == !fails
      ensures rows == if ok then SetStatus(old(rows), id, status) else old(rows)
    {
      ok := !fails;
      if ok {
        rows := SetStatus(rows, id, status);
      }
    }
  }
}
