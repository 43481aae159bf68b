/**
 * The admin dashboard of the hosted variant. Its counters are computed once from
 * the fetched list and then adjusted step by step on each transition instead of
 * being recomputed.
 */
module HostedAdminPage {
  import opened Wrappers
  import opened Bookings
  import opened Remote

  class AdminDashboard {
    var bookings: seq<Booking>
    var selectedStatus: string
    var loading: bool
    var totalOrders: int
    var pending: int
    var confirmed: int
    var revenue: Option<int>     // cents; None is the NaN of an unreadable total
    var isClient: bool           // set by the first effect once the page runs in a browser

    /** The counters are the ones a fresh recomputation over the list would give. */
    ghost predicate CountersAgree()
      reads this
    {
      && totalOrders == |bookings|
      && pending == CountStatus(bookings, Pending)
      && confirmed == CountStatus(bookings, Confirmed)
      && revenue == Revenue(bookings)
    }

    constructor ()
      ensures bookings == [] && selectedStatus == All && loading && !isClient
      ensures totalOrders == 0 && pending == 0 && confirmed == 0 && revenue == Some(0)
      ensures CountersAgree()
    {
      bookings := [];
      selectedStatus := All;
      loading := true;
      totalOrders, pending, confirmed, revenue := 0, 0, 0, Some(0);
      isClient := false;
    }

    /**
     * Fetching the bookings: `response` is the list the query returns (`None` when it
     * fails). A failure only ends the loading state; a success shows the list
     * and recomputes every counter from it.
     */
    method FetchBookings(response: Option<seq<Booking>>)
      modifies this
      ensures !loading && selectedStatus == old(selectedStatus) && isClient == old(isClient)
      ensures response.None? ==>
        && bookings == old(bookings) && totalOrders == old(totalOrders) && pending == old(pending)
        && confirmed == old(confirmed) && revenue == old(revenue)
      ensures response.Some? ==> bookings == response.value && CountersAgree()
    {
      if response.None? {
        loading := false;
        return;
      }
      var data := response.value;
      bookings := data;
      totalOrders := |data|;
      pending := CountStatus(data, Pending);
      confirmed := CountStatus(data, Confirmed);
      revenue := Revenue(data);
      loading := false;
    }

    /**
     * An admin's status change: when the remote update fails nothing
     * local changes; otherwise the bookings with the id take the new status and
     * the counters move by the new status alone: Confirmed takes one from
     * pending and adds one to confirmed, Cancelled takes one from pending.
     * Started, as the page's buttons start it, on a Pending booking of a list
     * with unique ids, the adjusted counters still agree with the list.
     */
    method UpdateBookingStatus(table: RemoteBookings, id: int, newStatus: string, fails: bool)
      modifies this, table
      ensures fails ==> bookings == old(bookings) && table.rows == old(table.rows)
      ensures fails ==> pending == old(pending) && confirmed == old(confirmed)
      ensures !fails ==> bookings == SetStatus(old(bookings), id, newStatus)
      ensures !fails ==> table.rows == SetStatus(old(table.rows), id, newStatus)
      ensures !fails && newStatus == Confirmed ==> pending == old(pending) - 1 && confirmed == old(confirmed) + 1
      ensures !fails && newStatus == Cancelled ==> pending == old(pending) - 1 && confirmed == old(confirmed)
      ensures newStatus != Confirmed && newStatus != Cancelled ==> pending == old(pending) && confirmed == old(confirmed)
      ensures totalOrders == old(totalOrders) && revenue == old(revenue)
      ensures selectedStatus == old(selectedStatus) && loading == old(loading) && isClient == old(isClient)
      ensures old(CountersAgree()) && UniqueIds(old(bookings)) && ActionOffered(old(bookings), id, newStatus)
              ==> CountersAgree()
    {
      var ok := table.Update(id, newStatus, fails);
      if !ok {
        return;
      }
      ghost var before := bookings;
      bookings := SetStatus(bookings, id, newStatus);
      if newStatus == Confirmed {
        pending := pending - 1;
        confirmed := confirmed + 1;
      } else if newStatus == Cancelled {
        pending := pending - 1;
      }
      if UniqueIds(before) && ActionOffered(before, id, newStatus) {
        CountersAfterOfferedAction(before, id, newStatus);
      }
    }

    /** `filteredBookings` */
    function FilteredBookings(): (r: seq<Booking>)
      reads this
      ensures selectedStatus == All ==> r == bookings
      ensures selectedStatus != All ==> forall b :: b in r <==> b in bookings && b.status == selectedStatus
    {
      FilterBookings(bookings, selectedStatus)
    }
  }

  /**
   * The page as it mounts. The first effect sets `isClient`; the fetch effect has
   * no dependencies, so it runs once, after the first render, and reads the
   * `isClient` of that render, which is still `false`: it returns before
   * fetching. Whatever the table holds, the page keeps an empty list and zero
   * counters, so it shows no bookings; its loading state, which the page never
   * reads, stays set.
   */
  method Mount(response: Option<seq<Booking>>) returns (page: AdminDashboard)
    ensures fresh(page) && page.isClient && page.loading && page.selectedStatus == All
    ensures page.bookings == [] && page.totalOrders == 0 && page.pending == 0 &&
            page.confirmed == 0 && page.revenue == Some(0)
  {
    page := new AdminDashboard();
    // First render: the fetch effect still sees isClient unset and returns.
    page.isClient := true;
    // Later renders do not run the fetch effect again.
  }

  /**
   * The mount the page evidently intends: the fetch effect depends on `isClient`,
   * so it runs again once isClient is set and then fetches. A failed fetch
   * leaves an empty list and zero counters; a successful one shows the list with
   * counters that agree with it.
   */
  method MountOnIsClient(response: Option<seq<Booking>>) returns (page: AdminDashboard)
    ensures fresh(page) && page.isClient && !page.loading && page.selectedStatus == All
    ensures response.None? ==> page.bookings == [] && page.totalOrders == 0 && page.pending == 0 &&
                               page.confirmed == 0 && page.revenue == Some(0)
    ensures response.Some? ==> page.bookings == response.value && page.CountersAgree()
  {
    page := new AdminDashboard();
    // First render: the fetch effect still sees isClient unset and returns.
    page.isClient := true;
    // Second render: `isClient` changed, so the fetch effect runs again.
    page.FetchBookings(response);
  }

  /**
   * The stale `isClient` on one booking: the table holds `b`, the page as written
   * shows no orders (its unread loading state stays set), and the intended mount shows `b`.
   */
  method StaleIsClientExample(b: Booking) returns (asWritten: AdminDashboard, intended: AdminDashboard)
    ensures asWritten.bookings == [] && asWritten.totalOrders == 0 && asWritten.loading
    ensures intended.bookings == [b] && intended.totalOrders == 1 && !intended.loading
  {
    asWritten := Mount(Some([b]));
    intended := MountOnIsClient(Some([b]));
  }
}
