/** The "My Bookings" page of the local variant: the stored list, its stats and cancellation. */
module MyBookingsPage {
  import opened Wrappers
  import opened Bookings
  import opened Storage
  import opened Auth

  class MyBookings {
    var bookings: seq<Booking>
    var selectedStatus: string
    var activeBookings: nat
    var completedBookings: nat
    var totalSpent: Option<int>     // cents; None is the NaN of an unreadable total
    var redirect: Option<string>

    /** The three counters agree with the list on the page. */
    ghost predicate StatsAgree()
      reads this
    {
      && activeBookings == ActiveCount(bookings)
      && completedBookings == CountStatus(bookings, Completed)
      && totalSpent == Revenue(bookings)
    }

    constructor ()
      ensures bookings == [] && selectedStatus == All && redirect == None
      ensures StatsAgree()
    {
      bookings := [];
      selectedStatus := All;
      activeBookings, completedBookings, totalSpent := 0, 0, Some(0);
      redirect := None;
    }

    /** The mount effect: signed-out visitors go to "/login"; otherwise the stored list is shown. */
    method Open(store: LocalStorage)
      modifies this
      ensures !IsLoggedIn(store) ==> redirect == Some("/login") && bookings == old(bookings)
      ensures !IsLoggedIn(store) ==>
                activeBookings == old(activeBookings) &&
                completedBookings == old(completedBookings) && totalSpent == old(totalSpent)
      ensures IsLoggedIn(store) ==> bookings == store.bookings && StatsAgree() && redirect == old(redirect)
      ensures selectedStatus == old(selectedStatus)
    {
      if !IsLoggedIn(store) {
        redirect := Some("/login");
        return;
      }
      bookings := store.bookings;
      UpdateStats(bookings);
    }

    /** The counters are recomputed from `list`. */
    method UpdateStats(list: seq<Booking>)
      modifies this`activeBookings, this`completedBookings, this`totalSpent
      ensures activeBookings == CountStatus(list, Pending) + CountStatus(list, Confirmed)
      ensures activeBookings == ActiveCount(list)
      ensures completedBookings == CountStatus(list, Completed)
      ensures totalSpent == Revenue(list)
    {
      ActiveIsPendingPlusConfirmed(list);
      activeBookings := ActiveCount(list);
      completedBookings := CountStatus(list, Completed);
      totalSpent := Revenue(list);
    }

    /**
     * Cancelling a booking: the page's list with the booking cancelled replaces the
     * stored list, and the counters are recomputed from it.
     */
    method CancelBooking(id: int, store: LocalStorage)
      modifies this, store`bookings
      ensures bookings == SetStatus(old(bookings), id, Cancelled)
      ensures store.bookings == bookings
      ensures StatsAgree()
      ensures totalSpent == old(Revenue(bookings))
      ensures selectedStatus == old(selectedStatus) && redirect == old(redirect)
    {
      var updated := SetStatus(bookings, id, Cancelled);
      bookings := updated;
      store.bookings := updated;
      UpdateStats(updated);
      RevenueAfterSetStatus(old(bookings), id, Cancelled);
    }

    /** A click on a status filter button. */
    method SelectStatus(status: string)
      modifies this`selectedStatus
      ensures selectedStatus == status
    {
      selectedStatus := status;
    }

    /** `filteredBookings` */
    function FilteredBookings(): (r: seq<Booking>)
      reads this
      ensures selectedStatus == All ==> r == bookings
      ensures selectedStatus != All ==> forall b :: b in r <==> b in bookings && b.status == selectedStatus
    {
      FilterBookings(bookings, selectedStatus)
    }
  }
}
