/** The admin dashboard of the local variant: stats over the stored list and the recent orders. */
module LocalAdminPage {
  import opened Wrappers
  import opened Bookings
  import opened Storage

  /** How many orders the "Recent Orders" panel shows. */
  const RecentLimit: nat := 5

  /** The recent orders: the first orders in stored order, at most five of them. */
  function RecentOrders(bs: seq<Booking>): (r: seq<Booking>)
    ensures |r| == if |bs| < RecentLimit then |bs| else RecentLimit
    ensures r <= bs
  {
    if |bs| < RecentLimit then bs else bs[..RecentLimit]
  }

  /** The admin is signed in when the "adminUser" key holds a non-empty value: a missing key and an empty one both count as signed out. */
  predicate AdminSignedIn(store: LocalStorage): (signedIn: bool)
    reads store
    ensures store.adminUser.None? ==> !signedIn
    ensures store.adminUser == Some("") ==> !signedIn
    ensures store.adminUser.Some? && store.adminUser.value != "" ==> signedIn
  {
    store.adminUser.Some? && store.adminUser.value != ""
  }

  class LocalAdminDashboard {
    var bookings: seq<Booking>
    var totalOrders: nat
    var pending: nat
    var accepted: nat
    var revenue: Option<int>     // cents; None is the NaN of an unreadable total
    var redirect: Option<string>

    ghost predicate StatsAgree()
      reads this
    {
      && totalOrders == |bookings|
      && pending == CountStatus(bookings, Pending)
      && accepted == CountStatus(bookings, Confirmed)
      && revenue == Revenue(bookings)
    }

    constructor ()
      ensures bookings == [] && redirect == None && StatsAgree()
    {
      bookings := [];
      totalOrders, pending, accepted, revenue := 0, 0, 0, Some(0);
      redirect := None;
    }

    /**
     * The mount effect: without a non-empty "adminUser" key the page goes to "/admin-login"
     * and loads nothing; otherwise it shows the stored list and its stats.
     */
    method Open(store: LocalStorage)
      modifies this
      ensures !AdminSignedIn(store) ==> redirect == Some("/admin-login")
      ensures !AdminSignedIn(store) ==>
        && bookings == old(bookings) && totalOrders == old(totalOrders) && pending == old(pending)
        && accepted == old(accepted) && revenue == old(revenue)
      ensures AdminSignedIn(store) ==> bookings == store.bookings && StatsAgree() && redirect == old(redirect)
    {
      if !AdminSignedIn(store) {
        redirect := Some("/admin-login");
        return;
      }
      var stored := store.bookings;
      bookings := stored;
      totalOrders := |stored|;
      pending := CountStatus(stored, Pending);
      accepted := CountStatus(stored, Confirmed);
      revenue := Revenue(stored);
    }

    /** `logoutAdmin`: only the "adminUser" key goes; the page then leaves for "/". */
    method LogoutAdmin(store: LocalStorage)
      modifies this`redirect, store`adminUser
      ensures store.adminUser == None
      ensures redirect == Some("/")
    {
      store.adminUser := None;
      redirect := Some("/");
    }
  }
}
