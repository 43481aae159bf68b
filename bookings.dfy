/**
 * Booking records and the pure logic both application variants run over a list
 * of them: the status counts and the revenue shown on the dashboards, the status
 * filter, the status rewrite behind every transition, and the status colours.
 */
module Bookings {
  import opened Wrappers
  import opened Money

  const Pending: string := "Pending"
  const Confirmed: string := "Confirmed"
  const Completed: string := "Completed"
  const Cancelled: string := "Cancelled"
  /** The filter choice that shows every booking. */
  const All: string := "All"

  /**
   * A booking as stored. The local variant leaves `userId` and `carId` out of its
   * records (`None` here); the hosted variant stores both.
   */
  datatype Booking = Booking(
    id: int,
    userId: Option<string>,
    carId: Option<int>,
    carName: string,
    checkIn: string,
    checkOut: string,
    duration: string,
    price: string,
    total: string,
    status: string)

  ghost predicate UniqueIds(bs: seq<Booking>)
  {
    forall i, j :: 0 <= i < j < |bs| ==> bs[i].id != bs[j].id
  }

  /** How many bookings have the given status. */
  function CountStatus(bs: seq<Booking>, status: string): (n: nat)
    ensures n <= |bs|
  {
    if bs == [] then 0
    else (if bs[0].status == status then 1 else 0) + CountStatus(bs[1..], status)
  }

  predicate IsActive(b: Booking)
  {
    b.status in [Pending, Confirmed]
  }

  /** How many bookings are active, that is Pending or Confirmed. */
  function ActiveCount(bs: seq<Booking>): (n: nat)
    ensures n <= |bs|
    ensures n == 0 <==> forall i :: 0 <= i < |bs| ==> !IsActive(bs[i])
    ensures n == |bs| <==> forall i :: 0 <= i < |bs| ==> IsActive(bs[i])
  {
    if bs == [] then 0
    else (if IsActive(bs[0]) then 1 else 0) + ActiveCount(bs[1..])
  }

  lemma {:induction false} ActiveIsPendingPlusConfirmed(bs: seq<Booking>)
    ensures ActiveCount(bs) == CountStatus(bs, Pending) + CountStatus(bs, Confirmed)
  {
    if bs != [] {
      ActiveIsPendingPlusConfirmed(bs[1..]);
    }
  }

  function AddOpt(a: Option<int>, b: Option<int>): Option<int>
  {
    if a.Some? && b.Some? then Some(a.value + b.value) else None
  }

  /**
   * The amount spent, or the revenue: the totals of all bookings read back as
   * numbers and added up, in cents, over every status. `None` stands for the NaN that one unreadable
   * total makes of the whole sum.
   */
  function Revenue(bs: seq<Booking>): (r: Option<int>)
    ensures r.Some? ==> r.value >= 0
  {
    if bs == [] then Some(0)
    else
      AddOpt(ParseMoney(bs[0].total), Revenue(bs[1..]))
  }

  function Sum(cents: seq<nat>): nat
  {
    if cents == [] then 0 else cents[0] + Sum(cents[1..])
  }

  /** When every total reads as an amount in cents, the revenue is the sum of those amounts. */
  lemma {:induction false} RevenueIsSumOfTotals(bs: seq<Booking>, cents: seq<nat>)
    requires |cents| == |bs|
    requires forall i :: 0 <= i < |bs| ==> ParseMoney(bs[i].total) == Some(cents[i])
    ensures Revenue(bs) == Some(Sum(cents))
  {
    if bs != [] {
      var head := ParseMoney(bs[0].total);
      assert head == Some(cents[0]);
      forall i | 0 <= i < |bs[1..]| ensures ParseMoney(bs[1..][i].total) == Some(cents[1..][i]) {
        assert bs[1..][i] == bs[i + 1] && cents[1..][i] == cents[i + 1];
      }
      RevenueIsSumOfTotals(bs[1..], cents[1..]);
      assert Revenue(bs) == AddOpt(head, Revenue(bs[1..]));
    }
  }

  /** Totals written by the booking forms read back exactly, so the revenue is their sum in cents. */
  lemma RevenueOfFormattedTotals(bs: seq<Booking>, cents: seq<nat>)
    requires |cents| == |bs|
    requires forall i :: 0 <= i < |bs| ==> bs[i].total == FormatMoney(cents[i])
    ensures Revenue(bs) == Some(Sum(cents))
  {
    forall i | 0 <= i < |bs| ensures ParseMoney(bs[i].total) == Some(cents[i]) {
      ParseMoneyOfFormatMoney(cents[i]);
    }
    RevenueIsSumOfTotals(bs, cents);
  }

  lemma AddOptAssociative(x: Option<int>, y: Option<int>, z: Option<int>)
    ensures AddOpt(x, AddOpt(y, z)) == AddOpt(AddOpt(x, y), z)
  {
  }

  /** One total that does not read as a number makes the whole sum NaN, and only that does. */
  lemma {:induction false} RevenueIsNaNExactlyWithUnreadableTotal(bs: seq<Booking>)
    ensures Revenue(bs).None? <==> exists i :: 0 <= i < |bs| && ParseMoney(bs[i].total).None?
  {
    if bs != [] {
      RevenueIsNaNExactlyWithUnreadableTotal(bs[1..]);
      if exists i :: 0 <= i < |bs[1..]| && ParseMoney(bs[1..][i].total).None? {
        var i :| 0 <= i < |bs[1..]| && ParseMoney(bs[1..][i].total).None?;
        assert bs[1..][i] == bs[i + 1];
      }
      if exists i :: 0 <= i < |bs| && ParseMoney(bs[i].total).None? {
        var i :| 0 <= i < |bs| && ParseMoney(bs[i].total).None?;
        if i > 0 {
          assert bs[1..][i - 1] == bs[i];
        }
      }
    }
  }

  lemma {:induction false} RevenueAppend(a: seq<Booking>, b: seq<Booking>)
    ensures Revenue(a + b) == AddOpt(Revenue(a), Revenue(b))
  {
    if a == [] {
      assert a + b == b;
    } else {
      var head := ParseMoney(a[0].total);
      assert (a + b)[0] == a[0] && (a + b)[1..] == a[1..] + b;
      assert Revenue(a + b) == AddOpt(head, Revenue(a[1..] + b));
      assert Revenue(a) == AddOpt(head, Revenue(a[1..]));
      RevenueAppend(a[1..], b);
      AddOptAssociative(head, Revenue(a[1..]), Revenue(b));
    }
  }

  /** The bookings with the given status, in list order. */
  function Select(bs: seq<Booking>, status: string): (r: seq<Booking>)
    ensures forall b :: b in r <==> b in bs && b.status == status
    ensures |r| == CountStatus(bs, status)
  {
    if bs == [] then []
    else
      assert forall b :: b in bs <==> b == bs[0] || b in bs[1..];
      if bs[0].status == status then [bs[0]] + Select(bs[1..], status)
      else Select(bs[1..], status)
  }

  /** Selection preserves order: it distributes over concatenation. */
  lemma {:induction false} SelectAppend(a: seq<Booking>, b: seq<Booking>, status: string)
    ensures Select(a + b, status) == Select(a, status) + Select(b, status)
  {
    if a == [] {
      assert a + b == b;
    } else {
      assert (a + b)[0] == a[0];
      assert (a + b)[1..] == a[1..] + b;
      SelectAppend(a[1..], b, status);
    }
  }

  /**
   * `filteredBookings`: the whole list for "All"; otherwise exactly the bookings
   * with the chosen status (in list order, by SelectAppend).
   */
  function FilterBookings(bs: seq<Booking>, selected: string): (r: seq<Booking>)
    ensures selected == All ==> r == bs
    ensures selected != All ==> (forall b :: b in r <==> b in bs && b.status == selected)
    ensures selected != All ==> |r| == CountStatus(bs, selected)
  {
    if selected == All then bs else Select(bs, selected)
  }

  /**
   * A status change: every booking with the id gets the status; nothing else changes, in place or in order.
   */
  function SetStatus(bs: seq<Booking>, id: int, status: string): (r: seq<Booking>)
    ensures |r| == |bs|
    ensures forall i :: 0 <= i < |bs| && bs[i].id == id ==> r[i] == bs[i].(status := status)
    ensures forall i :: 0 <= i < |bs| && bs[i].id != id ==> r[i] == bs[i]
  {
    if bs == [] then []
    else
      var head := if bs[0].id == id then bs[0].(status := status) else bs[0];
      [head] + SetStatus(bs[1..], id, status)
  }

  /** Applying the same transition twice is the same as applying it once. */
  lemma SetStatusIdempotent(bs: seq<Booking>, id: int, status: string)
    ensures SetStatus(SetStatus(bs, id, status), id, status) == SetStatus(bs, id, status)
  {
  }

  /** Transitions never touch the totals, so the revenue does not move. */
  lemma {:induction false} RevenueAfterSetStatus(bs: seq<Booking>, id: int, status: string)
    ensures Revenue(SetStatus(bs, id, status)) == Revenue(bs)
  {
    if bs != [] {
      RevenueAfterSetStatus(bs[1..], id, status);
      assert SetStatus(bs, id, status)[1..] == SetStatus(bs[1..], id, status);
    }
  }

  /**
   * With unique ids, moving booking `i` to `newStatus` takes one from the count of
   * its old status, adds one to the count of the new, and leaves every other count.
   */
  lemma {:induction false} CountAfterTransition(bs: seq<Booking>, i: nat, newStatus: string, status: string)
    requires UniqueIds(bs) && i < |bs|
    ensures CountStatus(SetStatus(bs, bs[i].id, newStatus), status)
         == CountStatus(bs, status) - (if bs[i].status == status then 1 else 0)
                                    + (if newStatus == status then 1 else 0)
  {
    var id := bs[i].id;
    var r := SetStatus(bs, id, newStatus);
    assert r[1..] == SetStatus(bs[1..], id, newStatus);
    if i == 0 {
      assert r[1..] == bs[1..];
    } else {
      assert bs[0].id != id;
      assert UniqueIds(bs[1..]) by {
        forall a, b | 0 <= a < b < |bs[1..]| ensures bs[1..][a].id != bs[1..][b].id {
          assert bs[1..][a] == bs[a + 1] && bs[1..][b] == bs[b + 1];
        }
      }
      assert bs[1..][i - 1] == bs[i];
      CountAfterTransition(bs[1..], i - 1, newStatus, status);
    }
  }

  /** `getStatusColor` */
  function StatusColor(status: string): (colour: string)
    ensures status == Completed || status == Cancelled ==> colour == "#f3f4f6"
    ensures status !in [Pending, Confirmed, Completed, Cancelled] ==> colour == "#fce7f3"
    ensures (status == Pending) == (colour == "#fef3c7")
    ensures (status == Confirmed) == (colour == "#cffafe")
  {
    if status == Pending then "#fef3c7"
    else if status == Confirmed then "#cffafe"
    else if status == Completed then "#f3f4f6"
    else if status == Cancelled then "#f3f4f6"
    else "#fce7f3"
  }

  /** The user page shows "Cancel Booking" only on a Pending booking. */
  predicate CancelOffered(b: Booking): (offered: bool)
    ensures offered ==> IsActive(b) && b.status != Completed
    ensures offered <==> AdminActions(b) != []
  {
    b.status == Pending
  }

  /** The hosted admin page shows "Confirm" and "Cancel" only on a Pending booking. */
  function AdminActions(b: Booking): (actions: seq<string>)
    ensures actions != [] <==> b.status == Pending
    ensures b.status == Pending ==> Confirmed in actions && Cancelled in actions
    ensures forall a :: a in actions ==> a == Confirmed || a == Cancelled
  {
    if b.status == Pending then [Confirmed, Cancelled] else []
  }

  /** Some booking with the id is one the hosted admin page offers `action` on. */
  ghost predicate ActionOffered(bs: seq<Booking>, id: int, action: string)
  {
    exists i :: 0 <= i < |bs| && bs[i].id == id && action in AdminActions(bs[i])
  }

  /**
   * The hosted admin page's counters stay right: an action it offers on a booking
   * of a list with unique ids changes the recomputed counts exactly as the page's
   * step-by-step adjustment does (pending down one; confirmed up one for Confirm),
   * and leaves the length and the revenue alone.
   */
  lemma CountersAfterOfferedAction(bs: seq<Booking>, id: int, action: string)
    requires UniqueIds(bs) && ActionOffered(bs, id, action)
    ensures |SetStatus(bs, id, action)| == |bs|
    ensures CountStatus(SetStatus(bs, id, action), Pending) == CountStatus(bs, Pending) - 1
    ensures CountStatus(SetStatus(bs, id, action), Confirmed)
         == CountStatus(bs, Confirmed) + (if action == Confirmed then 1 else 0)
    ensures Revenue(SetStatus(bs, id, action)) == Revenue(bs)
  {
    var i :| 0 <= i < |bs| && bs[i].id == id && action in AdminActions(bs[i]);
    CountAfterTransition(bs, i, action, Pending);
    CountAfterTransition(bs, i, action, Confirmed);
    RevenueAfterSetStatus(bs, id, action);
  }

  /**
   * On the user page, cancelling a booking it offers to cancel (a Pending one, in
   * a list with unique ids) takes one from the active count and leaves the
   * completed count and the amount spent as they were.
   */
  lemma CancelOfferedCounts(bs: seq<Booking>, i: nat)
    requires UniqueIds(bs) && i < |bs| && CancelOffered(bs[i])
    ensures ActiveCount(SetStatus(bs, bs[i].id, Cancelled)) == ActiveCount(bs) - 1
    ensures CountStatus(SetStatus(bs, bs[i].id, Cancelled), Completed) == CountStatus(bs, Completed)
    ensures Revenue(SetStatus(bs, bs[i].id, Cancelled)) == Revenue(bs)
  {
    var r := SetStatus(bs, bs[i].id, Cancelled);
    ActiveIsPendingPlusConfirmed(bs);
    ActiveIsPendingPlusConfirmed(r);
    CountAfterTransition(bs, i, Cancelled, Pending);
    CountAfterTransition(bs, i, Cancelled, Confirmed);
    CountAfterTransition(bs, i, Cancelled, Completed);
    RevenueAfterSetStatus(bs, bs[i].id, Cancelled);
  }
}
