/** The admin dashboard: totals over every cached booking, the recent
    list and the service count. */
module AdminDashboard {
  import opened Types
  import Seqs
  import Bookings
  import ServiceContext

  /** `totalBookings`. */
  function TotalBookings(bs: seq<Booking>): nat
  {
    |bs|
  }

  /** The booking total counts every booking once, whatever its status. */
  lemma TotalBookingsCoversEveryStatus(bs: seq<Booking>)
    ensures TotalBookings(bs) == |Bookings.WithStatus(bs, Pending)| + |Bookings.WithStatus(bs, Confirmed)|
                               + |Bookings.WithStatus(bs, Completed)| + |Bookings.WithStatus(bs, Cancelled)|
  {
    Bookings.StatusCountsPartition(bs);
  }

  /** `totalRevenue`: every booking's amount, whatever its status. */
  function TotalRevenue(bs: seq<Booking>): int
  {
    Bookings.TotalAmount(bs)
  }

  /** Revenue is the sum of the four per-status amounts, so no status is left out. */
  lemma RevenueCoversEveryStatus(bs: seq<Booking>)
    ensures TotalRevenue(bs) == Bookings.TotalAmount(Bookings.WithStatus(bs, Pending))
                              + Bookings.TotalAmount(Bookings.WithStatus(bs, Confirmed))
                              + Bookings.TotalAmount(Bookings.WithStatus(bs, Completed))
                              + Bookings.TotalAmount(Bookings.WithStatus(bs, Cancelled))
  {
    Bookings.StatusAmountsPartition(bs);
  }

  /** Revenue adds each new booking's amount. */
  lemma RevenueAppend(bs: seq<Booking>, b: Booking)
    ensures TotalRevenue(bs + [b]) == TotalRevenue(bs) + b.totalAmount
  {
    Bookings.TotalAmountAppend(bs, [b]);
    assert [b][1..] == [];
    assert Seqs.SumOf([b], Bookings.Amount) == Bookings.Amount(b) + Seqs.SumOf([], Bookings.Amount);
  }

  /** `recentBookings = bookings.slice(-5)`, the last five entries. On the newest-first cache these
      are the oldest bookings: none is newer than any booking left out. */
  function RecentBookings(bs: seq<Booking>): (r: seq<Booking>)
    ensures |r| == Seqs.Min(5, |bs|)
    ensures r == bs[|bs| - Seqs.Min(5, |bs|)..]
    ensures Bookings.NewestFirst(bs) ==>
      forall x, y | x in r && y in bs[..|bs| - Seqs.Min(5, |bs|)] :: x.createdAt <= y.createdAt
  {
    assert Bookings.NewestFirst(bs) ==>
      forall x, y | x in Bookings.LastSlice(bs, 5) && y in bs[..|bs| - Seqs.Min(5, |bs|)] :: x.createdAt <= y.createdAt
    by {
      if Bookings.NewestFirst(bs) {
        Bookings.LastSliceHoldsOldest(bs, 5);
      }
    }
    Bookings.LastSlice(bs, 5)
  }

  /** The completed figure never exceeds the number of bookings. */
  function CompletedCount(bs: seq<Booking>): (n: nat)
    ensures n <= TotalBookings(bs)
    ensures n == TotalBookings(bs) <==> forall i | 0 <= i < |bs| :: bs[i].status == Completed
  {
    Bookings.AllWithStatus(bs, Completed);
    |Bookings.WithStatus(bs, Completed)|
  }

  /** The active-services figure: the length of the services cache. */
  function ActiveServices(services: seq<Service>): nat
  {
    |services|
  }

  /** The cache holds only available rows, so the figure counts the available services of the table. */
  lemma ActiveServicesCountsAvailable(rows: seq<Service>)
    ensures ActiveServices(ServiceContext.AvailableNewest(rows)) == |Seqs.Filter(rows, ServiceContext.IsAvailable)|
  {
    var kept := Seqs.Filter(rows, ServiceContext.IsAvailable);
    assert multiset(ServiceContext.AvailableNewest(rows)) == multiset(kept);
    assert |multiset(ServiceContext.AvailableNewest(rows))| == |multiset(kept)|;
  }
}
