/** The provider's dashboard: the provider's own bookings and services
    out of the caches, earnings, the pending count, the status buttons
    each booking offers, and the recent list. */
module ProviderDashboard {
  import opened Types
  import Seqs
  import Bookings
  import ServiceContext

  /** `bookings.filter(b => b.provider_id === user?.id)`: with no user nothing matches. */
  function ProviderBookings(bookings: seq<Booking>, user: Option<User>): (r: seq<Booking>)
    ensures user.None? ==> r == []
    ensures user.Some? ==> forall b :: multiset(r)[b] == if b.providerId == user.value.id then multiset(bookings)[b] else 0
  {
    if user.None? then [] else Bookings.ProvidedBy(bookings, user.value.id)
  }

  /** The provider's bookings keep the cache's order. */
  lemma ProviderBookingsKeepOrder(a: seq<Booking>, b: seq<Booking>, user: Option<User>)
    ensures ProviderBookings(a + b, user) == ProviderBookings(a, user) + ProviderBookings(b, user)
  {
    if user.Some? {
      Seqs.FilterAppend(a, b, (x: Booking) => x.providerId == user.value.id);
    }
  }

  /** `services.filter(s => s.provider_id === user?.id)`. */
  function ProviderServices(services: seq<Service>, user: Option<User>): (r: seq<Service>)
    ensures user.None? ==> r == []
    ensures user.Some? ==> forall s :: multiset(r)[s] == if s.providerId == user.value.id then multiset(services)[s] else 0
  {
    if user.None? then [] else Seqs.Filter(services, (s: Service) => s.providerId == user.value.id)
  }

  lemma ProviderServicesKeepOrder(a: seq<Service>, b: seq<Service>, user: Option<User>)
    ensures ProviderServices(a + b, user) == ProviderServices(a, user) + ProviderServices(b, user)
  {
    if user.Some? {
      Seqs.FilterAppend(a, b, (x: Service) => x.providerId == user.value.id);
    }
  }

  /** `totalEarnings`: the completed bookings' amounts. */
  function TotalEarnings(pb: seq<Booking>): int
  {
    Bookings.CompletedTotal(pb)
  }

  /** One more booking adds its amount to the earnings when it is completed, and nothing otherwise. */
  lemma EarningsCountOnlyCompleted(pb: seq<Booking>, b: Booking)
    ensures TotalEarnings(pb + [b]) == TotalEarnings(pb) + (if b.status == Completed then b.totalAmount else 0)
  {
    Bookings.CompletedTotalAppend(pb, b);
  }

  /** `pendingBookings`. */
  function PendingCount(pb: seq<Booking>): (n: nat)
    ensures n <= |pb|
  {
    |Bookings.WithStatus(pb, Pending)|
  }

  /** The pending count goes up by one exactly for a pending booking. */
  lemma PendingCountAppend(pb: seq<Booking>, b: Booking)
    ensures PendingCount(pb + [b]) == PendingCount(pb) + (if b.status == Pending then 1 else 0)
  {
    Bookings.WithStatusAppend(pb, [b], Pending);
    assert [b][1..] == [];
    assert Bookings.WithStatus([b], Pending) == if b.status == Pending then [b] else [];
  }

  /** The status buttons a booking card offers. */
  function Actions(st: BookingStatus): (r: seq<BookingStatus>)
    ensures st == Pending ==> r == [Confirmed, Cancelled]
    ensures st == Confirmed ==> r == [Completed]
    ensures st == Completed || st == Cancelled ==> r == []
  {
    match st
    case Pending => [Confirmed, Cancelled]
    case Confirmed => [Completed]
    case Completed => []
    case Cancelled => []
  }

  /** How far along the lifecycle a status is. */
  function Stage(st: BookingStatus): nat
  {
    match st
    case Pending => 0
    case Confirmed => 1
    case Completed => 2
    case Cancelled => 2
  }

  /** Every offered transition moves strictly forward, so no status can be returned to. */
  lemma ActionsMoveForward(st: BookingStatus, t: BookingStatus)
    requires t in Actions(st)
    ensures Stage(t) > Stage(st)
  {
  }

  /** A sequence of statuses each reached by a button of the previous one. */
  predicate IsRun(path: seq<BookingStatus>)
  {
    forall i | 0 <= i < |path| - 1 :: path[i + 1] in Actions(path[i])
  }

  /** Any run of button presses is at most two steps long, and the only two-step run ends completed. */
  lemma {:induction false} RunsAreShort(path: seq<BookingStatus>)
    requires path != [] && IsRun(path)
    ensures |path| - 1 <= 2 - Stage(path[0])
    ensures |path| == 3 ==> path[2] == Completed
  {
    if |path| > 1 {
      assert IsRun(path[1..]);
      RunsAreShort(path[1..]);
      ActionsMoveForward(path[0], path[1]);
    }
  }

  /** `handleStatusUpdate`: delegates to the store's `updateBooking` and ignores its result. */
  method HandleStatusUpdate(store: ServiceContext.Store, bookingId: string, st: BookingStatus, now: int,
                            dbError: Option<string>, refetchFails: bool)
    modifies store`remoteBookings, store`bookings
    ensures dbError.Some? ==> store.remoteBookings == old(store.remoteBookings) && store.bookings == old(store.bookings)
    ensures dbError.None? ==>
      store.remoteBookings == ServiceContext.UpdateBookingRows(old(store.remoteBookings), bookingId, BookingPatch(Some(st), None), now)
    ensures dbError.None? && store.user.None? ==> store.bookings == old(store.bookings)
    ensures dbError.None? && store.user.Some? ==>
      store.bookings == if refetchFails then [] else ServiceContext.VisibleBookings(store.remoteBookings, store.user.value)
  {
    var _ := store.UpdateBooking(bookingId, BookingPatch(Some(st), None), now, dbError, refetchFails);
  }

  /** The recent list: `providerBookings.slice(-3)`, the last three entries. On the newest-first
      cache these are the oldest bookings: none is newer than any booking left out. */
  function Recent(pb: seq<Booking>): (r: seq<Booking>)
    ensures |r| == Seqs.Min(3, |pb|)
    ensures r == pb[|pb| - Seqs.Min(3, |pb|)..]
    ensures Bookings.NewestFirst(pb) ==>
      forall x, y | x in r && y in pb[..|pb| - Seqs.Min(3, |pb|)] :: x.createdAt <= y.createdAt
  {
    assert Bookings.NewestFirst(pb) ==>
      forall x, y | x in Bookings.LastSlice(pb, 3) && y in pb[..|pb| - Seqs.Min(3, |pb|)] :: x.createdAt <= y.createdAt
    by {
      if Bookings.NewestFirst(pb) {
        Bookings.LastSliceHoldsOldest(pb, 3);
      }
    }
    Bookings.LastSlice(pb, 3)
  }

  /** The active-services figure: the provider's services that are available. */
  function ActiveServices(ps: seq<Service>): (n: nat)
    ensures n <= |ps|
  {
    |Seqs.Filter(ps, ServiceContext.IsAvailable)|
  }

  /** The services cache holds only available rows, so the active figure always equals the number of
      services listed. */
  lemma ActiveEqualsListed(rows: seq<Service>, user: Option<User>)
    ensures var ps := ProviderServices(ServiceContext.AvailableNewest(rows), user);
      ActiveServices(ps) == |ps|
  {
    var cache := ServiceContext.AvailableNewest(rows);
    var ps := ProviderServices(cache, user);
    forall i | 0 <= i < |ps| ensures ServiceContext.IsAvailable(ps[i]) {
      assert ps[i] in multiset(ps);
      assert ps[i] in cache;
    }
    Seqs.FilterKeepsAll(ps, ServiceContext.IsAvailable);
  }

  /** The completed figure of the performance panel: it reaches the number of bookings exactly when
      every one of them is completed. */
  function CompletedCount(pb: seq<Booking>): (n: nat)
    ensures n <= |pb|
    ensures n == |pb| <==> forall i | 0 <= i < |pb| :: pb[i].status == Completed
  {
    Bookings.AllWithStatus(pb, Completed);
    |Bookings.WithStatus(pb, Completed)|
  }

  /** The completed figure goes up by one exactly for a completed booking. */
  lemma CompletedCountAppend(pb: seq<Booking>, b: Booking)
    ensures CompletedCount(pb + [b]) == CompletedCount(pb) + (if b.status == Completed then 1 else 0)
  {
    Bookings.WithStatusAppend(pb, [b], Completed);
    assert [b][1..] == [];
    assert Bookings.WithStatus([b], Completed) == if b.status == Completed then [b] else [];
  }
}
