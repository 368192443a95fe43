/** The customer's dashboard: the customer's bookings, the status
    filter of the bookings tab, spending, per-status counts, the recent
    list and the services tab. */
module UserDashboard {
  import opened Types
  import Seqs
  import Bookings

  /** `bookings.filter(b => b.user_id === user?.id)`: with no user nothing matches. */
  function UserBookings(bookings: seq<Booking>, user: Option<User>): (r: seq<Booking>)
    ensures user.None? ==> r == []
    ensures user.Some? ==> forall b :: multiset(r)[b] == if b.userId == user.value.id then multiset(bookings)[b] else 0
  {
    if user.None? then [] else Bookings.OwnedBy(bookings, user.value.id)
  }

  predicate HasStatusName(b: Booking, filter: string)
  {
    StatusName(b.status) == filter
  }

  /** `filteredBookings`: 'all' keeps every booking, any other value those whose status is spelled so. */
  function FilteredBookings(ub: seq<Booking>, filter: string): (r: seq<Booking>)
    ensures filter == "all" ==> r == ub
    ensures filter != "all" ==> forall b :: multiset(r)[b] == if StatusName(b.status) == filter then multiset(ub)[b] else 0
  {
    if filter == "all" then ub else Seqs.Filter(ub, (b: Booking) => HasStatusName(b, filter))
  }

  /** A status filter shows the same list as the per-status view of that status. */
  lemma FilterByStatus(ub: seq<Booking>, st: BookingStatus)
    ensures FilteredBookings(ub, StatusName(st)) == Bookings.WithStatus(ub, st)
  {
    forall b ensures HasStatusName(b, StatusName(st)) == (b.status == st) {
      StatusNameInjective(b.status, st);
    }
    Seqs.FilterSamePredicate(ub, (b: Booking) => HasStatusName(b, StatusName(st)), (b: Booking) => b.status == st);
  }

  /** A filter value that spells no status shows nothing. */
  lemma UnknownFilterShowsNothing(ub: seq<Booking>, filter: string)
    requires filter != "all" && forall st :: StatusName(st) != filter
    ensures FilteredBookings(ub, filter) == []
  {
    var r := FilteredBookings(ub, filter);
    assert forall b :: multiset(r)[b] == 0;
    assert multiset(r) == multiset{};
  }

  /** `totalSpent`: the completed bookings' amounts. */
  function TotalSpent(ub: seq<Booking>): int
  {
    Bookings.CompletedTotal(ub)
  }

  /** With non-negative amounts, spending is between nothing and the sum of all the customer's bookings. */
  lemma TotalSpentBounds(ub: seq<Booking>)
    requires forall i | 0 <= i < |ub| :: ub[i].totalAmount >= 0
    ensures 0 <= TotalSpent(ub) <= Bookings.TotalAmount(ub)
  {
    Bookings.CompletedTotalBounds(ub);
  }

  /** The counter cards: how many of the customer's bookings have a status. */
  function CountWith(ub: seq<Booking>, st: BookingStatus): (n: nat)
    ensures n <= |ub|
  {
    |Bookings.WithStatus(ub, st)|
  }

  /** Each card shows the size of the matching filter, and the four statuses share out all bookings. */
  lemma CountsPartition(ub: seq<Booking>)
    ensures forall st :: CountWith(ub, st) == |FilteredBookings(ub, StatusName(st))|
    ensures CountWith(ub, Pending) + CountWith(ub, Confirmed) + CountWith(ub, Completed) + CountWith(ub, Cancelled) == |ub|
  {
    forall st ensures CountWith(ub, st) == |FilteredBookings(ub, StatusName(st))| {
      FilterByStatus(ub, st);
    }
    Bookings.StatusCountsPartition(ub);
  }

  /** The recent list: `userBookings.slice(-3)`, the last three entries. On the newest-first
      cache these are the oldest bookings: none is newer than any booking left out. */
  function Recent(ub: seq<Booking>): (r: seq<Booking>)
    ensures |r| == Seqs.Min(3, |ub|)
    ensures r == ub[|ub| - Seqs.Min(3, |ub|)..]
    ensures Bookings.NewestFirst(ub) ==>
      forall x, y | x in r && y in ub[..|ub| - Seqs.Min(3, |ub|)] :: x.createdAt <= y.createdAt
  {
    assert Bookings.NewestFirst(ub) ==>
      forall x, y | x in Bookings.LastSlice(ub, 3) && y in ub[..|ub| - Seqs.Min(3, |ub|)] :: x.createdAt <= y.createdAt
    by {
      if Bookings.NewestFirst(ub) {
        Bookings.LastSliceHoldsOldest(ub, 3);
      }
    }
    Bookings.LastSlice(ub, 3)
  }

  /** The services tab: `services.slice(0, 6)`. */
  function Featured(services: seq<Service>): (r: seq<Service>)
    ensures |r| == Seqs.Min(6, |services|)
    ensures r == services[..Seqs.Min(6, |services|)]
  {
    Seqs.FirstElements(services, 6);
    Seqs.Slice(services, 0, 6)
  }
}
