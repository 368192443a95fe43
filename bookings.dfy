/** Views of a booking list shared by the store and the three
    dashboards: who a booking belongs to, its status, its amount, and
    the label a status is shown with. */
module Bookings {
  import opened Types
  import Seqs

  /** `bookings.filter(b => b.user_id === uid)`. */
  function OwnedBy(bs: seq<Booking>, uid: string): (r: seq<Booking>)
    ensures forall b :: multiset(r)[b] == if b.userId == uid then multiset(bs)[b] else 0
  {
    Seqs.Filter(bs, (b: Booking) => b.userId == uid)
  }

  /** `bookings.filter(b => b.provider_id === uid)`. */
  function ProvidedBy(bs: seq<Booking>, uid: string): (r: seq<Booking>)
    ensures forall b :: multiset(r)[b] == if b.providerId == uid then multiset(bs)[b] else 0
  {
    Seqs.Filter(bs, (b: Booking) => b.providerId == uid)
  }

  /** `bookings.filter(b => b.status === st)`. */
  function WithStatus(bs: seq<Booking>, st: BookingStatus): (r: seq<Booking>)
    ensures forall b :: multiset(r)[b] == if b.status == st then multiset(bs)[b] else 0
  {
    Seqs.Filter(bs, (b: Booking) => b.status == st)
  }

  function Amount(b: Booking): int
  {
    b.totalAmount
  }

  /** `bookings.reduce((sum, b) => sum + Number(b.total_amount), 0)`. */
  function TotalAmount(bs: seq<Booking>): int
  {
    Seqs.SumOf(bs, Amount)
  }

  lemma TotalAmountAppend(a: seq<Booking>, b: seq<Booking>)
    ensures TotalAmount(a + b) == TotalAmount(a) + TotalAmount(b)
  {
    Seqs.SumOfAppend(a, b, Amount);
  }

  lemma WithStatusAppend(a: seq<Booking>, b: seq<Booking>, st: BookingStatus)
    ensures WithStatus(a + b, st) == WithStatus(a, st) + WithStatus(b, st)
  {
    Seqs.FilterAppend(a, b, (x: Booking) => x.status == st);
  }

  /** Splits the first booking off a per-status view: it counts only towards its own status. */
  lemma WithStatusCons(bs: seq<Booking>, st: BookingStatus)
    requires bs != []
    ensures |WithStatus(bs, st)| == (if bs[0].status == st then 1 else 0) + |WithStatus(bs[1..], st)|
    ensures TotalAmount(WithStatus(bs, st))
         == (if bs[0].status == st then bs[0].totalAmount else 0) + TotalAmount(WithStatus(bs[1..], st))
  {
    var rest := WithStatus(bs[1..], st);
    if bs[0].status == st {
      var f := [bs[0]] + rest;
      assert WithStatus(bs, st) == f;
      assert f[1..] == rest;
    } else {
      assert WithStatus(bs, st) == rest;
    }
  }

  /** A per-status view keeps the whole list exactly when every booking has that status. */
  lemma {:induction false} AllWithStatus(bs: seq<Booking>, st: BookingStatus)
    ensures |WithStatus(bs, st)| == |bs| <==> forall i | 0 <= i < |bs| :: bs[i].status == st
  {
    if bs != [] {
      WithStatusCons(bs, st);
      AllWithStatus(bs[1..], st);
      assert forall i | 1 <= i < |bs| :: bs[i] == bs[1..][i - 1];
      if forall i | 0 <= i < |bs| :: bs[i].status == st {
        assert forall i | 0 <= i < |bs[1..]| :: bs[1..][i].status == st;
      }
    }
  }

  /** Every booking has exactly one of the four statuses, so the per-status counts add up to the whole list. */
  lemma {:induction false} StatusCountsPartition(bs: seq<Booking>)
    ensures |WithStatus(bs, Pending)| + |WithStatus(bs, Confirmed)|
          + |WithStatus(bs, Completed)| + |WithStatus(bs, Cancelled)| == |bs|
  {
    if bs != [] {
      WithStatusCons(bs, Pending);
      WithStatusCons(bs, Confirmed);
      WithStatusCons(bs, Completed);
      WithStatusCons(bs, Cancelled);
      StatusCountsPartition(bs[1..]);
    }
  }

  /** Likewise the per-status amounts add up to the total amount. */
  lemma {:induction false} StatusAmountsPartition(bs: seq<Booking>)
    ensures TotalAmount(WithStatus(bs, Pending)) + TotalAmount(WithStatus(bs, Confirmed))
          + TotalAmount(WithStatus(bs, Completed)) + TotalAmount(WithStatus(bs, Cancelled))
         == TotalAmount(bs)
  {
    if bs != [] {
      WithStatusCons(bs, Pending);
      WithStatusCons(bs, Confirmed);
      WithStatusCons(bs, Completed);
      WithStatusCons(bs, Cancelled);
      StatusAmountsPartition(bs[1..]);
    }
  }

  /** The sum of the completed bookings: what a dashboard calls earnings or spending. */
  function CompletedTotal(bs: seq<Booking>): int
  {
    TotalAmount(WithStatus(bs, Completed))
  }

  /** A booking that is not completed adds nothing to the completed total; a completed one adds its amount. */
  lemma CompletedTotalAppend(bs: seq<Booking>, b: Booking)
    ensures CompletedTotal(bs + [b]) == CompletedTotal(bs) + (if b.status == Completed then b.totalAmount else 0)
  {
    WithStatusAppend(bs, [b], Completed);
    TotalAmountAppend(WithStatus(bs, Completed), WithStatus([b], Completed));
    assert [b][1..] == [];
    assert WithStatus([b], Completed) == if b.status == Completed then [b] else [];
    assert Seqs.SumOf([b], Amount) == Amount(b) + Seqs.SumOf([], Amount);
  }

  /** With non-negative amounts the completed total lies between 0 and the total amount. */
  lemma CompletedTotalBounds(bs: seq<Booking>)
    requires forall i | 0 <= i < |bs| :: bs[i].totalAmount >= 0
    ensures 0 <= CompletedTotal(bs) <= TotalAmount(bs)
  {
    var done := WithStatus(bs, Completed);
    forall i | 0 <= i < |done| ensures Amount(done[i]) >= 0 {
      assert done[i] in multiset(done);
      assert done[i] in bs;
    }
    Seqs.SumOfNonNegative(done, Amount);
    Seqs.SumOfFilterAtMost(bs, (b: Booking) => b.status == Completed, Amount);
  }

  /** The Bengali label a dashboard shows for a status. */
  function StatusLabel(st: BookingStatus): string
  {
    match st
    case Pending => "অপেক্ষমাণ"
    case Confirmed => "নিশ্চিত"
    case Completed => "সম্পন্ন"
    case Cancelled => "বাতিল"
  }

  /** `getStatusText`: a switch over the status string with the string itself as the default. */
  function StatusText(status: string): (r: string)
    ensures forall st :: status == StatusName(st) ==> r == StatusLabel(st)
    ensures (forall st :: status != StatusName(st)) ==> r == status
  {
    if status == StatusName(Pending) then "অপেক্ষমাণ"
    else if status == StatusName(Confirmed) then "নিশ্চিত"
    else if status == StatusName(Completed) then "সম্পন্ন"
    else if status == StatusName(Cancelled) then "বাতিল"
    else status
  }

  /** The four labels are distinct, so a label tells the status apart. */
  lemma StatusLabelInjective(a: BookingStatus, b: BookingStatus)
    ensures StatusLabel(a) == StatusLabel(b) <==> a == b
  {
  }

  /** Ordered as the store keeps bookings: newest first. */
  predicate NewestFirst(bs: seq<Booking>)
  {
    forall i, j | 0 <= i < j < |bs| :: bs[i].createdAt >= bs[j].createdAt
  }

  /** `slice(-k)`, what the dashboards show as their recent bookings: the last `min(k, n)` entries. */
  function LastSlice(bs: seq<Booking>, k: int): (r: seq<Booking>)
    requires k > 0
    ensures |r| == Seqs.Min(k, |bs|)
    ensures r == bs[|bs| - Seqs.Min(k, |bs|)..]
  {
    Seqs.LastElements(bs, k);
    Seqs.SliceFrom(bs, -k)
  }

  /** On a newest-first list the last `k` entries are the oldest ones: none is newer than any entry left out. */
  lemma LastSliceHoldsOldest(bs: seq<Booking>, k: int)
    requires k > 0 && NewestFirst(bs)
    ensures forall x, y | x in LastSlice(bs, k) && y in bs[..|bs| - Seqs.Min(k, |bs|)] :: x.createdAt <= y.createdAt
  {
    var cut := |bs| - Seqs.Min(k, |bs|);
    forall x, y | x in LastSlice(bs, k) && y in bs[..cut] ensures x.createdAt <= y.createdAt {
      var i :| 0 <= i < |LastSlice(bs, k)| && LastSlice(bs, k)[i] == x;
      var j :| 0 <= j < cut && bs[..cut][j] == y;
      assert bs[cut + i] == x && bs[j] == y;
    }
  }

  /** Four bookings stored newest first: the three `slice(-3)` shows leave out the newest one. */
  lemma LastSliceMissesNewest(b: Booking)
    ensures var bs := [b.(createdAt := 4), b.(createdAt := 3), b.(createdAt := 2), b.(createdAt := 1)];
      NewestFirst(bs) && b.(createdAt := 4) !in LastSlice(bs, 3)
  {
    var bs := [b.(createdAt := 4), b.(createdAt := 3), b.(createdAt := 2), b.(createdAt := 1)];
    assert LastSlice(bs, 3) == bs[1..];
  }

  /** `slice(0, k)`: on a newest-first list, the `min(k, n)` newest bookings. */
  function NewestSlice(bs: seq<Booking>, k: nat): (r: seq<Booking>)
    ensures |r| == Seqs.Min(k, |bs|)
    ensures r == bs[..Seqs.Min(k, |bs|)]
    ensures NewestFirst(bs) ==>
      forall x, y | x in r && y in bs[Seqs.Min(k, |bs|)..] :: x.createdAt >= y.createdAt
  {
    Seqs.FirstElements(bs, k);
    var r := Seqs.Slice(bs, 0, k);
    var cut := Seqs.Min(k, |bs|);
    assert forall x, y | x in r && y in bs[cut..] :: NewestFirst(bs) ==> x.createdAt >= y.createdAt by {
      forall x, y | x in r && y in bs[cut..] && NewestFirst(bs) ensures x.createdAt >= y.createdAt {
        var i :| 0 <= i < |r| && r[i] == x;
        var j :| 0 <= j < |bs[cut..]| && bs[cut..][j] == y;
        assert bs[i] == x && bs[cut + j] == y;
      }
    }
    r
  }

  /** `booking.id.slice(-8)`: the short reference a dashboard prints. */
  function ShortId(id: string): (r: string)
    ensures |r| == Seqs.Min(8, |id|)
    ensures r == id[|id| - Seqs.Min(8, |id|)..]
  {
    Seqs.LastElements(id, 8);
    Seqs.SliceFrom(id, -8)
  }
}
