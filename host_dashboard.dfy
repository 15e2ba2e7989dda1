/** The host dashboard of src/pages/HostDashboard.tsx: the statistics
    computed from the host's listings and bookings as the server returns
    them, the five most recent bookings, and the confirm/decline buttons. */
module HostDashboard {
  import opened Common
  import opened BookingModel
  import opened ListingModel
  import BookingRoutes

  const RecentCount: nat := 5

  datatype DashboardStats = DashboardStats(
    totalListings: nat,
    activeBookings: nat,
    totalRevenue: int,
    /** Stars, as the mean of the listings' averages. */
    averageRating: real,
    totalReviews: int)

  function IsCompleted(b: Booking): bool {
    b.status == Completed
  }

  function IsActive(b: Booking): bool {
    b.status == Confirmed || b.status == Pending
  }

  function IsRated(l: Listing): bool {
    l.rating.count > 0
  }

  /** `bookings.map(b => b.totalPrice)`. */
  function Prices(bs: seq<Booking>): (ps: seq<int>)
    ensures |ps| == |bs| && forall i :: 0 <= i < |bs| ==> ps[i] == bs[i].totalPrice
  {
    if bs == [] then [] else [bs[0].totalPrice] + Prices(bs[1..])
  }

  /** `listings.map(l => l.rating.average)`, in tenths. */
  function Averages(ls: seq<Listing>): (as_: seq<int>)
    ensures |as_| == |ls| && forall i :: 0 <= i < |ls| ==> as_[i] == ls[i].rating.averageTenths
  {
    if ls == [] then [] else [ls[0].rating.averageTenths] + Averages(ls[1..])
  }

  /** `listings.map(l => l.rating.count)`. */
  function Counts(ls: seq<Listing>): (cs: seq<int>)
    ensures |cs| == |ls| && forall i :: 0 <= i < |ls| ==> cs[i] == ls[i].rating.count
  {
    if ls == [] then [] else [ls[0].rating.count] + Counts(ls[1..])
  }

  /** The revenue: the total price of the completed bookings only. */
  function TotalRevenue(bs: seq<Booking>): int {
    Sum(Prices(Filter(bs, IsCompleted)))
  }

  /** The number of bookings that still hold their dates. */
  function ActiveBookings(bs: seq<Booking>): (n: nat)
    ensures n <= |bs|
    ensures n == |bs| <==> forall i :: 0 <= i < |bs| ==> bs[i].status.HoldsDates()
  {
    FilterAllOrShorter(bs, IsActive);
    |Filter(bs, IsActive)|
  }

  /** No bookings, no active ones; a further booking counts exactly when it
      is pending or confirmed. */
  lemma ActiveBookingsAppend(bs: seq<Booking>, b: Booking)
    ensures ActiveBookings([]) == 0
    ensures ActiveBookings(bs + [b]) == ActiveBookings(bs) + (if b.status.HoldsDates() then 1 else 0)
  {
    FilterConcat(bs, [b], IsActive);
  }

  /** The filter keeps its input's length exactly when every element passes. */
  lemma {:induction false} FilterAllOrShorter(s: seq<Booking>, p: Booking -> bool)
    ensures |Filter(s, p)| == |s| <==> forall i :: 0 <= i < |s| ==> p(s[i])
  {
    if s != [] {
      FilterAllOrShorter(s[1..], p);
      if |Filter(s, p)| == |s| {
        assert p(s[0]);
        forall i | 1 <= i < |s| ensures p(s[i]) {
          assert s[i] == s[1..][i - 1];
        }
      }
    }
  }

  /** The mean star rating of the listings that have reviews, 0 without any. */
  function AverageRating(ls: seq<Listing>): real {
    MeanStars(Averages(Filter(ls, IsRated)))
  }

  /** The mean of averages given in tenths, in stars; 0 for no averages. */
  function MeanStars(avgs: seq<int>): real {
    if |avgs| > 0 then (Sum(avgs) as real) / (10.0 * |avgs| as real) else 0.0
  }

  /** The number of reviews over all listings. */
  function TotalReviews(ls: seq<Listing>): int {
    Sum(Counts(ls))
  }

  /** `fetchDashboardData`'s statistics. */
  function Stats(ls: seq<Listing>, bs: seq<Booking>): (s: DashboardStats)
    ensures s.totalListings == |ls| && s.activeBookings <= |bs|
  {
    DashboardStats(|ls|, ActiveBookings(bs), TotalRevenue(bs), AverageRating(ls), TotalReviews(ls))
  }

  /** `hostBookings.slice(0, 5)`: the first five bookings the server sent
      (the newest, as it sends them newest first), in order. */
  function Recent(bs: seq<Booking>): (r: seq<Booking>)
    ensures |r| == if |bs| < RecentCount then |bs| else RecentCount
    ensures r == bs[..|r|]
  {
    if |bs| < RecentCount then bs else bs[..RecentCount]
  }

  lemma PricesConcat(a: seq<Booking>, b: seq<Booking>)
    ensures Prices(a + b) == Prices(a) + Prices(b)
  {
  }

  /** One more booking adds its price to the revenue exactly when it is
      completed. */
  lemma RevenueAppend(bs: seq<Booking>, b: Booking)
    ensures TotalRevenue(bs + [b]) == TotalRevenue(bs) + (if b.status == Completed then b.totalPrice else 0)
  {
    FilterConcat(bs, [b], IsCompleted);
    PricesConcat(Filter(bs, IsCompleted), Filter([b], IsCompleted));
    SumConcat(Prices(Filter(bs, IsCompleted)), Prices(Filter([b], IsCompleted)));
  }

  /** Bookings that satisfy the schema never make the revenue negative. */
  lemma RevenueNonNegative(bs: seq<Booking>)
    requires forall i :: 0 <= i < |bs| ==> ValidBooking(bs[i])
    ensures TotalRevenue(bs) >= 0
  {
    var done := Filter(bs, IsCompleted);
    assert forall i :: 0 <= i < |done| ==> done[i] in bs;
    assert forall i :: 0 <= i < |done| ==> ValidBooking(done[i]) by {
      forall i | 0 <= i < |done| ensures ValidBooking(done[i]) {
        var j :| 0 <= j < |bs| && bs[j] == done[i];
      }
    }
    SumLowerBound(Prices(done));
  }

  lemma {:induction false} SumLowerBound(s: seq<int>)
    requires forall i :: 0 <= i < |s| ==> s[i] >= 0
    ensures Sum(s) >= 0
  {
    if s != [] {
      SumLowerBound(s[1..]);
    }
  }

  /** Over schema-valid listings the dashboard mean lies between 0 and 5
      stars. */
  lemma AverageRatingInRange(ls: seq<Listing>)
    requires forall i :: 0 <= i < |ls| ==> ValidListing(ls[i])
    ensures 0.0 <= AverageRating(ls) <= 5.0
  {
    var rated := Filter(ls, IsRated);
    var avgs := Averages(rated);
    if |avgs| > 0 {
      forall i | 0 <= i < |avgs| ensures 0 <= avgs[i] <= MaxAverageTenths {
        assert rated[i] in ls;
      }
      SumBounds(avgs, 0, MaxAverageTenths);
      var n := |avgs| as real;
      var t := Sum(avgs) as real;
      assert 0.0 <= t <= 50.0 * n;
      DivideBounds(t, n);
    }
  }

  lemma DivideBounds(t: real, n: real)
    requires n > 0.0 && 0.0 <= t <= 50.0 * n
    ensures 0.0 <= t / (10.0 * n) <= 5.0
  {
  }

  /** A listing with no reviews does not move the mean. */
  lemma UnratedListingIgnored(ls: seq<Listing>, l: Listing)
    requires l.rating.count <= 0
    ensures AverageRating(ls + [l]) == AverageRating(ls)
  {
    FilterConcat(ls, [l], IsRated);
    assert Filter([l], IsRated) == [];
    var rated := Filter(ls + [l], IsRated);
    assert rated == Filter(ls, IsRated);
    assert AverageRating(ls + [l]) == MeanStars(Averages(rated));
  }

  /** One more listing adds its reviews to the total. */
  lemma TotalReviewsAppend(ls: seq<Listing>, l: Listing)
    ensures TotalReviews(ls + [l]) == TotalReviews(ls) + l.rating.count
  {
    assert Counts(ls + [l]) == Counts(ls) + [l.rating.count];
    SumConcat(Counts(ls), [l.rating.count]);
  }

  /** The confirm and decline buttons appear on pending bookings only. */
  predicate DecisionOffered(b: Booking) {
    b.status == Pending
  }

  /** For the host's own booking, the buttons are shown exactly when the
      server's status route would accept either decision. */
  lemma DecisionButtonsMatchServer(bs: seq<Booking>, id: BookingId, host: UserId, decision: Status)
    requires id < |bs| && bs[id].host == host
    requires decision == Confirmed || decision == Cancelled
    ensures DecisionOffered(bs[id]) <==> BookingRoutes.StatusCheck(bs, id, host, decision).None?
  {
  }
}
