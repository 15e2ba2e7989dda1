/** The guest's booking list of src/pages/MyBookings.tsx: the status filter
    over the fetched bookings and the conditions under which the cancel and
    review buttons appear, set against the server routes they call. */
module MyBookings {
  import opened Common
  import opened BookingModel
  import BookingRoutes

  /** The filter drop-down: `'all'` or one status. */
  datatype StatusFilter = All | Only(status: Status)

  function Selects(f: StatusFilter): Booking -> bool {
    (b: Booking) => f.All? || b.status == f.status
  }

  /** `filteredBookings`. */
  function FilterBookings(bs: seq<Booking>, f: StatusFilter): (r: seq<Booking>)
    ensures f.All? ==> r == bs
    ensures f.Only? ==> forall i :: 0 <= i < |r| ==> r[i].status == f.status
    ensures forall b :: b in r <==> b in bs && (f.All? || b.status == f.status)
  {
    var r := Filter(bs, Selects(f));
    if f.All? then FilterKeepsAll(bs, Selects(f)); r else r
  }

  /** A status filter keeps the bookings of that status in their original
      order, each as often as it was fetched, and drops all the others. */
  lemma FilterIsExactSubsequence(bs: seq<Booking>, s: Status, b: Booking)
    ensures IsSubsequence(FilterBookings(bs, Only(s)), bs)
    ensures multiset(FilterBookings(bs, Only(s)))[b] == if b.status == s then multiset(bs)[b] else 0
  {
    FilterIsSubsequence(bs, Selects(Only(s)));
    FilterMultiset(bs, Selects(Only(s)), b);
  }

  /** The four status filters split the list: their sizes add up to the
      number of bookings fetched. */
  lemma {:induction false} FiltersPartition(bs: seq<Booking>)
    ensures |FilterBookings(bs, Only(Pending))| + |FilterBookings(bs, Only(Confirmed))|
            + |FilterBookings(bs, Only(Cancelled))| + |FilterBookings(bs, Only(Completed))| == |bs|
  {
    if bs != [] {
      FiltersPartition(bs[1..]);
    }
  }

  /** The "Cancel Booking" button. */
  predicate CancelOffered(b: Booking) {
    b.status == Pending
  }

  /** The "Write Review" button. */
  predicate ReviewOffered(b: Booking) {
    b.status == Completed && b.review.None?
  }

  /** The cancel button sends `PUT /bookings/:id` with status cancelled; for
      the guest's own booking the server accepts every request the button
      can send, and the booking ends up cancelled. The server would also
      accept a cancellation of a confirmed booking, which the page does not
      offer. */
  lemma CancelButtonAccepted(bs: seq<Booking>, id: BookingId, guest: UserId)
    requires id < |bs| && bs[id].guest == guest
    ensures CancelOffered(bs[id]) ==>
              BookingRoutes.UpdateCheck(bs, id, guest, BookingRoutes.UpdateRequest(Some(Cancelled), None)).None?
              && BookingRoutes.ApplyUpdate(bs[id], BookingRoutes.UpdateRequest(Some(Cancelled), None)).status == Cancelled
    ensures bs[id].status == Confirmed ==>
              !CancelOffered(bs[id])
              && BookingRoutes.UpdateCheck(bs, id, guest, BookingRoutes.UpdateRequest(Some(Cancelled), None)).None?
  {
  }

  /** For the guest's own booking, the review button is shown exactly when
      the server's status and duplicate checks of the review route pass; a
      valid rating and comment are then accepted. */
  lemma ReviewButtonMatchesServer(bs: seq<Booking>, id: BookingId, guest: UserId, rating: int, comment: string)
    requires id < |bs| && bs[id].guest == guest
    requires 1 <= rating <= 5 && 1 <= |Trim(comment)| <= BookingRoutes.MaxTextLength
    ensures ReviewOffered(bs[id]) <==> BookingRoutes.ReviewCheck(bs, id, guest, rating, comment).None?
  {
  }
}
