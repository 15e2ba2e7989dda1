/** The booking routes of server/src/routes/bookings.js as a store of
    bookings over a table of listings. The booking table is kept in creation
    order and a booking's id is its position in it. Each handler is a pure
    guard (the validators and the `if (...) return res.status(...)` chain, in
    the order the handler runs them) and a method of `BookingStore` that
    assigns the fields in place when every guard passes. */
module BookingRoutes {
  import opened Common
  import opened BookingModel
  import opened ListingModel

  /** Why a request is refused, one constructor per distinct response. */
  datatype BookingError =
    | InvalidInput             // 400: a validator rejected the body
    | ListingUnavailable       // 404: the listing is missing or inactive
    | CheckInPast              // 400
    | CheckOutNotAfterCheckIn  // 400
    | BelowMinStay             // 400
    | AboveMaxStay             // 400
    | OverCapacity             // 400
    | DatesUnavailable         // 400
    | BookingNotFound          // 404
    | Forbidden                // 403: the caller is not the party the route requires
    | NotPending               // 400
    | CannotCancel             // 400
    | NotCompleted             // 400
    | AlreadyReviewed          // 400
    | GuestsCanOnlyCancel      // 403
    | CompletedImmutable       // 400
    | AlreadyCancelled         // 400
    | ServerError              // 500: the schema refused the save

  const GuestCancellationReason: string := "Cancelled by guest"
  /** Longest comment and cancellation reason the validators accept. */
  const MaxTextLength: int := 500

  // ---------------------------------------------------------------------------
  // Availability

  /** Booking `b` holds some of the nights `[checkIn, checkOut)` of `listing`:
      it is pending or confirmed and its stay overlaps the half-open range. */
  predicate Blocks(b: Booking, listing: ListingId, checkIn: int, checkOut: int) {
    b.listing == listing && b.status.HoldsDates() && b.checkIn < checkOut && b.checkOut > checkIn
  }

  /** The conflict query of the create route finds a booking. */
  predicate HasConflict(bs: seq<Booking>, listing: ListingId, checkIn: int, checkOut: int) {
    exists i :: 0 <= i < |bs| && Blocks(bs[i], listing, checkIn, checkOut)
  }

  /** Two bookings that both hold dates of one listing and overlap. */
  predicate Clash(a: Booking, b: Booking) {
    a.listing == b.listing && a.status.HoldsDates() && b.status.HoldsDates()
    && a.checkIn < b.checkOut && b.checkIn < a.checkOut
  }

  /** The availability invariant: no two pending or confirmed bookings of the
      same listing overlap. */
  ghost predicate NoActiveOverlap(bs: seq<Booking>) {
    forall i, j :: 0 <= i < j < |bs| ==> !Clash(bs[i], bs[j])
  }

  /** A stay that ends when the requested one begins (or begins when it
      ends) never blocks it: the ranges are half-open. */
  lemma BackToBackStaysDoNotBlock(b: Booking, listing: ListingId, checkIn: int, checkOut: int)
    requires b.checkOut == checkIn || b.checkIn == checkOut
    ensures !Blocks(b, listing, checkIn, checkOut)
  {
  }

  /** Cancelled and completed bookings never block a request. */
  lemma {:induction false} InactiveBookingsNeverBlock(bs: seq<Booking>, x: Booking, listing: ListingId,
                                                      checkIn: int, checkOut: int)
    requires !x.status.HoldsDates()
    ensures HasConflict(bs + [x], listing, checkIn, checkOut) <==> HasConflict(bs, listing, checkIn, checkOut)
  {
    var ext := bs + [x];
    if HasConflict(ext, listing, checkIn, checkOut) {
      var i :| 0 <= i < |ext| && Blocks(ext[i], listing, checkIn, checkOut);
      assert i < |bs| && bs[i] == ext[i];
    }
    if HasConflict(bs, listing, checkIn, checkOut) {
      var i :| 0 <= i < |bs| && Blocks(bs[i], listing, checkIn, checkOut);
      assert ext[i] == bs[i];
    }
  }

  /** Adding a booking that clashes with none keeps the invariant. */
  lemma AppendPreservesNoOverlap(bs: seq<Booking>, nb: Booking)
    requires NoActiveOverlap(bs)
    requires forall i :: 0 <= i < |bs| ==> !Clash(bs[i], nb)
    ensures NoActiveOverlap(bs + [nb])
  {
    var ext := bs + [nb];
    forall i, j | 0 <= i < j < |ext|
      ensures !Clash(ext[i], ext[j])
    {
      if j < |bs| {
        assert ext[i] == bs[i] && ext[j] == bs[j];
      } else {
        assert ext[i] == bs[i] && ext[j] == nb;
      }
    }
  }

  /** Replacing a booking by one with the same listing and dates that holds
      dates only if the old one did keeps the invariant. */
  lemma ReplacePreservesNoOverlap(bs: seq<Booking>, k: nat, nb: Booking)
    requires NoActiveOverlap(bs) && k < |bs|
    requires nb.listing == bs[k].listing && nb.checkIn == bs[k].checkIn && nb.checkOut == bs[k].checkOut
    requires nb.status.HoldsDates() ==> bs[k].status.HoldsDates()
    ensures NoActiveOverlap(bs[k := nb])
  {
    var upd := bs[k := nb];
    forall i, j | 0 <= i < j < |upd|
      ensures !Clash(upd[i], upd[j])
    {
      assert Clash(upd[i], upd[j]) ==> Clash(bs[i], bs[j]);
    }
  }

  // ---------------------------------------------------------------------------
  // POST /

  datatype CreateRequest = CreateRequest(
    listing: ListingId,
    checkIn: int,
    checkOut: int,
    guests: int,
    guestDetails: GuestDetails,
    specialRequests: Option<string>)

  /** The validator chain of the create route. `isEmail` is the library's
      e-mail syntax check. */
  predicate CreateBodyValid(req: CreateRequest, isEmail: string -> bool) {
    req.guests >= 1
    && Trim(req.guestDetails.name) != []
    && isEmail(req.guestDetails.email)
    && Trim(req.guestDetails.phone) != []
  }

  /** The nights the route prices: `Math.ceil((checkOut - checkIn) / day)`. */
  function RequestedNights(req: CreateRequest): int {
    CeilDiv(req.checkOut - req.checkIn, DayMs)
  }

  /** The guards of the create route in the order it runs them; `today` is
      the server's local midnight. `None` means every guard passed. */
  function CreateCheck(listings: seq<Listing>, bs: seq<Booking>, req: CreateRequest, today: int,
                       isEmail: string -> bool): Option<BookingError>
  {
    if !CreateBodyValid(req, isEmail) then Some(InvalidInput)
    else if req.listing >= |listings| || !listings[req.listing].isActive then Some(ListingUnavailable)
    else if req.checkIn < today then Some(CheckInPast)
    else if req.checkOut <= req.checkIn then Some(CheckOutNotAfterCheckIn)
    else if RequestedNights(req) < listings[req.listing].rules.minStay then Some(BelowMinStay)
    else if RequestedNights(req) > listings[req.listing].rules.maxStay then Some(AboveMaxStay)
    else if req.guests > listings[req.listing].capacity.guests then Some(OverCapacity)
    else if HasConflict(bs, req.listing, req.checkIn, req.checkOut) then Some(DatesUnavailable)
    else None
  }

  /** The document the create route saves for listing `l`: the sanitized
      guest details (name and phone trimmed), the listing's host, and the
      price of the requested nights. */
  function BookingFor(l: Listing, req: CreateRequest, guest: UserId): Booking {
    NewBooking(req.listing, guest, l.host, req.checkIn, req.checkOut, req.guests,
               StayTotal(l.price, RequestedNights(req)),
               GuestDetails(Trim(req.guestDetails.name), req.guestDetails.email, Trim(req.guestDetails.phone)),
               req.specialRequests.GetOr(""))
  }

  /** The create guards accept exactly the requests that pass every check:
      a valid body, an active listing, a check-in no earlier than today and
      before the check-out, a stay within the listing's window, a party
      within its capacity, and no pending or confirmed booking of the
      listing overlapping the stay. */
  lemma CreateAcceptsExactly(listings: seq<Listing>, bs: seq<Booking>, req: CreateRequest, today: int,
                             isEmail: string -> bool)
    ensures CreateCheck(listings, bs, req, today, isEmail).None? <==>
      && CreateBodyValid(req, isEmail)
      && req.listing < |listings| && listings[req.listing].isActive
      && today <= req.checkIn < req.checkOut
      && listings[req.listing].rules.minStay <= RequestedNights(req) <= listings[req.listing].rules.maxStay
      && req.guests <= listings[req.listing].capacity.guests
      && forall i :: 0 <= i < |bs| ==> !Blocks(bs[i], req.listing, req.checkIn, req.checkOut)
  {
  }

  /** An accepted request yields a pending booking whose `nights` virtual is
      the number of nights priced, within the listing's stay window, with
      `totalPrice = price * nights`, the listing's host and the caller as
      guest; the schema accepts it whenever the e-mail check rejects the
      empty string. */
  lemma AcceptedBooking(listings: seq<Listing>, bs: seq<Booking>, req: CreateRequest, today: int,
                        isEmail: string -> bool, guest: UserId)
    requires CreateCheck(listings, bs, req, today, isEmail).None?
    requires ValidListing(listings[req.listing])
    requires !isEmail("")
    ensures var l := listings[req.listing];
      var b := BookingFor(l, req, guest);
      && b.status == Pending && b.guest == guest && b.host == l.host && b.listing == req.listing
      && Nights(b) == RequestedNights(req) >= 1
      && l.rules.minStay <= Nights(b) <= l.rules.maxStay
      && b.totalPrice == l.price * Nights(b)
      && ValidBooking(b)
  {
    var l := listings[req.listing];
    var b := BookingFor(l, req, guest);
    NightsOfRequest(l, req, guest);
    assert l.price >= 0 && Nights(b) >= 1;
    NonNegativeProduct(l.price, Nights(b));
    StayTotalIsProduct(l.price, Nights(b));
    assert req.guestDetails.email != [];
  }

  /** For a check-out after the check-in, the `nights` virtual of the saved
      booking is the number of nights the route priced. */
  lemma NightsOfRequest(l: Listing, req: CreateRequest, guest: UserId)
    requires req.checkIn < req.checkOut
    ensures Nights(BookingFor(l, req, guest)) == RequestedNights(req) >= 1
  {
    var b := BookingFor(l, req, guest);
    assert Abs(b.checkOut - b.checkIn) == req.checkOut - req.checkIn;
  }

  /** `listing.price * nights`, accumulated night by night, which keeps the
      product out of the route's guards; `StayTotalIsProduct` equates the
      two. */
  function StayTotal(price: int, nights: int): int
    decreases if nights < 0 then -nights else nights
  {
    if nights == 0 then 0
    else if nights > 0 then StayTotal(price, nights - 1) + price
    else StayTotal(price, nights + 1) - price
  }

  /** The accumulated total is the nightly price times the nights. */
  lemma {:induction false} StayTotalIsProduct(price: int, nights: int)
    ensures StayTotal(price, nights) == price * nights
    decreases if nights < 0 then -nights else nights
  {
    if nights > 0 {
      StayTotalIsProduct(price, nights - 1);
      assert price * nights == price * (nights - 1) + price;
    } else if nights < 0 {
      StayTotalIsProduct(price, nights + 1);
      assert price * nights == price * (nights + 1) - price;
    }
  }

  lemma NonNegativeProduct(x: int, y: int)
    requires x >= 0 && y >= 0
    ensures x * y >= 0
  {
  }

  /** An accepted booking clashes with no stored booking, so a successful
      create keeps the availability invariant. */
  lemma CreatePreservesNoOverlap(listings: seq<Listing>, bs: seq<Booking>, req: CreateRequest, today: int,
                                 isEmail: string -> bool, guest: UserId)
    requires CreateCheck(listings, bs, req, today, isEmail).None?
    requires NoActiveOverlap(bs)
    ensures NoActiveOverlap(bs + [BookingFor(listings[req.listing], req, guest)])
  {
    AcceptedClashesWithNone(listings, bs, req, today, isEmail, guest);
    AppendPreservesNoOverlap(bs, BookingFor(listings[req.listing], req, guest));
  }

  /** The conflict guard rules out every stored booking the new one would
      clash with. */
  lemma AcceptedClashesWithNone(listings: seq<Listing>, bs: seq<Booking>, req: CreateRequest, today: int,
                                isEmail: string -> bool, guest: UserId)
    requires CreateCheck(listings, bs, req, today, isEmail).None?
    ensures forall i :: 0 <= i < |bs| ==> !Clash(bs[i], BookingFor(listings[req.listing], req, guest))
  {
    var nb := BookingFor(listings[req.listing], req, guest);
    forall i | 0 <= i < |bs|
      ensures !Clash(bs[i], nb)
    {
      assert !Blocks(bs[i], req.listing, req.checkIn, req.checkOut);
    }
  }

  // ---------------------------------------------------------------------------
  // The lifecycle

  /** The moves the booking lifecycle is designed to allow: staying put,
      pending to confirmed or cancelled, and confirmed to cancelled.
      Completion is set outside the routes. */
  predicate LifecycleStep(from: Status, to: Status) {
    from == to
    || (from == Pending && (to == Confirmed || to == Cancelled))
    || (from == Confirmed && to == Cancelled)
  }

  // PATCH /:id/status

  /** The guards of the host's status change. */
  function StatusCheck(bs: seq<Booking>, id: BookingId, caller: UserId, status: Status): Option<BookingError> {
    if status != Confirmed && status != Cancelled then Some(InvalidInput)
    else if id >= |bs| then Some(BookingNotFound)
    else if bs[id].host != caller then Some(Forbidden)
    else if bs[id].status != Pending then Some(NotPending)
    else None
  }

  /** Only the host of a pending booking may decide on it, and the decision
      is a lifecycle step to confirmed or cancelled. */
  lemma HostDecisionFollowsLifecycle(bs: seq<Booking>, id: BookingId, caller: UserId, status: Status)
    requires StatusCheck(bs, id, caller, status).None?
    ensures id < |bs| && bs[id].host == caller && bs[id].status == Pending
    ensures (status == Confirmed || status == Cancelled) && LifecycleStep(bs[id].status, status)
  {
  }

  // PATCH /:id/cancel

  /** The guards of the guest's cancellation. */
  function CancelCheck(bs: seq<Booking>, id: BookingId, caller: UserId): Option<BookingError> {
    if id >= |bs| then Some(BookingNotFound)
    else if bs[id].guest != caller then Some(Forbidden)
    else if bs[id].status != Pending && bs[id].status != Confirmed then Some(CannotCancel)
    else None
  }

  /** `req.body.reason || 'Cancelled by guest'` after the trim sanitizer:
      a cancelled booking always records a non-empty reason, the guest's
      own when there is one. */
  function CancellationReason(reason: Option<string>): (r: string)
    ensures r != []
    ensures r == GuestCancellationReason <==> reason.None? || Trim(reason.value) in {[], GuestCancellationReason}
    ensures r != GuestCancellationReason ==> reason.Some? && r == Trim(reason.value)
  {
    if reason.Some? && Trim(reason.value) != [] then Trim(reason.value) else GuestCancellationReason
  }

  lemma GuestCancelFollowsLifecycle(bs: seq<Booking>, id: BookingId, caller: UserId)
    requires CancelCheck(bs, id, caller).None?
    ensures id < |bs| && bs[id].guest == caller && bs[id].status.HoldsDates()
    ensures LifecycleStep(bs[id].status, Cancelled)
  {
  }

  // PATCH /:id/payment

  datatype PaymentUpdate = PaymentUpdate(paymentId: string, paymentStatus: PaymentStatus,
                                         paymentMethod: Option<PaymentMethod>)

  /** The guards of the payment route: a payment id, the booking, its guest. */
  function PaymentCheck(bs: seq<Booking>, id: BookingId, caller: UserId, u: PaymentUpdate): Option<BookingError> {
    if Trim(u.paymentId) == [] then Some(InvalidInput)
    else if id >= |bs| then Some(BookingNotFound)
    else if bs[id].guest != caller then Some(Forbidden)
    else None
  }

  /** The fields the payment route assigns. */
  function ApplyPayment(b: Booking, u: PaymentUpdate): Booking {
    var paid := b.(paymentStatus := u.paymentStatus, paymentReference := Trim(u.paymentId),
                   paymentMethod := u.paymentMethod.GetOr(b.paymentMethod));
    if u.paymentStatus == Paid then paid.(status := Confirmed) else paid
  }

  /** A recorded payment keeps the stay, the party and the review; `paid`
      confirms the booking whatever its status, any other payment status
      leaves the status alone. */
  lemma PaymentEffect(b: Booking, u: PaymentUpdate)
    ensures var p := ApplyPayment(b, u);
      && p.paymentStatus == u.paymentStatus && p.paymentReference == Trim(u.paymentId)
      && (u.paymentMethod.None? ==> p.paymentMethod == b.paymentMethod)
      && (p.status == Confirmed <==> u.paymentStatus == Paid || b.status == Confirmed)
      && (u.paymentStatus != Paid ==> p.status == b.status)
      && p.listing == b.listing && p.checkIn == b.checkIn && p.checkOut == b.checkOut
      && p.guest == b.guest && p.host == b.host && p.review == b.review && p.totalPrice == b.totalPrice
  {
  }

  /** The payment route has no status guard: paying a cancelled booking
      revives it, which can break the availability invariant when its dates
      were taken by another booking after the cancellation. */
  lemma PaymentCanReviveOverlap(a: Booking, b: Booking, u: PaymentUpdate)
    requires a.listing == b.listing && a.checkIn < b.checkOut && b.checkIn < a.checkOut
    requires a.status == Cancelled && b.status.HoldsDates()
    requires u.paymentStatus == Paid && Trim(u.paymentId) != []
    ensures PaymentCheck([a, b], 0, a.guest, u).None?
    ensures NoActiveOverlap([a, b])
    ensures !NoActiveOverlap([a, b][0 := ApplyPayment(a, u)])
    ensures !LifecycleStep(a.status, ApplyPayment(a, u).status)
  {
    assert Clash([a, b][0 := ApplyPayment(a, u)][0], [a, b][0 := ApplyPayment(a, u)][1]);
  }

  // POST /:id/review

  /** The guards of the review route. */
  function ReviewCheck(bs: seq<Booking>, id: BookingId, caller: UserId, rating: int, comment: string): Option<BookingError> {
    if !(1 <= rating <= 5) || !(1 <= |Trim(comment)| <= MaxTextLength) then Some(InvalidInput)
    else if id >= |bs| then Some(BookingNotFound)
    else if bs[id].guest != caller then Some(Forbidden)
    else if bs[id].status != Completed then Some(NotCompleted)
    else if bs[id].review.Some? then Some(AlreadyReviewed)
    else None
  }

  /** A booking that counts towards the rating of listing `lid`. */
  predicate Reviewed(b: Booking, lid: ListingId) {
    b.listing == lid && b.status == Completed && b.review.Some?
  }

  /** The ratings of the completed, reviewed bookings of listing `lid`. */
  function ReviewedRatings(bs: seq<Booking>, lid: ListingId): (rs: seq<int>)
    ensures |rs| <= |bs|
  {
    if bs == [] then []
    else (if Reviewed(bs[0], lid) then [bs[0].review.value.rating] else []) + ReviewedRatings(bs[1..], lid)
  }

  /** There is one rating per completed, reviewed booking of the listing. */
  lemma {:induction false} ReviewedRatingsCount(bs: seq<Booking>, lid: ListingId)
    ensures |ReviewedRatings(bs, lid)| == |Filter(bs, (b: Booking) => Reviewed(b, lid))|
  {
    if bs != [] {
      ReviewedRatingsCount(bs[1..], lid);
    }
  }

  /** Every stored rating lies in 1..5. */
  lemma {:induction false} ReviewedRatingsInRange(bs: seq<Booking>, lid: ListingId)
    requires forall i :: 0 <= i < |bs| ==> ValidBooking(bs[i])
    ensures forall k :: 0 <= k < |ReviewedRatings(bs, lid)| ==> 1 <= ReviewedRatings(bs, lid)[k] <= 5
  {
    if bs != [] {
      ReviewedRatingsInRange(bs[1..], lid);
    }
  }

  /** A reviewed booking of the listing makes the rating list non-empty. */
  lemma {:induction false} ReviewedRatingsNonEmpty(bs: seq<Booking>, lid: ListingId, k: nat)
    requires k < |bs| && Reviewed(bs[k], lid)
    ensures |ReviewedRatings(bs, lid)| >= 1
  {
    if k > 0 {
      ReviewedRatingsNonEmpty(bs[1..], lid, k - 1);
    }
  }

  /** `Math.round(total / n * 10) / 10` in tenths: the mean rounded half up
      to one decimal. */
  function RoundedMeanTenths(total: int, n: int): (r: int)
    requires n > 0
    ensures 2 * n * r <= 20 * total + n < 2 * n * (r + 1)
  {
    var q := (20 * total + n) / (2 * n);
    assert 20 * total + n == 2 * n * q + (20 * total + n) % (2 * n);
    q
  }

  /** The rounded mean is the nearest tenth to the exact mean, halves
      rounding up. */
  lemma RoundedMeanIsNearest(total: int, n: int)
    requires n > 0
    ensures var r := RoundedMeanTenths(total, n) as real;
      var mean := (10 * total) as real / n as real;
      r - 0.5 <= mean < r + 0.5
  {
    var r := RoundedMeanTenths(total, n);
    var N := n as real;
    var T := (10 * total) as real;
    assert (r as real - 0.5) * (2.0 * N) <= 2.0 * T by {
      assert 2 * n * r <= 20 * total + n;
    }
    assert 2.0 * T < (r as real + 0.5) * (2.0 * N) by {
      assert 20 * total + n < 2 * n * (r + 1);
    }
    ScaleBounds(r as real - 0.5, r as real + 0.5, T, N);
  }

  lemma ScaleBounds(lo: real, hi: real, t: real, n: real)
    requires n > 0.0
    requires lo * (2.0 * n) <= 2.0 * t < hi * (2.0 * n)
    ensures lo <= t / n < hi
  {
    assert lo * n <= t < hi * n;
    assert t / n * n == t;
  }

  /** The mean of ratings in 1..5 rounds to 1.0..5.0 stars. */
  lemma RoundedMeanInRange(total: int, n: int)
    requires n > 0 && n <= total <= 5 * n
    ensures 10 <= RoundedMeanTenths(total, n) <= 50
  {
    var r := RoundedMeanTenths(total, n);
    assert 2 * n * r < 2 * n * 51;
    CancelFactor(2 * n, r, 51);
    assert 2 * n * 10 < 2 * n * (r + 1);
    CancelFactor(2 * n, 10, r + 1);
  }

  lemma CancelFactor(a: int, x: int, y: int)
    requires a > 0 && a * x < a * y
    ensures x < y
  {
  }

  /** The rating summary the review route stores for a non-empty list of
      ratings. */
  function RatingFor(rs: seq<int>): (r: Rating)
    requires |rs| > 0
    ensures r.count == |rs|
  {
    Rating(RoundedMeanTenths(Sum(rs), |rs|), |rs|)
  }

  /** The recomputed average of ratings in 1..5 stays within the schema's
      bounds. */
  lemma RatingForInRange(rs: seq<int>)
    requires |rs| > 0
    requires forall k :: 0 <= k < |rs| ==> 1 <= rs[k] <= 5
    ensures 10 <= RatingFor(rs).averageTenths <= MaxAverageTenths
  {
    SumBounds(rs, 1, 5);
    RoundedMeanInRange(Sum(rs), |rs|);
  }

  /** Storing the recomputed rating keeps every listing schema-valid. */
  lemma RecomputedRatingValid(ls: seq<Listing>, bs: seq<Booking>, lid: ListingId)
    requires forall i :: 0 <= i < |ls| ==> ValidListing(ls[i])
    requires forall i :: 0 <= i < |bs| ==> ValidBooking(bs[i])
    requires lid < |ls| && |ReviewedRatings(bs, lid)| > 0
    ensures var ls' := ls[lid := ls[lid].(rating := RatingFor(ReviewedRatings(bs, lid)))];
      forall i :: 0 <= i < |ls'| ==> ValidListing(ls'[i])
  {
    ReviewedRatingsInRange(bs, lid);
    RatingForInRange(ReviewedRatings(bs, lid));
  }

  // PUT /:id

  /** The body of the general update: both fields are optional. */
  datatype UpdateRequest = UpdateRequest(status: Option<Status>, cancellationReason: Option<string>)

  /** The guards of the general update. */
  function UpdateCheck(bs: seq<Booking>, id: BookingId, caller: UserId, req: UpdateRequest): Option<BookingError> {
    if (req.status.Some? && req.status.value != Confirmed && req.status.value != Cancelled)
       || (req.cancellationReason.Some? && |Trim(req.cancellationReason.value)| > MaxTextLength)
    then Some(InvalidInput)
    else if id >= |bs| then Some(BookingNotFound)
    else if bs[id].guest != caller && bs[id].host != caller then Some(Forbidden)
    else if bs[id].guest == caller && req.status != Some(Cancelled) then Some(GuestsCanOnlyCancel)
    else if bs[id].status == Completed then Some(CompletedImmutable)
    else if bs[id].status == Cancelled then Some(AlreadyCancelled)
    else None
  }

  /** The fields the general update assigns. A host request without a status
      assigns `undefined`, which the schema default turns back into pending. */
  function ApplyUpdate(b: Booking, req: UpdateRequest): Booking {
    var status := req.status.GetOr(Pending);
    if status == Cancelled && req.cancellationReason.Some? && Trim(req.cancellationReason.value) != []
    then b.(status := status, cancellationReason := Trim(req.cancellationReason.value))
    else b.(status := status)
  }

  /** An accepted update with a status is a lifecycle step of a pending or
      confirmed booking; a guest's update always cancels. */
  lemma UpdateFollowsLifecycle(bs: seq<Booking>, id: BookingId, caller: UserId, req: UpdateRequest)
    requires UpdateCheck(bs, id, caller, req).None?
    requires req.status.Some?
    ensures id < |bs| && bs[id].status.HoldsDates()
    ensures LifecycleStep(bs[id].status, ApplyUpdate(bs[id], req).status)
    ensures bs[id].guest == caller ==> ApplyUpdate(bs[id], req).status == Cancelled
  {
  }

  /** A host's update without a status reopens a confirmed booking as
      pending, a move outside the lifecycle. */
  lemma UpdateWithoutStatusReopens(b: Booking, caller: UserId)
    requires b.host == caller && b.guest != caller && b.status == Confirmed
    ensures UpdateCheck([b], 0, caller, UpdateRequest(None, None)).None?
    ensures ApplyUpdate(b, UpdateRequest(None, None)).status == Pending
    ensures !LifecycleStep(b.status, Pending)
  {
  }

  /** No route marks a booking completed. */
  lemma RoutesNeverComplete(b: Booking, status: Status, reason: Option<string>, u: PaymentUpdate,
                            req: UpdateRequest, rating: int, comment: string, now: int)
    requires status == Confirmed || status == Cancelled
    requires req.status.Some? ==> req.status.value == Confirmed || req.status.value == Cancelled
    requires b.status != Completed
    ensures b.(status := status).status != Completed
    ensures b.(status := Cancelled, cancellationReason := CancellationReason(reason)).status != Completed
    ensures ApplyPayment(b, u).status != Completed
    ensures ApplyUpdate(b, req).status != Completed
  {
  }

  // ---------------------------------------------------------------------------
  // Reads

  /** GET /:id: the booking, to its guest or its host only. */
  function View(bs: seq<Booking>, id: BookingId, caller: UserId): (r: Result<Booking, BookingError>)
    ensures r.Ok? <==> id < |bs| && (bs[id].guest == caller || bs[id].host == caller)
    ensures r.Ok? ==> r.value == bs[id]
    ensures r.Err? && id < |bs| ==> r.error == Forbidden
  {
    if id >= |bs| then Err(BookingNotFound)
    else if bs[id].guest != caller && bs[id].host != caller then Err(Forbidden)
    else Ok(bs[id])
  }

  /** GET /my-bookings: the caller's bookings as guest, newest first. */
  function GuestBookings(bs: seq<Booking>, caller: UserId): seq<Booking> {
    Reverse(Filter(bs, GuestIs(caller)))
  }

  function GuestIs(caller: UserId): Booking -> bool {
    (b: Booking) => b.guest == caller
  }

  function HostIs(caller: UserId): Booking -> bool {
    (b: Booking) => b.host == caller
  }

  /** GET /host-bookings: the bookings of the caller's listings, newest first. */
  function HostBookings(bs: seq<Booking>, caller: UserId): seq<Booking> {
    Reverse(Filter(bs, HostIs(caller)))
  }

  /** The guest list holds exactly the caller's bookings, and a booking
      created last comes first. */
  lemma GuestBookingsNewestFirst(bs: seq<Booking>, b: Booking, caller: UserId)
    ensures forall x :: x in GuestBookings(bs, caller) <==> x in bs && x.guest == caller
    ensures GuestBookings(bs + [b], caller) == (if b.guest == caller then [b] else []) + GuestBookings(bs, caller)
  {
    FilterConcat(bs, [b], GuestIs(caller));
    assert Filter([b], GuestIs(caller)) == if b.guest == caller then [b] else [];
    ReverseSnoc(Filter(bs, GuestIs(caller)), Filter([b], GuestIs(caller)));
  }

  /** The host list holds exactly the bookings the caller hosts, and a
      booking created last comes first. */
  lemma HostBookingsNewestFirst(bs: seq<Booking>, b: Booking, caller: UserId)
    ensures forall x :: x in HostBookings(bs, caller) <==> x in bs && x.host == caller
    ensures HostBookings(bs + [b], caller) == (if b.host == caller then [b] else []) + HostBookings(bs, caller)
  {
    FilterConcat(bs, [b], HostIs(caller));
    assert Filter([b], HostIs(caller)) == if b.host == caller then [b] else [];
    ReverseSnoc(Filter(bs, HostIs(caller)), Filter([b], HostIs(caller)));
  }

  // ---------------------------------------------------------------------------
  // The store

  /** What every save leaves behind: each document passes its schema and
      each booking refers to a listing. */
  ghost predicate StoreValid(ls: seq<Listing>, bs: seq<Booking>) {
    && (forall i :: 0 <= i < |ls| ==> ValidListing(ls[i]))
    && (forall i :: 0 <= i < |bs| ==> ValidBooking(bs[i]) && bs[i].listing < |ls|)
  }

  lemma StoreValidAppend(ls: seq<Listing>, bs: seq<Booking>, b: Booking)
    requires StoreValid(ls, bs) && ValidBooking(b) && b.listing < |ls|
    ensures StoreValid(ls, bs + [b])
  {
  }

  lemma StoreValidReplace(ls: seq<Listing>, bs: seq<Booking>, k: nat, b: Booking)
    requires StoreValid(ls, bs) && k < |bs| && ValidBooking(b) && b.listing == bs[k].listing
    ensures StoreValid(ls, bs[k := b])
  {
  }

  class BookingStore {
    /** Every booking, in creation order; a booking's id is its position. */
    var bookings: seq<Booking>
    /** The listing table; only the review route writes it (the rating). */
    var listings: seq<Listing>

    ghost predicate Valid()
      reads this
    {
      StoreValid(listings, bookings)
    }

    constructor (listings: seq<Listing>)
      requires forall i :: 0 <= i < |listings| ==> ValidListing(listings[i])
      ensures Valid() && this.bookings == [] && this.listings == listings
    {
      this.bookings := [];
      this.listings := listings;
    }

    /** POST /: a new pending booking at the end of the table, or the first
        guard that fails and no change. */
    method Create(req: CreateRequest, guest: UserId, today: int, isEmail: string -> bool)
      returns (r: Result<BookingId, BookingError>)
      requires Valid()
      modifies this`bookings
      ensures Valid()
      ensures CreateCheck(listings, old(bookings), req, today, isEmail).Some? ==>
        r == Err(CreateCheck(listings, old(bookings), req, today, isEmail).value) && bookings == old(bookings)
      ensures CreateCheck(listings, old(bookings), req, today, isEmail).None? ==>
        var b := BookingFor(listings[req.listing], req, guest);
        if ValidBooking(b) then r == Ok(|old(bookings)|) && bookings == old(bookings) + [b]
        else r == Err(ServerError) && bookings == old(bookings)
      ensures old(NoActiveOverlap(bookings)) ==> NoActiveOverlap(bookings)
    {
      var err := CreateCheck(listings, bookings, req, today, isEmail);
      if err.Some? {
        return Err(err.value);
      }
      r := Save(req, guest, today, isEmail);
    }

    /** `booking.save()` after the guards passed: the schema's check, then
        the new booking at the end of the table. */
    method Save(req: CreateRequest, guest: UserId, today: int, isEmail: string -> bool)
      returns (r: Result<BookingId, BookingError>)
      requires Valid() && CreateCheck(listings, bookings, req, today, isEmail).None?
      modifies this`bookings
      ensures Valid()
      ensures var b := BookingFor(listings[req.listing], req, guest);
        if ValidBooking(b) then r == Ok(|old(bookings)|) && bookings == old(bookings) + [b]
        else r == Err(ServerError) && bookings == old(bookings)
      ensures old(NoActiveOverlap(bookings)) ==> NoActiveOverlap(bookings)
    {
      var b := BookingFor(listings[req.listing], req, guest);
      if !ValidBooking(b) {
        return Err(ServerError);
      }
      AcceptedClashesWithNone(listings, bookings, req, today, isEmail, guest);
      var id := Insert(b);
      r := Ok(id);
    }

    /** `booking.save()` of a new booking: it goes to the end of the table
        and its position is its id. */
    method Insert(b: Booking) returns (id: BookingId)
      requires Valid() && ValidBooking(b) && b.listing < |listings|
      requires forall i :: 0 <= i < |bookings| ==> !Clash(bookings[i], b)
      modifies this`bookings
      ensures Valid() && id == |old(bookings)| && bookings == old(bookings) + [b]
      ensures old(NoActiveOverlap(bookings)) ==> NoActiveOverlap(bookings)
    {
      if NoActiveOverlap(bookings) {
        AppendPreservesNoOverlap(bookings, b);
      }
      StoreValidAppend(listings, bookings, b);
      id := |bookings|;
      bookings := bookings + [b];
    }

    /** PATCH /:id/status: the host confirms or declines a pending booking. */
    method UpdateStatus(id: BookingId, caller: UserId, status: Status) returns (r: Result<Booking, BookingError>)
      requires Valid()
      modifies this`bookings
      ensures Valid()
      ensures StatusCheck(old(bookings), id, caller, status).Some? ==>
        r == Err(StatusCheck(old(bookings), id, caller, status).value) && bookings == old(bookings)
      ensures StatusCheck(old(bookings), id, caller, status).None? ==>
        var b := old(bookings)[id].(status := status);
        r == Ok(b) && bookings == old(bookings)[id := b]
      ensures old(NoActiveOverlap(bookings)) ==> NoActiveOverlap(bookings)
    {
      var err := StatusCheck(bookings, id, caller, status);
      if err.Some? {
        return Err(err.value);
      }
      var b := bookings[id].(status := status);
      if NoActiveOverlap(bookings) {
        ReplacePreservesNoOverlap(bookings, id, b);
      }
      StoreValidReplace(listings, bookings, id, b);
      bookings := bookings[id := b];
      r := Ok(b);
    }

    /** PATCH /:id/cancel: the guest cancels a pending or confirmed booking. */
    method Cancel(id: BookingId, caller: UserId, reason: Option<string>) returns (r: Result<Booking, BookingError>)
      requires Valid()
      modifies this`bookings
      ensures Valid()
      ensures CancelCheck(old(bookings), id, caller).Some? ==>
        r == Err(CancelCheck(old(bookings), id, caller).value) && bookings == old(bookings)
      ensures CancelCheck(old(bookings), id, caller).None? ==>
        var b := old(bookings)[id].(status := Cancelled, cancellationReason := CancellationReason(reason));
        r == Ok(b) && bookings == old(bookings)[id := b]
      ensures old(NoActiveOverlap(bookings)) ==> NoActiveOverlap(bookings)
    {
      var err := CancelCheck(bookings, id, caller);
      if err.Some? {
        return Err(err.value);
      }
      var b := bookings[id].(status := Cancelled, cancellationReason := CancellationReason(reason));
      if NoActiveOverlap(bookings) {
        ReplacePreservesNoOverlap(bookings, id, b);
      }
      StoreValidReplace(listings, bookings, id, b);
      bookings := bookings[id := b];
      r := Ok(b);
    }

    /** PATCH /:id/payment: the guest records a payment. This operation does
        not keep the availability invariant (see `PaymentCanReviveOverlap`). */
    method RecordPayment(id: BookingId, caller: UserId, u: PaymentUpdate) returns (r: Result<Booking, BookingError>)
      requires Valid()
      modifies this`bookings
      ensures Valid()
      ensures PaymentCheck(old(bookings), id, caller, u).Some? ==>
        r == Err(PaymentCheck(old(bookings), id, caller, u).value) && bookings == old(bookings)
      ensures PaymentCheck(old(bookings), id, caller, u).None? ==>
        var b := ApplyPayment(old(bookings)[id], u);
        r == Ok(b) && bookings == old(bookings)[id := b]
    {
      var err := PaymentCheck(bookings, id, caller, u);
      if err.Some? {
        return Err(err.value);
      }
      var b := bookings[id];
      b := b.(paymentStatus := u.paymentStatus);
      if u.paymentMethod.Some? {
        b := b.(paymentMethod := u.paymentMethod.value);
      }
      b := b.(paymentReference := Trim(u.paymentId));
      if u.paymentStatus == Paid {
        b := b.(status := Confirmed);
      }
      StoreValidReplace(listings, bookings, id, b);
      bookings := bookings[id := b];
      r := Ok(b);
    }

    /** POST /:id/review: the guest reviews a completed booking, and the
        listing's rating becomes the rounded mean and the count of the
        ratings of its completed, reviewed bookings. */
    method AddReview(id: BookingId, caller: UserId, rating: int, comment: string, now: int)
      returns (r: Result<Booking, BookingError>)
      requires Valid()
      modifies this
      ensures Valid()
      ensures ReviewCheck(old(bookings), id, caller, rating, comment).Some? ==>
        && r == Err(ReviewCheck(old(bookings), id, caller, rating, comment).value)
        && bookings == old(bookings) && listings == old(listings)
      ensures ReviewCheck(old(bookings), id, caller, rating, comment).None? ==>
        var b := old(bookings)[id].(review := Some(Review(rating, Trim(comment), now)));
        && r == Ok(b) && bookings == old(bookings)[id := b]
        && |ReviewedRatings(bookings, b.listing)| > 0
        && listings == old(listings)[b.listing := old(listings)[b.listing].(rating := RatingFor(ReviewedRatings(bookings, b.listing)))]
      ensures old(NoActiveOverlap(bookings)) ==> NoActiveOverlap(bookings)
    {
      var err := ReviewCheck(bookings, id, caller, rating, comment);
      if err.Some? {
        return Err(err.value);
      }
      var b := SaveReview(id, Review(rating, Trim(comment), now));
      ReviewedRatingsNonEmpty(bookings, b.listing, id);
      RefreshRating(b.listing);
      r := Ok(b);
    }

    /** `booking.review = {...}; booking.save()`: the review is stored on the
        booking and nothing else changes. */
    method SaveReview(id: BookingId, review: Review) returns (b: Booking)
      requires Valid() && id < |bookings| && 1 <= review.rating <= 5
      modifies this`bookings
      ensures Valid()
      ensures b == old(bookings)[id].(review := Some(review)) && bookings == old(bookings)[id := b]
      ensures old(NoActiveOverlap(bookings)) ==> NoActiveOverlap(bookings)
    {
      b := bookings[id].(review := Some(review));
      if NoActiveOverlap(bookings) {
        ReplacePreservesNoOverlap(bookings, id, b);
      }
      StoreValidReplace(listings, bookings, id, b);
      bookings := bookings[id := b];
    }

    /** The rating recomputation of the review route: when the listing exists
        and has reviewed bookings, its rating becomes their rounded mean and
        count; otherwise nothing changes. */
    method RefreshRating(lid: ListingId)
      requires Valid()
      modifies this`listings
      ensures Valid()
      ensures if lid < |old(listings)| && |ReviewedRatings(bookings, lid)| > 0
        then listings == old(listings)[lid := old(listings)[lid].(rating := RatingFor(ReviewedRatings(bookings, lid)))]
        else listings == old(listings)
    {
      if lid < |listings| {
        var rs := ReviewedRatings(bookings, lid);
        if |rs| > 0 {
          RecomputedRatingValid(listings, bookings, lid);
          listings := listings[lid := listings[lid].(rating := RatingFor(rs))];
        }
      }
    }

    /** PUT /:id: a guest may cancel, a host may confirm or cancel, any
        booking that is neither completed nor cancelled. */
    method Update(id: BookingId, caller: UserId, req: UpdateRequest) returns (r: Result<Booking, BookingError>)
      requires Valid()
      modifies this`bookings
      ensures Valid()
      ensures UpdateCheck(old(bookings), id, caller, req).Some? ==>
        r == Err(UpdateCheck(old(bookings), id, caller, req).value) && bookings == old(bookings)
      ensures UpdateCheck(old(bookings), id, caller, req).None? ==>
        var b := ApplyUpdate(old(bookings)[id], req);
        r == Ok(b) && bookings == old(bookings)[id := b]
      ensures old(NoActiveOverlap(bookings)) ==> NoActiveOverlap(bookings)
    {
      var err := UpdateCheck(bookings, id, caller, req);
      if err.Some? {
        return Err(err.value);
      }
      var b := ApplyUpdate(bookings[id], req);
      if NoActiveOverlap(bookings) {
        ReplacePreservesNoOverlap(bookings, id, b);
      }
      StoreValidReplace(listings, bookings, id, b);
      bookings := bookings[id := b];
      r := Ok(b);
    }
  }
}
