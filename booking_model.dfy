/** The booking record of server/src/models/Booking.js: its fields, the
    enumerations and defaults of the schema, the bounds the schema enforces on
    every save, and the `nights` virtual. Instants are integer milliseconds and
    amounts are integer cents. */
module BookingModel {
  import opened Common

  /** Index of a listing in the listing table. */
  type ListingId = nat
  /** Index of a booking in the booking table. */
  type BookingId = nat

  /** Milliseconds in a day: 1000 * 60 * 60 * 24. */
  const DayMs: int := 86_400_000

  datatype Status = Pending | Confirmed | Cancelled | Completed {
    /** A pending or confirmed booking holds its dates against other requests. */
    predicate HoldsDates() {
      this == Pending || this == Confirmed
    }
  }

  datatype PaymentStatus = PaymentPending | Paid | Refunded | Failed

  datatype PaymentMethod = CreditCard | PayPal | BankTransfer

  datatype GuestDetails = GuestDetails(name: string, email: string, phone: string)

  datatype Review = Review(rating: int, comment: string, createdAt: int)

  datatype Booking = Booking(
    listing: ListingId,
    guest: UserId,
    host: UserId,
    checkIn: int,
    checkOut: int,
    guests: int,
    totalPrice: int,
    status: Status,
    paymentStatus: PaymentStatus,
    paymentMethod: PaymentMethod,
    paymentReference: string,
    specialRequests: string,
    guestDetails: GuestDetails,
    cancellationReason: string,
    review: Option<Review>)

  /** What the schema checks on every save: the `min` bounds of `guests` and
      `totalPrice`, the 1..5 range of a review rating, and the `required`
      guest details (a required string may not be empty). */
  predicate ValidBooking(b: Booking) {
    && b.guests >= 1
    && b.totalPrice >= 0
    && (b.review.Some? ==> 1 <= b.review.value.rating <= 5)
    && b.guestDetails.name != [] && b.guestDetails.email != [] && b.guestDetails.phone != []
  }

  /** A new booking document: the given fields plus the schema defaults for
      everything else. */
  function NewBooking(listing: ListingId, guest: UserId, host: UserId, checkIn: int, checkOut: int,
                      guests: int, totalPrice: int, details: GuestDetails, specialRequests: string): (b: Booking)
    ensures b.status == Pending && b.paymentStatus == PaymentPending && b.paymentMethod == CreditCard
    ensures b.paymentReference == [] && b.cancellationReason == [] && b.review.None?
    ensures ValidBooking(b) <==>
              guests >= 1 && totalPrice >= 0 && details.name != [] && details.email != [] && details.phone != []
  {
    Booking(listing, guest, host, checkIn, checkOut, guests, totalPrice,
            Pending, PaymentPending, CreditCard, "", specialRequests, details, "", None)
  }

  function Abs(x: int): int {
    if x < 0 then -x else x
  }

  /** The `nights` virtual: the length of the stay in days, rounded up. */
  function StayNights(checkIn: int, checkOut: int): (n: int)
    ensures n >= 0
    ensures (n - 1) * DayMs < Abs(checkOut - checkIn) <= n * DayMs
  {
    CeilDiv(Abs(checkOut - checkIn), DayMs)
  }

  function Nights(b: Booking): int {
    StayNights(b.checkIn, b.checkOut)
  }

  /** The virtual does not depend on which of the two dates comes first. */
  lemma NightsSymmetric(a: int, b: int)
    ensures StayNights(a, b) == StayNights(b, a)
  {
  }

  /** A stay is zero nights exactly when the two instants coincide, and a
      stay of any positive length counts at least one night. */
  lemma NightsZeroIff(a: int, b: int)
    ensures StayNights(a, b) == 0 <==> a == b
    ensures a != b ==> StayNights(a, b) >= 1
  {
  }

  /** One more day of stay adds exactly one night. */
  lemma NightsShift(checkIn: int, checkOut: int)
    requires checkIn <= checkOut
    ensures StayNights(checkIn, checkOut + DayMs) == StayNights(checkIn, checkOut) + 1
  {
    var n := StayNights(checkIn, checkOut);
    assert (n + 1 - 1) * DayMs < checkOut + DayMs - checkIn <= (n + 1) * DayMs;
    CeilDivUnique(checkOut + DayMs - checkIn, DayMs, n + 1);
  }
}
