/** The booking dialog of src/components/booking/BookingModal.tsx: the
    nights and total it displays, the form check it runs before sending a
    booking request, the phone field's character filter, and the move from
    the booking step to the payment step. Dates are integer milliseconds: a
    picked date is that day's UTC midnight, as `new Date("YYYY-MM-DD")`
    parses it, and `today` is the client's local midnight; an empty date
    field is `None`. */
module BookingModal {
  import opened Common
  import opened BookingModel
  import opened ListingModel
  import BookingRoutes
  import AuthContext

  datatype ModalStep = BookingStep | PaymentStep

  datatype BookingForm = BookingForm(
    checkIn: Option<int>,
    checkOut: Option<int>,
    guests: int,
    specialRequests: string,
    guestDetails: GuestDetails)

  /** The messages `validateForm` can set, in the order it checks them. */
  datatype FormError =
    | MissingDates
    | CheckInNotFuture
    | CheckOutNotAfterCheckIn
    | BelowMinStay(minStay: int)
    | AboveMaxStay(maxStay: int)
    | OverCapacity(capacity: int)
    | MissingGuestDetails

  datatype ModalError =
    | Invalid(reason: FormError)
      /** The create request failed; the server's message or the fallback. */
    | RequestFailed(message: string)
      /** The payment went through but recording it on the booking failed. */
    | PaymentNotRecorded

  const SubmitFallback: string := "Failed to create booking. Please try again."

  // ---------------------------------------------------------------------------
  // Nights and total

  /** `getNights`: the nights between the two dates, rounded up, and 0 when a
      date is missing or the stay is not positive. */
  function ModalNights(checkIn: Option<int>, checkOut: Option<int>): (n: nat)
    ensures n > 0 <==> checkIn.Some? && checkOut.Some? && checkIn.value < checkOut.value
    ensures n > 0 ==> (n - 1) * DayMs < checkOut.value - checkIn.value <= n * DayMs
  {
    if checkIn.None? || checkOut.None? then 0
    else
      var n := CeilDiv(checkOut.value - checkIn.value, DayMs);
      CeilDivPositive(checkOut.value - checkIn.value, DayMs);
      if n > 0 then n else 0
  }

  /** A quotient rounded up is positive exactly when the dividend is. */
  lemma CeilDivPositive(x: int, d: int)
    requires d > 0
    ensures CeilDiv(x, d) > 0 <==> x > 0
  {
    var r := CeilDiv(x, d);
    if x > 0 && r <= 0 {
      MulNonPositive(r, d);
    }
    if x <= 0 && r > 0 {
      MulNonNegative(r - 1, d);
    }
  }

  lemma MulNonPositive(r: int, d: int)
    requires r <= 0 && d > 0
    ensures r * d <= 0
  {
  }

  lemma MulNonNegative(r: int, d: int)
    requires r >= 0 && d > 0
    ensures r * d >= 0
  {
  }

  /** `calculateTotal`: the nightly price times the nights shown, 0 without
      a positive stay. */
  function ModalTotal(price: int, checkIn: Option<int>, checkOut: Option<int>): (t: int)
    ensures t == price * ModalNights(checkIn, checkOut)
    ensures ModalNights(checkIn, checkOut) == 0 ==> t == 0
  {
    if checkIn.None? || checkOut.None? then 0
    else
      var nights := CeilDiv(checkOut.value - checkIn.value, DayMs);
      if nights <= 0 then 0 else price * nights
  }

  // ---------------------------------------------------------------------------
  // The form check

  /** `validateForm`'s checks in order; `None` when the form may be sent.
      `today` is the client's local midnight. */
  function FormCheck(f: BookingForm, l: Listing, today: int): Option<FormError> {
    if f.checkIn.None? || f.checkOut.None? then Some(MissingDates)
    else if f.checkIn.value < today then Some(CheckInNotFuture)
    else if f.checkOut.value <= f.checkIn.value then Some(CheckOutNotAfterCheckIn)
    else if ModalNights(f.checkIn, f.checkOut) < l.rules.minStay then Some(BelowMinStay(l.rules.minStay))
    else if ModalNights(f.checkIn, f.checkOut) > l.rules.maxStay then Some(AboveMaxStay(l.rules.maxStay))
    else if f.guests > l.capacity.guests then Some(OverCapacity(l.capacity.guests))
    else if f.guestDetails.name == [] || f.guestDetails.email == [] || f.guestDetails.phone == []
    then Some(MissingGuestDetails)
    else None
  }

  /** The body of the create request the dialog sends for listing `lid`. */
  function RequestOf(f: BookingForm, lid: ListingId): BookingRoutes.CreateRequest
    requires f.checkIn.Some? && f.checkOut.Some?
  {
    BookingRoutes.CreateRequest(lid, f.checkIn.value, f.checkOut.value, f.guests, f.guestDetails,
                                Some(f.specialRequests))
  }

  /** The dialog counts the nights as the server does once the stay is
      positive. */
  lemma NightsAgreeWithServer(f: BookingForm, lid: ListingId)
    requires f.checkIn.Some? && f.checkOut.Some? && f.checkIn.value < f.checkOut.value
    ensures ModalNights(f.checkIn, f.checkOut) == BookingRoutes.RequestedNights(RequestOf(f, lid))
  {
    var n := ModalNights(f.checkIn, f.checkOut);
    CeilDivUnique(f.checkOut.value - f.checkIn.value, DayMs, n);
  }

  /** A form that passes the dialog's check, for the same listing and the
      same midnight, passes the server's date, stay-window and capacity
      guards; with a body the server's validators accept, an active listing
      and free dates the server creates the booking, and charges the total
      the dialog displayed. */
  lemma FormAgreesWithServer(listings: seq<Listing>, bs: seq<Booking>, f: BookingForm, lid: ListingId,
                             today: int, isEmail: string -> bool, guest: UserId)
    requires lid < |listings| && FormCheck(f, listings[lid], today).None?
    ensures f.checkIn.Some? && f.checkOut.Some?
    ensures var req := RequestOf(f, lid);
      && today <= req.checkIn < req.checkOut
      && listings[lid].rules.minStay <= BookingRoutes.RequestedNights(req) <= listings[lid].rules.maxStay
      && req.guests <= listings[lid].capacity.guests
      && ModalTotal(listings[lid].price, f.checkIn, f.checkOut)
         == BookingRoutes.BookingFor(listings[lid], req, guest).totalPrice
      && (BookingRoutes.CreateBodyValid(req, isEmail) && listings[lid].isActive
          && !BookingRoutes.HasConflict(bs, lid, req.checkIn, req.checkOut)
          ==> BookingRoutes.CreateCheck(listings, bs, req, today, isEmail).None?)
  {
    NightsAgreeWithServer(f, lid);
    var req := RequestOf(f, lid);
    BookingRoutes.StayTotalIsProduct(listings[lid].price, BookingRoutes.RequestedNights(req));
  }

  /** The dialog only asks for non-empty guest details, while the server
      trims them first: a name of blanks passes the dialog and is refused by
      the server's validators. */
  lemma BlankNamePassesOnlyTheDialog(f: BookingForm, l: Listing, lid: ListingId, today: int, isEmail: string -> bool)
    requires FormCheck(f, l, today).None? && f.guestDetails.name == " "
    ensures f.checkIn.Some? && f.checkOut.Some?
    ensures !BookingRoutes.CreateBodyValid(RequestOf(f, lid), isEmail)
  {
    assert TrimStart(" ") == [];
  }

  // ---------------------------------------------------------------------------
  // The phone field

  /** The characters the phone field keeps: digits, white space, parentheses,
      the dash and the plus sign. */
  predicate IsPhoneChar(c: char) {
    ('0' <= c <= '9') || IsSpace(c) || c == '(' || c == ')' || c == '-' || c == '+'
  }

  /** `value.replace(/[^0-9\s()\-+]/g, '')`. */
  function CleanPhone(value: string): (r: string)
    ensures forall i :: 0 <= i < |r| ==> IsPhoneChar(r[i])
    ensures IsSubsequence(r, value)
  {
    FilterIsSubsequence(value, IsPhoneChar);
    Filter(value, IsPhoneChar)
  }

  /** Cleaning keeps every phone character as often as it was typed and
      drops all the others, and cleaning twice is cleaning once. */
  lemma CleanPhoneLaws(value: string, c: char)
    ensures multiset(CleanPhone(value))[c] == if IsPhoneChar(c) then multiset(value)[c] else 0
    ensures CleanPhone(CleanPhone(value)) == CleanPhone(value)
  {
    FilterMultiset(value, IsPhoneChar, c);
    FilterIdempotent(value, IsPhoneChar);
  }

  /** `parseInt(value) || 1` for the guest count: a value that does not parse
      or parses to 0 becomes 1. */
  function GuestsInput(parsed: Option<int>): (g: int)
    ensures g != 0
    ensures parsed.Some? && parsed.value != 0 ==> g == parsed.value
  {
    if parsed.Some? && parsed.value != 0 then parsed.value else 1
  }

  /** The payment update the dialog sends after a successful payment. */
  function PaymentUpdateFor(paymentId: string): BookingRoutes.PaymentUpdate {
    BookingRoutes.PaymentUpdate(paymentId, Paid, Some(CreditCard))
  }

  /** Recording the dialog's payment marks the booking paid by credit card
      with the payment's reference, and confirms it. */
  lemma PaymentConfirmsBooking(b: Booking, paymentId: string)
    ensures var p := BookingRoutes.ApplyPayment(b, PaymentUpdateFor(paymentId));
      && p.status == Confirmed && p.paymentStatus == Paid && p.paymentMethod == CreditCard
      && p.paymentReference == Trim(paymentId)
  {
    BookingRoutes.PaymentEffect(b, PaymentUpdateFor(paymentId));
  }

  // ---------------------------------------------------------------------------
  // The dialog's state

  class Modal {
    /** The listing the dialog books, and its id. */
    const listing: Listing
    const listingId: ListingId
    var step: ModalStep
    var bookingId: Option<BookingId>
    var form: BookingForm
    var submitting: bool
    var error: Option<ModalError>

    /** The payment step always knows the booking it pays for. */
    ghost predicate Valid()
      reads this
    {
      step == PaymentStep ==> bookingId.Some?
    }

    /** The dialog opens on the booking step with empty dates, one guest, and
        the signed-in user's name and e-mail. */
    constructor (listing: Listing, listingId: ListingId, user: Option<AuthContext.User>)
      ensures Valid() && step == BookingStep && bookingId.None? && !submitting && error.None?
      ensures this.listing == listing && this.listingId == listingId
      ensures form.checkIn.None? && form.checkOut.None? && form.guests == 1 && form.specialRequests == []
      ensures form.guestDetails.name == (if user.Some? then user.value.name else "")
      ensures form.guestDetails.email == (if user.Some? then user.value.email else "")
      ensures form.guestDetails.phone == []
    {
      this.listing := listing;
      this.listingId := listingId;
      step := BookingStep;
      bookingId := None;
      var name := if user.Some? then user.value.name else "";
      var email := if user.Some? then user.value.email else "";
      form := BookingForm(None, None, 1, "", GuestDetails(name, email, ""));
      submitting := false;
      error := None;
    }

    /** Typing in the phone field stores the cleaned value and clears the
        error. */
    method SetPhone(value: string)
      modifies this`form, this`error
      ensures form == old(form).(guestDetails := old(form).guestDetails.(phone := CleanPhone(value)))
      ensures error.None?
    {
      form := form.(guestDetails := form.guestDetails.(phone := CleanPhone(value)));
      error := None;
    }

    /** `validateForm`: runs the checks in order, sets the first failure as
        the error and answers whether the form may be sent. */
    method ValidateForm(today: int) returns (ok: bool)
      modifies this`error
      ensures ok <==> FormCheck(form, listing, today).None?
      ensures !ok ==> error == Some(Invalid(FormCheck(form, listing, today).value))
      ensures ok ==> error == old(error)
    {
      if form.checkIn.None? || form.checkOut.None? {
        error := Some(Invalid(MissingDates));
        return false;
      }
      if form.checkIn.value < today {
        error := Some(Invalid(CheckInNotFuture));
        return false;
      }
      if form.checkOut.value <= form.checkIn.value {
        error := Some(Invalid(CheckOutNotAfterCheckIn));
        return false;
      }
      var nights := ModalNights(form.checkIn, form.checkOut);
      if nights < listing.rules.minStay {
        error := Some(Invalid(BelowMinStay(listing.rules.minStay)));
        return false;
      }
      if nights > listing.rules.maxStay {
        error := Some(Invalid(AboveMaxStay(listing.rules.maxStay)));
        return false;
      }
      if form.guests > listing.capacity.guests {
        error := Some(Invalid(OverCapacity(listing.capacity.guests)));
        return false;
      }
      if form.guestDetails.name == [] || form.guestDetails.email == [] || form.guestDetails.phone == [] {
        error := Some(Invalid(MissingGuestDetails));
        return false;
      }
      return true;
    }

    /** `handleSubmit`: a form that fails its check sends nothing; otherwise
        the create request is sent (`sent`), and the dialog moves to the
        payment step with the new booking's id when the server answered
        with one (`response`), or shows the server's message. */
    method HandleSubmit(today: int, response: Result<BookingId, Option<string>>)
      returns (sent: Option<BookingRoutes.CreateRequest>)
      requires Valid()
      modifies this`error, this`step, this`bookingId, this`submitting
      ensures Valid()
      ensures sent.Some? <==> FormCheck(form, listing, today).None?
      ensures sent.Some? ==> form.checkIn.Some? && form.checkOut.Some? && sent.value == RequestOf(form, listingId)
      ensures sent.None? ==>
        && error == Some(Invalid(FormCheck(form, listing, today).value))
        && step == old(step) && bookingId == old(bookingId) && submitting == old(submitting)
      ensures sent.Some? && response.Ok? ==>
        step == PaymentStep && bookingId == Some(response.value) && !submitting && error == old(error)
      ensures sent.Some? && response.Err? ==>
        && step == old(step) && bookingId == old(bookingId) && !submitting
        && error == Some(RequestFailed(AuthContext.FailureMessage(response.error, SubmitFallback)))
    {
      var ok := ValidateForm(today);
      if !ok {
        return None;
      }
      submitting := true;
      sent := Some(RequestOf(form, listingId));
      match response {
        case Ok(id) =>
          bookingId := Some(id);
          step := PaymentStep;
        case Err(m) =>
          error := Some(RequestFailed(AuthContext.FailureMessage(m, SubmitFallback)));
      }
      submitting := false;
    }

    /** `handlePaymentSuccess`: records the payment on the booking (`sent`);
        when the server refuses the update (`recorded` false) the dialog
        says so. */
    method HandlePaymentSuccess(paymentId: string, recorded: bool)
      returns (sent: Option<(BookingId, BookingRoutes.PaymentUpdate)>)
      requires Valid() && step == PaymentStep
      modifies this`error
      ensures sent == Some((bookingId.value, PaymentUpdateFor(paymentId)))
      ensures recorded ==> error == old(error)
      ensures !recorded ==> error == Some(PaymentNotRecorded)
    {
      sent := Some((bookingId.value, PaymentUpdateFor(paymentId)));
      if !recorded {
        error := Some(PaymentNotRecorded);
      }
    }
  }
}
