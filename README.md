# Stay-Finder in Dafny

This project models the core of Stay-Finder, a rental marketplace. Hosts publish
listings. Guests search them, book stays, pay and review. Hosts confirm or
decline bookings from a dashboard.

The model covers two layers.

- **Server.** It models the Mongoose schemas of bookings and listings
  (`booking_model.dfy`, `listing_model.dfy`) and the Express routes that read
  and change them (`booking_routes.dfy`, `listing_routes.dfy`).
  - Each route is a guard function that returns the first error, as the route
    does, plus a method on a store class whose fields are the collections.
  - The booking store keeps the availability invariant: no two pending or
    confirmed bookings of one listing overlap. Every route preserves it except
    the payment route, and a counterexample lemma shows how that route breaks it.
- **Client.** It models the React state machines and display rules:
  - the authentication reducer (`auth_context.dfy`);
  - the route guard (`protected_route.dfy`);
  - the listing card and the favourites grid (`listing_card.dfy`, `listing_grid.dfy`);
  - the booking dialog (`booking_modal.dfy`);
  - the guest's booking list (`my_bookings.dfy`);
  - the host dashboard (`host_dashboard.dfy`);
  - the listing-creation wizard (`create_listing.dfy`).

  Wherever a page decides on its own whether to offer an action, or validates
  a form before sending it, a lemma sets that decision against the server
  route it calls.

Units and representations:
- Dates are integers in milliseconds. One night is `DayMs = 86_400_000`.
- "Today" and the current time are parameters.
- Prices are integers, in the smallest currency unit.
- A listing's rating average is in tenths of a star (0..50).
- Bathrooms are counted in half-units.
- The dashboard's mean rating is an exact `real`.
- Collections are sequences in creation order, and a document's id is its
  position in the sequence.
- The library calls the code relies on are function parameters:
  `isEmail` (express-validator) and `validatePostal` (the countries utility).

The source deviates from its own design intent in four places. Each is kept
as written and exhibited by a lemma:
- A payment can revive a cancelled booking (`BookingRoutes.PaymentCanReviveOverlap`).
- A host's update without a status reopens a booking (`BookingRoutes.UpdateWithoutStatusReopens`).
- The search's three-case date test needs ordered dates (`ListingRoutes.ThreeCaseNeedsOrderedDates`).
- Signing out restores the initial state with its loading flag set, so guarded pages show the spinner instead of redirecting to login (`ProtectedRoute.LogoutLeavesSpinner`). The guard and the pages import `src/contexts/AuthContext`; it is taken to be the same context as `client/src/contexts/AuthContext.tsx`, the one modelled here.

## Model

| member | source | states |
|---|---|---|
| BookingModel.NewBooking | server/src/models/Booking.js:37-77 | a new booking is pending, payment pending, by credit card, with no reference, reason or review; it satisfies the schema iff guests ≥ 1, price ≥ 0 and the text fields fit |
| BookingModel.ValidBooking | server/src/models/Booking.js:3-94 | the schema's checks on save: at least one guest, a non-negative price, a review rating in 1..5, the required guest details non-empty; NewBooking states when a new booking meets it |
| BookingModel.StayNights | server/src/models/Booking.js:99-102 | the `nights` virtual is the least n ≥ 0 with \|checkOut − checkIn\| ≤ n days |
| BookingModel.NightsSymmetric | server/src/models/Booking.js:99-102 | the virtual uses the absolute difference, so swapping the dates gives the same nights |
| BookingModel.NightsZeroIff | server/src/models/Booking.js:99-102 | zero nights exactly when the two dates coincide, otherwise at least one |
| BookingModel.NightsShift | server/src/models/Booking.js:99-102 | moving the check-out one day later adds exactly one night |
| ListingModel.AppendStaysValid | server/src/models/Listing.js:3-180 | adding a schema-valid listing to a valid collection keeps every listing valid |
| ListingModel.ReplaceStaysValid | server/src/models/Listing.js:3-180 | replacing one listing by a schema-valid one keeps every listing valid |
| ListingModel.NewListing | server/src/models/Listing.js:57-66 | a new listing belongs to its host and keeps each image's url, in order |
| ListingModel.NewListingDefaults | server/src/models/Listing.js:48-167 | omitted fields take the schema defaults: USD, active, rating 0 over 0 reviews, 3 PM / 11 AM, 1..30 nights, empty alt texts |
| ListingModel.SchemaAllowsEmptyStayWindow | server/src/models/Listing.js:129-146 | the schema bounds minStay and maxStay separately, so a listing with minStay 31 > maxStay 30 is valid |
| ListingModel.ValidListing | server/src/models/Listing.js:3-180 | the schema's checks on save: required strings, the type and amenity enumerations, the price, capacity and rating bounds, image urls; kept by AppendStaysValid and ReplaceStaysValid |
| ListingModel.IsPropertyType | server/src/models/Listing.js:13-17 | the seven values of the `type` enumeration |
| ListingModel.IsAmenity | server/src/models/Listing.js:67-107 | the values of the `amenities` enumeration |
| BookingRoutes.BackToBackStaysDoNotBlock | server/src/routes/bookings.js:70-84 | a stay that ends on the requested check-in (or starts on its check-out) is not a conflict |
| BookingRoutes.Blocks | server/src/routes/bookings.js:70-80 | one booking matches the conflict query: same listing, pending or confirmed, and `checkIn < out && checkOut > in`; characterised by BackToBackStaysDoNotBlock and InactiveBookingsNeverBlock |
| BookingRoutes.HasConflict | server/src/routes/bookings.js:70-84 | the conflict query finds some booking; CreateAcceptsExactly and AcceptedClashesWithNone state its role |
| BookingRoutes.CreateBodyValid | server/src/routes/bookings.js:10-17 | the create route's validator chain: guests ≥ 1, a trimmed non-empty name and phone, and an e-mail the library accepts |
| BookingRoutes.CreateCheck | server/src/routes/bookings.js:10-84 | the create guards in the route's order, each with its error; CreateAcceptsExactly states when none fails |
| BookingRoutes.BookingFor | server/src/routes/bookings.js:86-100 | the document the route saves; AcceptedBooking and NightsOfRequest state its fields |
| BookingRoutes.InactiveBookingsNeverBlock | server/src/routes/bookings.js:70-84 | a cancelled or completed booking changes no answer of the conflict query |
| BookingRoutes.AppendPreservesNoOverlap | server/src/routes/bookings.js:70-102 | adding a booking that clashes with none keeps the no-overlap invariant |
| BookingRoutes.ReplacePreservesNoOverlap | server/src/routes/bookings.js:180-256 | replacing a booking with one on the same dates that holds them only if the old one did keeps the invariant |
| BookingRoutes.CreateAcceptsExactly | server/src/routes/bookings.js:10-84 | the create guards pass iff the body is valid, the listing exists and is active, check-in is not past, check-out is later, the nights fit the stay window, the guests fit capacity and nothing conflicts |
| BookingRoutes.AcceptedBooking | server/src/routes/bookings.js:86-102 | an accepted request yields a pending booking of the listing's host priced at nightly price × nights, with `nights` equal to the priced nights |
| BookingRoutes.NightsOfRequest | server/src/routes/bookings.js:47-61 | the `nights` virtual of the saved booking equals the ceiling the route priced, and is at least 1 |
| BookingRoutes.StayTotalIsProduct | server/src/routes/bookings.js:86-87 | the model's repeated-addition total equals the route's `price * nights` |
| BookingRoutes.AcceptedClashesWithNone | server/src/routes/bookings.js:70-84 | a booking the guards accept clashes with no stored booking of the listing |
| BookingRoutes.CreatePreservesNoOverlap | server/src/routes/bookings.js:70-102 | a booking the guards accept clashes with no stored booking, so saving it keeps the invariant |
| BookingRoutes.HostDecisionFollowsLifecycle | server/src/routes/bookings.js:180-221 | a status change passes only for the host of a pending booking, to confirmed or cancelled |
| BookingRoutes.StatusCheck | server/src/routes/bookings.js:180-204 | the status route's guards in order: a confirmed or cancelled target, the booking, its host, a pending booking; HostDecisionFollowsLifecycle states when they pass |
| BookingRoutes.CancellationReason | server/src/routes/bookings.js:245 | the stored reason is the trimmed reason, or "Cancelled by guest" when none or a blank one is given; it is never empty |
| BookingRoutes.GuestCancelFollowsLifecycle | server/src/routes/bookings.js:225-256 | a cancellation passes only for the guest of a pending or confirmed booking, a move the lifecycle allows |
| BookingRoutes.CancelCheck | server/src/routes/bookings.js:229-243 | the cancel route's guards in order: the booking, its guest, a pending or confirmed booking; GuestCancelFollowsLifecycle states when they pass |
| BookingRoutes.PaymentCheck | server/src/routes/bookings.js:260-286 | the payment route's guards in order: a non-blank payment id, the booking, its guest, and no status check |
| BookingRoutes.ApplyPayment | server/src/routes/bookings.js:288-298 | the fields the payment route assigns; PaymentEffect states them |
| BookingRoutes.PaymentEffect | server/src/routes/bookings.js:289-299 | a payment keeps the stay, the parties and the review; it sets status, reference and method, and confirms the booking exactly when paid |
| BookingRoutes.PaymentCanReviveOverlap | server/src/routes/bookings.js:260-312 | the route lacks a status guard, so paying a cancelled booking confirms it and breaks the no-overlap invariant |
| BookingRoutes.ReviewedRatings | server/src/routes/bookings.js:362-383 | the ratings the recomputation averages, at most one per booking |
| BookingRoutes.ReviewCheck | server/src/routes/bookings.js:316-351 | the review route's guards in order: rating 1..5 and a 1..500-character trimmed comment, the booking, its guest, completed, not yet reviewed; ReviewButtonMatchesServer states when they pass |
| BookingRoutes.ReviewedRatingsCount | server/src/routes/bookings.js:362-383 | there is exactly one rating per completed, reviewed booking of the listing |
| BookingRoutes.ReviewedRatingsInRange | server/src/routes/bookings.js:362-383 | every rating averaged lies in 1..5 |
| BookingRoutes.ReviewedRatingsNonEmpty | server/src/routes/bookings.js:353-383 | once the review is stored, the listing has at least one rating to average |
| BookingRoutes.RoundedMeanTenths | server/src/routes/bookings.js:373-378 | the stored average is the mean in tenths, rounded half up |
| BookingRoutes.RoundedMeanIsNearest | server/src/routes/bookings.js:373-378 | the stored average is within half a tenth of the exact mean |
| BookingRoutes.RoundedMeanInRange | server/src/routes/bookings.js:373-378 | the mean of ratings in 1..5 rounds to 1.0..5.0 stars |
| BookingRoutes.RatingFor | server/src/routes/bookings.js:373-379 | the rating summary counts one review per rating |
| BookingRoutes.RatingForInRange | server/src/routes/bookings.js:373-379 | the recomputed average lies between 1.0 stars and the schema maximum of 5 |
| BookingRoutes.RecomputedRatingValid | server/src/routes/bookings.js:362-383 | storing the recomputed rating keeps every listing schema-valid |
| BookingRoutes.UpdateFollowsLifecycle | server/src/routes/bookings.js:399-456 | the general update passes only for the guest or host, and a guest's update always cancels |
| BookingRoutes.UpdateCheck | server/src/routes/bookings.js:399-439 | the general update's guards in order; UpdateFollowsLifecycle states when they pass |
| BookingRoutes.ApplyUpdate | server/src/routes/bookings.js:441-445 | the status is assigned and a non-blank reason is stored only on cancellation; UpdateWithoutStatusReopens exhibits the status-less case |
| BookingRoutes.UpdateWithoutStatusReopens | server/src/routes/bookings.js:415-445 | a host's update without a status passes and turns a confirmed booking back into a pending one, a move outside the lifecycle |
| BookingRoutes.RoutesNeverComplete | server/src/routes/bookings.js:180-456 | no route moves a booking to completed |
| BookingRoutes.View | server/src/routes/bookings.js:152-176 | a booking is returned iff it exists and the caller is its guest or host; otherwise the answer is not found or forbidden |
| BookingRoutes.GuestBookings | server/src/routes/bookings.js:122-134 | the caller's bookings as guest in reverse creation order; stated by GuestBookingsNewestFirst |
| BookingRoutes.HostBookings | server/src/routes/bookings.js:137-149 | the caller's hosted bookings in reverse creation order; stated by HostBookingsNewestFirst |
| BookingRoutes.GuestBookingsNewestFirst | server/src/routes/bookings.js:122-134 | the list holds exactly the caller's bookings as guest, and the latest booking comes first |
| BookingRoutes.HostBookingsNewestFirst | server/src/routes/bookings.js:137-149 | the list holds exactly the bookings the caller hosts, and the latest booking comes first |
| BookingRoutes.BookingStore.constructor | server/src/models/Booking.js:3-94 | an empty booking collection over schema-valid listings |
| BookingRoutes.BookingStore.Create | server/src/routes/bookings.js:10-118 | on the first failing guard, its error and no change; otherwise the new booking appended with its position as id; the no-overlap invariant is preserved |
| BookingRoutes.BookingStore.Save | server/src/routes/bookings.js:89-102 | a booking the schema accepts is appended with its position as id, and one it refuses changes nothing; the invariant is preserved |
| BookingRoutes.BookingStore.Insert | server/src/routes/bookings.js:101 | the booking goes to the end of the table and its position is its id; a booking clashing with none keeps the invariant |
| BookingRoutes.BookingStore.UpdateStatus | server/src/routes/bookings.js:180-221 | on a failing guard, its error and no change; otherwise only that booking's status changes; the invariant is preserved |
| BookingRoutes.BookingStore.Cancel | server/src/routes/bookings.js:225-256 | on a failing guard, its error and no change; otherwise that booking becomes cancelled with its reason; the invariant is preserved |
| BookingRoutes.BookingStore.RecordPayment | server/src/routes/bookings.js:260-312 | on a failing guard, its error and no change; otherwise only that booking's payment fields (and status) change |
| BookingRoutes.BookingStore.AddReview | server/src/routes/bookings.js:316-395 | on a failing guard, its error and no change; otherwise the review is stored and the listing's rating recomputed; the invariant is preserved |
| BookingRoutes.BookingStore.SaveReview | server/src/routes/bookings.js:353-360 | only the booking's review changes |
| BookingRoutes.BookingStore.RefreshRating | server/src/routes/bookings.js:362-383 | the listing's rating becomes the rounded mean and count of its reviews, and nothing else changes |
| BookingRoutes.BookingStore.Update | server/src/routes/bookings.js:399-456 | on a failing guard, its error and no change; otherwise the status and reason are assigned; the invariant is preserved |
| ListingRoutes.ThreeCaseIsClosedOverlap | server/src/routes/listings.js:86-105 | for ordered dates, the route's three-case test is exactly the overlap of closed intervals |
| ListingRoutes.ThreeCase | server/src/routes/listings.js:86-105 | the three `$elemMatch` cases with closed bounds; related to interval overlap by ThreeCaseIsClosedOverlap and ThreeCaseNeedsOrderedDates |
| ListingRoutes.Available | server/src/routes/listings.js:71-114 | the date clause: no booked range matches the three cases; stated by AvailableIffNoClosedOverlap |
| ListingRoutes.Admits | server/src/routes/listings.js:44-114 | active, and of the requested type, capacity, price range, amenities and free dates; BuildFilter's filter matches exactly these |
| ListingRoutes.ThreeCaseNeedsOrderedDates | server/src/routes/listings.js:86-105 | without ordered dates the two tests disagree (concrete inputs) |
| ListingRoutes.AvailableIffNoClosedOverlap | server/src/routes/listings.js:71-114 | a listing is kept iff none of its booked ranges overlaps the requested closed interval |
| ListingRoutes.BuildFilter | server/src/routes/listings.js:44-69 | the query filter the method builds matches a listing iff the listing is admitted by the query |
| ListingRoutes.PageSlice | server/src/routes/listings.js:116-134 | a page holds at most `limit` results, those at offsets (page − 1) × limit onwards, in order |
| ListingRoutes.Paginate | server/src/routes/listings.js:116-134 | the page, total, page count ⌈total/limit⌉ and the slice; an error for a page or limit below 1 |
| ListingRoutes.EveryMatchOnItsPage | server/src/routes/listings.js:116-134 | the k-th match appears on page ⌊k/limit⌋ + 1, within the page count |
| ListingRoutes.PagesBeyondLastAreEmpty | server/src/routes/listings.js:116-134 | pages after the last one are empty |
| ListingRoutes.View | server/src/routes/listings.js:156-176 | a listing is shown iff it exists and is active or the caller is its host; otherwise not found |
| ListingRoutes.CreateBodyValid | server/src/routes/listings.js:180-195 | the create route's validator chain, lengths counted after trimming; WizardFormMeetsServer and CreatedListing state what it guarantees |
| ListingRoutes.CreatedListing | server/src/routes/listings.js:180-220 | a validated body produces a listing of the caller with the trimmed title, description and location, the given price and type, each image's url in order, and the validated length and count bounds |
| ListingRoutes.SchemaCatchesWhatValidatorsMiss | server/src/routes/listings.js:180-220 | a body that passes the route's validators but carries an out-of-range rating is refused by the schema |
| ListingRoutes.EmptyPatchIsIdentity | server/src/routes/listings.js:224-250 | an update with no fields leaves the listing unchanged |
| ListingRoutes.UpdateCanTransferOwnership | server/src/routes/listings.js:224-250 | the owner may send a new host field and hand the listing to someone else |
| ListingRoutes.Patched | server/src/routes/listings.js:237-241 | `findByIdAndUpdate` with the body: given fields replace the stored ones; EmptyPatchIsIdentity and UpdateCanTransferOwnership state its laws |
| ListingRoutes.OwnerCheck | server/src/routes/listings.js:226-235 | the update and delete guards: not found, then forbidden for another host; ListingStore.Update and Deactivate state their outcomes |
| ListingRoutes.ListingStore.constructor | server/src/models/Listing.js:3-180 | an empty listing collection |
| ListingRoutes.ListingStore.Search | server/src/routes/listings.js:9-150 | a type outside the enumeration is refused as invalid input; otherwise the result is the admitted listings, newest first, paginated with the defaults page 1 and limit 12 |
| ListingRoutes.QueryValid | server/src/routes/listings.js:16 | the `type` validator: when given, the type is one of the seven |
| ListingRoutes.ListingStore.Create | server/src/routes/listings.js:180-220 | an invalid body is refused with no change; otherwise the new listing is appended with its position as id |
| ListingRoutes.ListingStore.Update | server/src/routes/listings.js:224-250 | on a missing listing or another owner, the error and no change; otherwise only that listing is patched |
| ListingRoutes.ListingStore.Deactivate | server/src/routes/listings.js:254-275 | on a missing listing or another owner, the error and no change; otherwise only that listing becomes inactive |
| ListingRoutes.HostListings | server/src/routes/listings.js:279-290 | the host's list holds exactly the caller's listings, newest first as `HostListingsNewestFirst` pins down |
| ListingRoutes.HostListingsNewestFirst | server/src/routes/listings.js:279-290 | the list sorted by `createdAt` descending: empty for no listings, and a listing created last comes first exactly when the caller hosts it |
| ListingRoutes.SearchResultsAdmitted | server/src/routes/listings.js:9-150 | every search result is a stored listing the query admits |
| ListingRoutes.DeactivatedListingWithdrawn | server/src/routes/listings.js:254-275 | after deletion the listing is in no search result and is visible to its host only |
| AuthContext.ReduceFrame | client/src/contexts/AuthContext.tsx:36-61 | each action's effect on the state, with the fields it does not name unchanged; LOGOUT yields `initialState`; unknown actions change nothing |
| AuthContext.Reduce | client/src/contexts/AuthContext.tsx:36-61 | `authReducer`; each action's effect and frame is stated by ReduceFrame |
| AuthContext.LogoutForgetsEverything | client/src/contexts/AuthContext.tsx:29-51 | logging out yields `initialState` from any state: no user, token or error, and loading set; doing it twice equals doing it once |
| AuthContext.SingleFieldActionsIdempotent | client/src/contexts/AuthContext.tsx:52-57 | clearing the error, setting loading and updating the user are idempotent |
| AuthContext.InitialConsistent | client/src/contexts/AuthContext.tsx:29-34 | the initial state has neither user nor token |
| AuthContext.ReducePreservesSession | client/src/contexts/AuthContext.tsx:36-61 | every action keeps "a user iff a token", provided a user update happens only with a user signed in |
| AuthContext.BareUpdateUserBreaksSession | client/src/contexts/AuthContext.tsx:52-53 | the reducer itself does not check that a user exists, so a bare user update breaks the pairing |
| AuthContext.Merge | client/src/contexts/AuthContext.tsx:165-171 | each of the ten fields the patch carries overrides the user's, and each field it leaves out is kept |
| AuthContext.MergeLaws | client/src/contexts/AuthContext.tsx:165-171 | an empty patch changes nothing, and applying a patch twice equals applying it once |
| AuthContext.UpdateUserEffect | client/src/contexts/AuthContext.tsx:165-171 | with a user signed in it stores the merged user; without one nothing changes |
| AuthContext.UpdateUserKeepsSession | client/src/contexts/AuthContext.tsx:165-171 | updating the user keeps the pairing of user and token |
| AuthContext.FailureMessage | client/src/contexts/AuthContext.tsx:128-130 | a non-empty server message is shown as it is; an absent or empty one is replaced by the fallback; the result is never empty |
| AuthContext.SignIn | client/src/contexts/AuthContext.tsx:115-153 | `login` and `register`: LOGIN_START, then LOGIN_SUCCESS or LOGIN_FAILURE with the message or fallback; stated by SignInOutcome |
| AuthContext.Restore | client/src/contexts/AuthContext.tsx:80-112 | the start-up dispatches for an accepted, a rejected and an absent stored session; stated by RestoreFromInitial |
| AuthContext.SignInOutcome | client/src/contexts/AuthContext.tsx:115-153 | sign-in ends not loading: with user and token and no error on success; on failure it keeps the previous user and token and shows the failure message |
| AuthContext.SignInKeepsSession | client/src/contexts/AuthContext.tsx:115-153 | login and registration keep the pairing of user and token |
| AuthContext.RestoreFromInitial | client/src/contexts/AuthContext.tsx:80-112 | the restore on start-up ends not loading, keeps the pairing, and has a user iff a stored session was accepted |
| ProtectedRoute.Decide | src/components/auth/ProtectedRoute.tsx:19-39 | a spinner while loading; login without a user; home when a required role is missing; the page iff signed in with every required role |
| ProtectedRoute.RoleRequirements | src/components/auth/ProtectedRoute.tsx:31-37 | a guest never sees a host page, and only an admin sees an admin page |
| ProtectedRoute.AdminPassesEverything | src/components/auth/ProtectedRoute.tsx:31-39 | a signed-in admin is shown every protected page |
| ProtectedRoute.LogoutLeavesSpinner | client/src/contexts/AuthContext.tsx:29-51 | after LOGOUT no user is signed in, yet the loading flag makes every guarded page show the spinner rather than the login redirect |
| ListingCard.DisplayedDescription | src/components/listing/ListingCard.tsx:258-260 | descriptions over 120 characters are cut to 120 and followed by "...", shorter ones are unchanged |
| ListingCard.DisplayedDescriptionIsPrefix | src/components/listing/ListingCard.tsx:258-260 | the shown text before the ellipsis is a prefix of the description |
| ListingCard.PreviewAmenities | src/components/listing/ListingCard.tsx:274-284 | the first four amenities, plus a "+n more" count exactly when there are more; the shown and hidden counts add up |
| ListingCard.SuperhostRatingRange | src/components/listing/ListingCard.tsx:158-162 | a superhost listing has reviews and, under the schema, an average of 4.8 to 5 stars |
| ListingCard.IsSuperhost | src/components/listing/ListingCard.tsx:158-162 | an average of at least 4.8 stars over at least 25 reviews; SuperhostRatingRange states what it implies |
| ListingCard.ImageSrc | src/components/listing/ListingCard.tsx:164-167 | the first image's url, or the placeholder after a load error or without one; never empty |
| ListingCard.ImageAlt | src/components/listing/ListingCard.tsx:169-171 | the first image's alt text, or "title - city, state"; never empty |
| ListingCard.ValidListingShowsFirstImage | src/components/listing/ListingCard.tsx:164-167 | a schema-valid listing with images shows its first image unless loading failed |
| ListingCard.FavoriteClick | src/components/listing/ListingCard.tsx:29-35 | a click flips the card's favourite flag |
| ListingCard.FavoriteClickTwice | src/components/listing/ListingCard.tsx:29-35 | two clicks restore the flag |
| ListingGrid.ToggleFavorite | src/components/listing/ListingGrid.tsx:19-26 | marking appends the id; unmarking removes every copy and keeps the rest in order; other ids are unaffected |
| ListingGrid.IsFavorite | src/components/listing/ListingGrid.tsx:34 | a card is a favourite iff its id is in the list; ToggleMarksCard states it after a toggle |
| ListingGrid.ToggleKeepsOthers | src/components/listing/ListingGrid.tsx:20-24 | a toggle leaves the favourites list unchanged apart from that id |
| ListingGrid.ToggleMarksCard | src/components/listing/ListingGrid.tsx:19-34 | after a toggle the card shows the new favourite state |
| ListingGrid.ToggleOnThenOff | src/components/listing/ListingGrid.tsx:20-24 | marking then unmarking an id that was not a favourite restores the list |
| ListingGrid.CardClickAgreesWithGrid | src/components/listing/ListingGrid.tsx:19-34 | the card's flag after a click agrees with the grid's list after the reported toggle |
| MyBookings.FilterBookings | src/pages/MyBookings.tsx:105-108 | "all" keeps every booking; a status keeps exactly the bookings with it |
| MyBookings.FilterIsExactSubsequence | src/pages/MyBookings.tsx:105-108 | a status filter keeps order and each booking's multiplicity, and drops the rest |
| MyBookings.FiltersPartition | src/pages/MyBookings.tsx:105-116 | the four status filters' sizes add up to the number of bookings |
| MyBookings.CancelOffered | src/pages/MyBookings.tsx:244-251 | the cancel button shows on pending bookings only; CancelButtonAccepted sets it against the server |
| MyBookings.ReviewOffered | src/pages/MyBookings.tsx:253-260 | the review button shows on completed, unreviewed bookings; ReviewButtonMatchesServer sets it against the server |
| MyBookings.CancelButtonAccepted | src/pages/MyBookings.tsx:244-251 | the server accepts the cancel button's request and the booking ends cancelled; a confirmed booking, which the server would let the guest cancel, gets no button |
| MyBookings.ReviewButtonMatchesServer | src/pages/MyBookings.tsx:253-260 | the review button shows exactly when the server's review checks pass |
| HostDashboard.ActiveBookings | src/pages/HostDashboard.tsx:76-78 | at most the number of bookings, and equal to it iff every booking is pending or confirmed; ActiveBookingsAppend fixes its value |
| HostDashboard.ActiveBookingsAppend | src/pages/HostDashboard.tsx:76-78 | no bookings count 0, and a further booking adds one exactly when it is pending or confirmed |
| HostDashboard.Stats | src/pages/HostDashboard.tsx:92-98 | the listing count is the number of listings and the active count is bounded by the bookings |
| HostDashboard.Recent | src/pages/HostDashboard.tsx:69 | the first five bookings (or all of them if fewer), in order |
| HostDashboard.RevenueAppend | src/pages/HostDashboard.tsx:72-74 | a further booking adds its price to the revenue iff it is completed |
| HostDashboard.RevenueNonNegative | src/pages/HostDashboard.tsx:72-74 | over schema-valid bookings the revenue is never negative |
| HostDashboard.TotalRevenue | src/pages/HostDashboard.tsx:72-74 | the total price of the completed bookings; stated by RevenueAppend and RevenueNonNegative |
| HostDashboard.AverageRating | src/pages/HostDashboard.tsx:80-86 | the mean star average of the listings with reviews, 0 without any; stated by AverageRatingInRange and UnratedListingIgnored |
| HostDashboard.TotalReviews | src/pages/HostDashboard.tsx:88-90 | the sum of the listings' review counts; stated by TotalReviewsAppend |
| HostDashboard.DecisionOffered | src/pages/HostDashboard.tsx:436-453 | the confirm and decline buttons show on pending bookings only; DecisionButtonsMatchServer sets them against the server |
| HostDashboard.AverageRatingInRange | src/pages/HostDashboard.tsx:80-86 | over schema-valid listings the mean rating lies in 0..5 stars |
| HostDashboard.UnratedListingIgnored | src/pages/HostDashboard.tsx:80-86 | a listing without reviews does not move the mean |
| HostDashboard.TotalReviewsAppend | src/pages/HostDashboard.tsx:88-90 | a further listing adds its review count to the total |
| HostDashboard.DecisionButtonsMatchServer | src/pages/HostDashboard.tsx:436-453 | the confirm and decline buttons show exactly when the server's status route would accept either decision |
| BookingModal.ModalNights | src/components/booking/BookingModal.tsx:79-87 | nights are positive iff both dates are set and ordered, and are then the ceiling of the span in days |
| BookingModal.ModalTotal | src/components/booking/BookingModal.tsx:68-77 | the total is the nightly price times the nights, and 0 without a valid span |
| BookingModal.NightsAgreeWithServer | src/components/booking/BookingModal.tsx:79-87 | the dialog counts the same nights as the server prices |
| BookingModal.FormAgreesWithServer | src/components/booking/BookingModal.tsx:89-132 | a form the dialog accepts passes the server's date, stay and capacity guards at the total it displayed, and is accepted if the body is valid, the listing active and the dates free |
| BookingModal.FormCheck | src/components/booking/BookingModal.tsx:89-132 | `validateForm`'s checks in order, each with its message; FormAgreesWithServer sets a passing form against the server |
| BookingModal.RequestOf | src/components/booking/BookingModal.tsx:141-148 | the create request body built from the form |
| BookingModal.PaymentUpdateFor | src/components/booking/BookingModal.tsx:164-168 | the payment update the dialog sends; PaymentConfirmsBooking states its effect |
| BookingModal.BlankNamePassesOnlyTheDialog | src/components/booking/BookingModal.tsx:126-129 | a name of blanks passes the dialog but not the server's trimmed validator |
| BookingModal.CleanPhone | src/components/booking/BookingModal.tsx:36-38 | only digits, spaces, `-`, `(`, `)` and `+` are kept, in order |
| BookingModal.CleanPhoneLaws | src/components/booking/BookingModal.tsx:36-38 | each allowed character keeps its count and the rest vanish; cleaning twice equals cleaning once |
| BookingModal.GuestsInput | src/components/booking/BookingModal.tsx:62 | an unparsable or zero entry becomes 1; any other number is kept |
| BookingModal.PaymentConfirmsBooking | src/components/booking/BookingModal.tsx:161-168 | the payment the dialog records marks the booking paid by credit card and confirmed, with the payment id as reference |
| BookingModal.Modal.constructor | src/components/booking/BookingModal.tsx:15-31 | the dialog opens on the booking step with empty dates, one guest and the user's name and email |
| BookingModal.Modal.SetPhone | src/components/booking/BookingModal.tsx:33-48 | only the cleaned phone changes |
| BookingModal.Modal.ValidateForm | src/components/booking/BookingModal.tsx:89-132 | succeeds iff the checks pass, and otherwise records the first failing check |
| BookingModal.Modal.HandleSubmit | src/components/booking/BookingModal.tsx:134-159 | sends the request iff the form is valid; on success moves to payment with the booking id, and on failure shows the message |
| BookingModal.Modal.HandlePaymentSuccess | src/components/booking/BookingModal.tsx:161-174 | records the payment for the created booking and reports a failed recording |
| CreateListing.StepValidBounds | client/src/pages/CreateListing.tsx:287-312 | the review step always passes and a step outside 1..5 never does |
| CreateListing.StepValid | client/src/pages/CreateListing.tsx:287-312 | `validateStep`: the basics, location, pricing and photos checks, step 5 always, any other step never; stated by StepValidBounds |
| CreateListing.AllStepsValid | client/src/pages/CreateListing.tsx:356 | every step 1..5 passes; WizardFormMeetsServer states what it guarantees at the server |
| CreateListing.InitialFormIncomplete | client/src/pages/CreateListing.tsx:157-184 | the initial form fails the basics, location, pricing and photos steps and has capacities within bounds |
| CreateListing.DraftOf | client/src/pages/CreateListing.tsx:345-368 | the request body carries every image of the form in order, with its url and its alt text |
| CreateListing.WizardFormMeetsServer | client/src/pages/CreateListing.tsx:287-312 | a form passing all steps satisfies the server's validators iff its type is known, the title and description are within their maxima, the country is set and the currency has 3 letters |
| CreateListing.ToggleAmenity | client/src/pages/CreateListing.tsx:252-259 | the amenity becomes present iff it was absent, and every other amenity is unaffected |
| CreateListing.ToggleAmenityTwice | client/src/pages/CreateListing.tsx:252-259 | two toggles restore the set of amenities, and the exact list when the amenity was absent |
| CreateListing.AddImage | client/src/pages/CreateListing.tsx:261-269 | a non-empty url is appended with an empty alt text; a cancelled or empty prompt changes nothing |
| CreateListing.RemoveImage | client/src/pages/CreateListing.tsx:271-276 | the image at the index is removed and the rest keep their order; an index out of range changes nothing |
| CreateListing.SetImageAlt | client/src/pages/CreateListing.tsx:278-285 | only the alt text of the image at the index changes |
| CreateListing.RemoveKeepsImageStep | client/src/pages/CreateListing.tsx:271-306 | with two images or more, removing one keeps the photos step valid |
| CreateListing.Decrement | client/src/pages/CreateListing.tsx:592-682 | a minus button lowers only its own counter, never below 1 guest, 0 bedrooms, 0.5 bathrooms or 1 bed |
| CreateListing.CountersStayInBounds | client/src/pages/CreateListing.tsx:592-692 | the counters stay within bounds, and minus undoes plus |
| CreateListing.Increment | client/src/pages/CreateListing.tsx:604-692 | a plus button raises its own counter by one (half a bathroom); CountersStayInBounds states the bounds and that minus undoes it |
| CreateListing.EditText | client/src/pages/CreateListing.tsx:196-213 | the named text input (the currency select included) takes the typed text and every other input keeps its value |
| CreateListing.EditNumber | client/src/pages/CreateListing.tsx:227-246 | the named number input takes the parsed value, or 0 when it does not parse, and every other input keeps its value |
| CreateListing.FilledIn | client/src/pages/CreateListing.tsx:196-285 | the fresh form after a type choice, the text and price inputs and one added photo holds exactly what was entered, with the initial capacity and a single image |
| CreateListing.InputsCompleteInitialForm | client/src/pages/CreateListing.tsx:287-356 | whatever is entered that meets the basics, location and pricing checks, with any type and photo url, passes every step, so the inputs alone can complete a form |
| CreateListing.Wizard.constructor | client/src/pages/CreateListing.tsx:157-184 | before the mount effect, the wizard is at step 1 with the initial form and no error |
| CreateListing.Wizard.Mount | client/src/pages/CreateListing.tsx:79-89 | signed out: navigate to login; signed in but not a host, an admin included: the hosts-only error; a host: nothing changes |
| CreateListing.Wizard.NextStep | client/src/pages/CreateListing.tsx:314-324 | advances one step, capped at 5, iff the current step is valid, and otherwise stays where it is and sets no error |
| CreateListing.Wizard.PrevStep | client/src/pages/CreateListing.tsx:333-336 | goes back one step, never below 1 |
| CreateListing.Wizard.SelectType | client/src/pages/CreateListing.tsx:248-250 | only the property type changes |
| CreateListing.Wizard.EditTextOf | client/src/pages/CreateListing.tsx:196-213 | only the form changes, by EditText |
| CreateListing.Wizard.EditNumberOf | client/src/pages/CreateListing.tsx:227-246 | only the form changes, by EditNumber |
| CreateListing.Wizard.ToggleAmenityOf | client/src/pages/CreateListing.tsx:252-259 | only the amenities change, by the toggle |
| CreateListing.Wizard.AddImageOf | client/src/pages/CreateListing.tsx:261-269 | only the images change, by the add |
| CreateListing.Wizard.RemoveImageAt | client/src/pages/CreateListing.tsx:271-276 | only the images change, by the removal |
| CreateListing.Wizard.SetImageAltAt | client/src/pages/CreateListing.tsx:278-285 | only the images change, by the alt edit |
| CreateListing.Wizard.Count | client/src/pages/CreateListing.tsx:592-692 | only the capacity changes, and it stays within bounds |
| CreateListing.Wizard.Submit | client/src/pages/CreateListing.tsx:345-387 | sends the form iff on the last step with every step valid; on creation navigates to the dashboard; on 401 shows the session message and navigates to login; with no listing returned, on 403 and on any other failure shows "Failed to create listing", the host-account message, or the server's message with its fallback, and stays |

## Left out

- The HTTP layer, MongoDB and Mongoose internals (population of references, `_id` generation, timestamps) are not modelled. Collections are sequences and ids are positions.
- The check-then-insert race between the conflict query and the save of a booking is not modelled. Each route runs atomically.
- JavaScript numbers are represented as integers. Prices and durations are whole units, the rating average is in tenths, and bathrooms are in half-units; floating-point rounding is not modelled.
- Time zones and `new Date()` are parameters. `isNewListing`, which depends on the current time, is not modelled.
- String lengths are counted in characters, not UTF-16 code units. Whitespace is a fixed character set.
- The search route's city, state and country filters are case-insensitive regular expressions. They are not modelled, and the query has no location fields.
- The `requireHost` middleware of the listing routes is not modelled; the caller's id is given.
- The search sorts by creation time, newest first. The model uses reverse creation order, so two listings created at the same instant cannot tie.
- Invalid date strings (`NaN` dates) cannot be expressed with integer dates.
- ListingRoutes.ListingStore.Search: only the `type` validator is modelled. The numeric validators of prices, guests, page and limit, and the ISO 8601 validators of the dates, are stood for by the query's integer fields, so their 400 answers are not modelled.
- ListingRoutes.Paginate: a page or limit below 1 is reported as an error. The route passes these values to MongoDB instead:
  - A page below 1 gives a negative skip. MongoDB rejects it, so the route answers 500.
  - A limit of 0 means no limit. Every match is returned, and `pages` is `Infinity` or `NaN`, which the JSON shows as null.
  - A negative limit returns at most as many matches as its absolute value.
- BookingRoutes.BookingStore.Update: a host's update without a status assigns `undefined`. The model stores `pending`, the value the schema default gives on the next read.
- BookingRoutes.BookingStore.RecordPayment: does not promise the no-overlap invariant, because the route can break it (see `PaymentCanReviveOverlap`).
- Writers of `bookedDates` are not modelled. No route in these files adds to it; the search only reads it.
- The payment SDK, maps, the seeding script, the server bootstrap and the type declarations file are not modelled.
- AuthContext's `localStorage`, axios headers and thrown exceptions are not modelled. A stored session is given as accepted, rejected or absent.
- The countries utilities (postal-code validation, and the currency auto-set on country change) are not modelled. Postal validation is a parameter.
- BookingRoutes.BookingStore.AddReview: no route in these files moves a booking to completed (`RoutesNeverComplete`), so the review branch needs a completed booking written to the store from outside the routes. Nothing in the source writes that status either; in a deployment it would come from a direct database write.
- CreateListing.EditText: the currency auto-set when the country changes belongs to the countries utilities and is not modelled; the parsed number of `handleNumberChange` is a parameter, in cents for the price.
- BookingModal's generic `handleInputChange` is modelled only for the phone and the guests fields. The other inputs are assigned directly.
- The share button, the `window.confirm` prompt before a cancellation and the presentational pages (home, hero, navbar, profile, listing details, spinner, review dialog) are not modelled.
- CreateListing.Wizard.SelectType: only the property types the page offers can be selected.
- BookingModal.Modal.HandlePaymentSuccess: requires the payment step, because the payment form is rendered only on that step.
