/** The listing routes of server/src/routes/listings.js as a store of
    listings: the search filter and its pagination, the visibility of a
    single listing, creation with its validators, and the owner-only update
    and soft delete. The table is kept in creation order and a listing's id
    is its position in it. */
module ListingRoutes {
  import opened Common
  import opened ListingModel
  import BookingModel
  import BookingRoutes

  datatype ListingError =
    | InvalidInput     // 400: a validator rejected the request
    | ListingNotFound  // 404
    | Forbidden        // 403: the caller does not own the listing
    | InvalidPage      // the page or the page size is below 1
    | ServerError      // 500: the schema refused the save

  const DefaultPage: int := 1
  const DefaultLimit: int := 12

  // ---------------------------------------------------------------------------
  // GET /: the search filter

  /** The query parameters the filter reads, after the validators. Prices
      are cents, dates milliseconds; `amenities` is empty when absent. */
  datatype SearchQuery = SearchQuery(
    minPrice: Option<int>,
    maxPrice: Option<int>,
    guests: Option<int>,
    propertyType: Option<string>,
    checkIn: Option<int>,
    checkOut: Option<int>,
    amenities: seq<string>,
    page: Option<int>,
    limit: Option<int>)

  /** The search's validator on `type`: when given, one of the seven types.
      The numeric and date validators are stood for by the query's types. */
  predicate QueryValid(q: SearchQuery) {
    q.propertyType.Some? ==> IsPropertyType(q.propertyType.value)
  }

  /** The three cases of the route's `$elemMatch`: the entry covers the
      check-in, covers the check-out, or lies within the stay, all with
      closed bounds. */
  predicate ThreeCase(e: DateRange, checkIn: int, checkOut: int) {
    (e.startDate <= checkIn && e.endDate >= checkIn)
    || (e.startDate <= checkOut && e.endDate >= checkOut)
    || (e.startDate >= checkIn && e.endDate <= checkOut)
  }

  /** Closed-interval overlap of the entry with `[checkIn, checkOut]`. */
  predicate ClosedOverlap(e: DateRange, checkIn: int, checkOut: int) {
    e.startDate <= checkOut && e.endDate >= checkIn
  }

  /** The date clause of the filter: no booked range matches the three cases
      (an absent or empty `bookedDates` has none). */
  predicate Available(l: Listing, checkIn: int, checkOut: int) {
    forall k :: 0 <= k < |l.bookedDates| ==> !ThreeCase(l.bookedDates[k], checkIn, checkOut)
  }

  /** For ordered dates and a well-formed range, the three cases are exactly
      closed-interval overlap. */
  lemma ThreeCaseIsClosedOverlap(e: DateRange, checkIn: int, checkOut: int)
    requires checkIn <= checkOut && e.startDate <= e.endDate
    ensures ThreeCase(e, checkIn, checkOut) <==> ClosedOverlap(e, checkIn, checkOut)
  {
  }

  /** The route checks neither ordering, and without them the two differ in
      both directions. */
  lemma ThreeCaseNeedsOrderedDates()
    ensures ThreeCase(DateRange(5, 12), 10, 0) && !ClosedOverlap(DateRange(5, 12), 10, 0)
    ensures ThreeCase(DateRange(10, 0), 5, 6) && !ClosedOverlap(DateRange(10, 0), 5, 6)
  {
  }

  /** A listing is available exactly when no booked range overlaps the
      closed stay, given ordered dates and well-formed ranges. */
  lemma AvailableIffNoClosedOverlap(l: Listing, checkIn: int, checkOut: int)
    requires checkIn <= checkOut
    requires forall k :: 0 <= k < |l.bookedDates| ==> l.bookedDates[k].startDate <= l.bookedDates[k].endDate
    ensures Available(l, checkIn, checkOut) <==>
      forall k :: 0 <= k < |l.bookedDates| ==> !ClosedOverlap(l.bookedDates[k], checkIn, checkOut)
  {
    forall k | 0 <= k < |l.bookedDates|
      ensures ThreeCase(l.bookedDates[k], checkIn, checkOut) <==> ClosedOverlap(l.bookedDates[k], checkIn, checkOut)
    {
      ThreeCaseIsClosedOverlap(l.bookedDates[k], checkIn, checkOut);
    }
  }

  /** What a search promises of every listing it returns: it is active, of
      the requested type, large enough for the party, priced within the
      requested range, equipped with every requested amenity, and, when both
      dates are given, free of booked ranges matching them. */
  predicate Admits(q: SearchQuery, l: Listing) {
    && l.isActive
    && (q.propertyType.Some? ==> l.propertyType == q.propertyType.value)
    && (q.guests.Some? ==> l.capacity.guests >= q.guests.value)
    && (q.minPrice.Some? ==> l.price >= q.minPrice.value)
    && (q.maxPrice.Some? ==> l.price <= q.maxPrice.value)
    && (forall k :: 0 <= k < |q.amenities| ==> q.amenities[k] in l.amenities)
    && (q.checkIn.Some? && q.checkOut.Some? ==> Available(l, q.checkIn.value, q.checkOut.value))
  }

  function AdmittedBy(q: SearchQuery): Listing -> bool {
    (l: Listing) => Admits(q, l)
  }

  /** The filter document the route builds; an absent field does not
      constrain. */
  datatype ListingFilter = ListingFilter(
    propertyType: Option<string>,
    minGuests: Option<int>,
    priceGte: Option<int>,
    priceLte: Option<int>,
    allAmenities: Option<seq<string>>,
    stay: Option<(int, int)>)

  /** How the database reads a filter document (always with `isActive: true`). */
  predicate Matches(f: ListingFilter, l: Listing) {
    && l.isActive
    && (f.propertyType.Some? ==> l.propertyType == f.propertyType.value)
    && (f.minGuests.Some? ==> l.capacity.guests >= f.minGuests.value)
    && (f.priceGte.Some? ==> l.price >= f.priceGte.value)
    && (f.priceLte.Some? ==> l.price <= f.priceLte.value)
    && (f.allAmenities.Some? ==> forall k :: 0 <= k < |f.allAmenities.value| ==> f.allAmenities.value[k] in l.amenities)
    && (f.stay.Some? ==> Available(l, f.stay.value.0, f.stay.value.1))
  }

  /** Builds the filter one clause at a time, as the route does; the result
      matches exactly the listings the query admits. */
  method BuildFilter(q: SearchQuery) returns (f: ListingFilter)
    ensures forall l :: Matches(f, l) <==> Admits(q, l)
  {
    f := ListingFilter(None, None, None, None, None, None);
    if q.propertyType.Some? {
      f := f.(propertyType := q.propertyType);
    }
    if q.guests.Some? {
      f := f.(minGuests := q.guests);
    }
    if q.minPrice.Some? || q.maxPrice.Some? {
      if q.minPrice.Some? {
        f := f.(priceGte := q.minPrice);
      }
      if q.maxPrice.Some? {
        f := f.(priceLte := q.maxPrice);
      }
    }
    if q.amenities != [] {
      f := f.(allAmenities := Some(q.amenities));
    }
    if q.checkIn.Some? && q.checkOut.Some? {
      f := f.(stay := Some((q.checkIn.value, q.checkOut.value)));
    }
  }

  // ---------------------------------------------------------------------------
  // GET /: pagination

  datatype SearchPage = SearchPage(listings: seq<Listing>, page: int, limit: int, total: int, pages: int)

  function Min(a: int, b: int): int {
    if a <= b then a else b
  }

  /** `.skip((page - 1) * limit).limit(limit)`. */
  function PageSlice<T>(s: seq<T>, page: int, limit: int): (r: seq<T>)
    requires page >= 1 && limit >= 1
    ensures |r| <= limit
    ensures r != [] ==> (page - 1) * limit + |r| <= |s|
    ensures forall k :: 0 <= k < |r| ==> 0 <= (page - 1) * limit + k < |s| && r[k] == s[(page - 1) * limit + k]
  {
    var skip := (page - 1) * limit;
    assert skip >= 0;
    if skip >= |s| then [] else s[skip..Min(skip + limit, |s|)]
  }

  /** The page the route answers for the matches in result order. */
  function Paginate(matches: seq<Listing>, page: int, limit: int): (r: Result<SearchPage, ListingError>)
    ensures r.Ok? <==> page >= 1 && limit >= 1
    ensures r.Ok? ==>
      && r.value.total == |matches| && |r.value.listings| <= limit
      && (r.value.pages - 1) * limit < |matches| <= r.value.pages * limit
  {
    if page < 1 || limit < 1 then Err(InvalidPage)
    else Ok(SearchPage(PageSlice(matches, page, limit), page, limit, |matches|, CeilDiv(|matches|, limit)))
  }

  /** Every match appears on exactly the page its position says, and that
      page is among the `pages` the response announces. */
  lemma EveryMatchOnItsPage(matches: seq<Listing>, limit: int, k: nat)
    requires limit >= 1 && k < |matches|
    ensures var p := k / limit + 1;
      && 1 <= p <= CeilDiv(|matches|, limit)
      && k % limit < |PageSlice(matches, p, limit)|
      && PageSlice(matches, p, limit)[k % limit] == matches[k]
  {
    var p := k / limit + 1;
    var n := CeilDiv(|matches|, limit);
    assert k == (p - 1) * limit + k % limit;
    assert (p - 1) * limit < n * limit;
    MulCancel(p - 1, n, limit);
    var skip := (p - 1) * limit;
    assert skip <= k < |matches|;
    assert Min(skip + limit, |matches|) > k;
  }

  /** Pages after the last announced one are empty. */
  lemma PagesBeyondLastAreEmpty(matches: seq<Listing>, page: int, limit: int)
    requires limit >= 1 && page > CeilDiv(|matches|, limit)
    ensures PageSlice(matches, page, limit) == []
  {
    var n := CeilDiv(|matches|, limit);
    MulMonotone(n, page - 1, limit);
  }

  lemma MulCancel(a: int, b: int, c: int)
    requires c > 0 && a * c < b * c
    ensures a < b
  {
  }

  lemma MulMonotone(a: int, b: int, c: int)
    requires a <= b && c >= 0
    ensures a * c <= b * c
  {
  }

  // ---------------------------------------------------------------------------
  // GET /:id

  /** A listing is shown to everybody while active and only to its host once
      deactivated; `caller` is absent for an anonymous request. */
  function View(ls: seq<Listing>, id: BookingModel.ListingId, caller: Option<UserId>): (r: Result<Listing, ListingError>)
    ensures r.Ok? ==> id < |ls| && r.value == ls[id]
    ensures r.Ok? <==> id < |ls| && (ls[id].isActive || caller == Some(ls[id].host))
    ensures r.Err? ==> r.error == ListingNotFound
  {
    if id >= |ls| then Err(ListingNotFound)
    else if !ls[id].isActive && (caller.None? || caller.value != ls[id].host) then Err(ListingNotFound)
    else Ok(ls[id])
  }

  // ---------------------------------------------------------------------------
  // POST /

  /** The validator chain of the create route. Lengths are counted after
      the trim sanitizer; a price of at least 0.01 is at least one cent. */
  predicate CreateBodyValid(d: ListingDraft) {
    && 5 <= |Trim(d.title)| <= 100
    && 20 <= |Trim(d.description)| <= 2000
    && IsPropertyType(d.propertyType)
    && Trim(d.location.address) != [] && Trim(d.location.city) != [] && Trim(d.location.state) != []
    && Trim(d.location.country) != [] && Trim(d.location.zipCode) != []
    && d.price >= 1
    && (d.currency.Some? ==> |d.currency.value| == 3)
    && d.capacity.guests >= 1 && d.capacity.bedrooms >= 0 && d.capacity.bathroomHalves >= 0 && d.capacity.beds >= 1
    && |d.images| >= 1
  }

  /** The body after the trim sanitizers of the validator chain. */
  function Sanitized(d: ListingDraft): ListingDraft {
    d.(title := Trim(d.title), description := Trim(d.description),
       location := Location(Trim(d.location.address), Trim(d.location.city), Trim(d.location.state),
                            Trim(d.location.country), Trim(d.location.zipCode)))
  }

  /** The document a valid body yields belongs to the caller, keeps the
      validated bounds and passes every schema check the validators cover. */
  lemma CreatedListing(d: ListingDraft, caller: UserId)
    requires CreateBodyValid(d)
    ensures var l := NewListing(Sanitized(d), caller);
      && l.host == caller
      && 5 <= |l.title| <= 100 && 20 <= |l.description| <= 2000
      && l.price >= 1 && l.capacity.guests >= 1 && l.capacity.beds >= 1 && |l.images| >= 1
      && l.title != [] && l.description != [] && l.location.city != []
      && l.title == Trim(d.title) && l.description == Trim(d.description)
      && l.location == Sanitized(d).location
      && l.price == d.price && l.propertyType == d.propertyType
      && forall i :: 0 <= i < |d.images| ==> l.images[i].url == d.images[i].url
  {
    var s := Sanitized(d);
    var l := NewListing(s, caller);
    assert l.title == Trim(Trim(d.title));
    TrimIdempotent(d.title);
    assert l.description == Trim(d.description);
    assert l.location.city == Trim(d.location.city);
  }

  /** The validators do not look at amenities, image URLs or a client-sent
      rating, so the schema can still refuse a body that passed them. */
  lemma SchemaCatchesWhatValidatorsMiss(d: ListingDraft, caller: UserId)
    requires CreateBodyValid(d)
    requires d.rating == Some(Rating(60, 1))
    ensures !ValidListing(NewListing(Sanitized(d), caller))
  {
  }

  // ---------------------------------------------------------------------------
  // PUT /:id and DELETE /:id

  /** The body of an update: any subset of the listing's fields, the host
      included (the route passes the body through). */
  datatype ListingPatch = ListingPatch(
    title: Option<string>,
    description: Option<string>,
    propertyType: Option<string>,
    location: Option<Location>,
    price: Option<int>,
    currency: Option<string>,
    images: Option<seq<ImageDraft>>,
    amenities: Option<seq<string>>,
    capacity: Option<Capacity>,
    rules: Option<RulesDraft>,
    host: Option<UserId>,
    isActive: Option<bool>,
    rating: Option<Rating>,
    bookedDates: Option<seq<DateRange>>)

  /** The listing after `findByIdAndUpdate` with the patch: given fields
      replace the stored ones (the title through its trim setter, a rules
      object with defaults for the rules it leaves out), the rest stay. */
  function Patched(l: Listing, p: ListingPatch): Listing {
    Listing(
      if p.title.Some? then Trim(p.title.value) else l.title,
      p.description.GetOr(l.description),
      p.propertyType.GetOr(l.propertyType),
      p.location.GetOr(l.location),
      p.price.GetOr(l.price),
      p.currency.GetOr(l.currency),
      if p.images.Some? then seq(|p.images.value|, i requires 0 <= i < |p.images.value| => ImageOf(p.images.value[i]))
      else l.images,
      p.amenities.GetOr(l.amenities),
      p.capacity.GetOr(l.capacity),
      if p.rules.Some? then
        Rules(p.rules.value.checkIn.GetOr(DefaultCheckInTime), p.rules.value.checkOut.GetOr(DefaultCheckOutTime),
              p.rules.value.minStay.GetOr(DefaultMinStay), p.rules.value.maxStay.GetOr(DefaultMaxStay))
      else l.rules,
      p.host.GetOr(l.host),
      p.isActive.GetOr(l.isActive),
      p.rating.GetOr(l.rating),
      p.bookedDates.GetOr(l.bookedDates))
  }

  const EmptyPatch: ListingPatch :=
    ListingPatch(None, None, None, None, None, None, None, None, None, None, None, None, None, None)

  /** An empty update leaves the listing as it was. */
  lemma EmptyPatchIsIdentity(l: Listing)
    ensures Patched(l, EmptyPatch) == l
  {
  }

  /** The owner can hand the listing to another user in one update, after
      which the former owner is refused. */
  lemma UpdateCanTransferOwnership(ls: seq<Listing>, id: BookingModel.ListingId, owner: UserId, other: UserId)
    requires id < |ls| && ls[id].host == owner && other != owner
    ensures OwnerCheck(ls, id, owner).None?
    ensures var ls' := ls[id := Patched(ls[id], EmptyPatch.(host := Some(other)))];
      OwnerCheck(ls', id, owner) == Some(Forbidden) && OwnerCheck(ls', id, other).None?
  {
  }

  /** The guards shared by update and delete: the listing exists and the
      caller is its host. */
  function OwnerCheck(ls: seq<Listing>, id: BookingModel.ListingId, caller: UserId): Option<ListingError> {
    if id >= |ls| then Some(ListingNotFound)
    else if ls[id].host != caller then Some(Forbidden)
    else None
  }

  // ---------------------------------------------------------------------------
  // The store

  class ListingStore {
    /** Every listing, in creation order; a listing's id is its position. */
    var listings: seq<Listing>

    ghost predicate Valid()
      reads this
    {
      forall i :: 0 <= i < |listings| ==> ValidListing(listings[i])
    }

    constructor ()
      ensures Valid() && listings == []
    {
      listings := [];
    }

    /** GET /: a type outside the enumeration is refused by the validators;
        otherwise the matching listings, newest first, cut to the requested
        page (page 1 of 12 by default). */
    method Search(q: SearchQuery) returns (r: Result<SearchPage, ListingError>)
      ensures !QueryValid(q) ==> r == Err(InvalidInput)
      ensures QueryValid(q) ==>
        r == Paginate(Reverse(Filter(listings, AdmittedBy(q))), q.page.GetOr(DefaultPage), q.limit.GetOr(DefaultLimit))
    {
      if !QueryValid(q) {
        return Err(InvalidInput);
      }
      var f := BuildFilter(q);
      var matches := Filter(listings, (l: Listing) => Matches(f, l));
      FilterExt(listings, (l: Listing) => Matches(f, l), AdmittedBy(q));
      r := Paginate(Reverse(matches), q.page.GetOr(DefaultPage), q.limit.GetOr(DefaultLimit));
    }

    /** POST /: a valid body becomes a new listing owned by the caller, at the
        end of the table. */
    method Create(d: ListingDraft, caller: UserId) returns (r: Result<BookingModel.ListingId, ListingError>)
      requires Valid()
      modifies this
      ensures Valid()
      ensures !CreateBodyValid(d) ==> r == Err(InvalidInput) && listings == old(listings)
      ensures CreateBodyValid(d) ==>
        var l := NewListing(Sanitized(d), caller);
        if ValidListing(l) then r == Ok(|old(listings)|) && listings == old(listings) + [l]
        else r == Err(ServerError) && listings == old(listings)
    {
      if !CreateBodyValid(d) {
        return Err(InvalidInput);
      }
      var l := NewListing(Sanitized(d), caller);
      if !ValidListing(l) {
        return Err(ServerError);
      }
      AppendStaysValid(listings, l);
      r := Ok(|listings|);
      listings := listings + [l];
    }

    /** PUT /:id: the owner's patch, kept only when the result passes the
        schema (`runValidators`). */
    method Update(id: BookingModel.ListingId, caller: UserId, p: ListingPatch) returns (r: Result<Listing, ListingError>)
      requires Valid()
      modifies this
      ensures Valid()
      ensures OwnerCheck(old(listings), id, caller).Some? ==>
        r == Err(OwnerCheck(old(listings), id, caller).value) && listings == old(listings)
      ensures OwnerCheck(old(listings), id, caller).None? ==>
        var l := Patched(old(listings)[id], p);
        if ValidListing(l) then r == Ok(l) && listings == old(listings)[id := l]
        else r == Err(ServerError) && listings == old(listings)
    {
      var err := OwnerCheck(listings, id, caller);
      if err.Some? {
        return Err(err.value);
      }
      var l := Patched(listings[id], p);
      if !ValidListing(l) {
        return Err(ServerError);
      }
      ReplaceStaysValid(listings, id, l, listings[id := l]);
      listings := listings[id := l];
      r := Ok(l);
    }

    /** DELETE /:id: a soft delete; the owner's listing becomes inactive and
        nothing else changes. */
    method Deactivate(id: BookingModel.ListingId, caller: UserId) returns (r: Result<(), ListingError>)
      requires Valid()
      modifies this
      ensures Valid()
      ensures OwnerCheck(old(listings), id, caller).Some? ==>
        r == Err(OwnerCheck(old(listings), id, caller).value) && listings == old(listings)
      ensures OwnerCheck(old(listings), id, caller).None? ==>
        r == Ok(()) && listings == old(listings)[id := old(listings)[id].(isActive := false)]
    {
      var err := OwnerCheck(listings, id, caller);
      if err.Some? {
        return Err(err.value);
      }
      listings := listings[id := listings[id].(isActive := false)];
      r := Ok(());
    }
  }

  /** GET /host/my-listings: the caller's listings, active or not, newest
      first. */
  function HostListings(ls: seq<Listing>, caller: UserId): (r: seq<Listing>)
    ensures forall l :: l in r <==> l in ls && l.host == caller
  {
    Reverse(Filter(ls, OwnedBy(caller)))
  }

  function OwnedBy(caller: UserId): Listing -> bool {
    (l: Listing) => l.host == caller
  }

  /** The host's list is in creation order reversed: a listing created last
      comes first when the caller hosts it. */
  lemma HostListingsNewestFirst(ls: seq<Listing>, l: Listing, caller: UserId)
    ensures HostListings([], caller) == []
    ensures HostListings(ls + [l], caller) == (if l.host == caller then [l] else []) + HostListings(ls, caller)
  {
    var p := OwnedBy(caller);
    FilterConcat(ls, [l], p);
    assert Filter([l], p) == if l.host == caller then [l] else [];
    ReverseSnoc(Filter(ls, p), Filter([l], p));
  }

  /** Every listing a search returns is admitted by the query, and so is
      active. */
  lemma SearchResultsAdmitted(ls: seq<Listing>, q: SearchQuery, page: int, limit: int)
    requires page >= 1 && limit >= 1
    ensures var res := Paginate(Reverse(Filter(ls, AdmittedBy(q))), page, limit).value.listings;
      forall k :: 0 <= k < |res| ==> res[k] in ls && Admits(q, res[k]) && res[k].isActive
  {
    var m := Reverse(Filter(ls, AdmittedBy(q)));
    var res := PageSlice(m, page, limit);
    forall k | 0 <= k < |res|
      ensures res[k] in ls && Admits(q, res[k])
    {
      assert res[k] in m;
    }
  }

  /** Once deactivated, a listing is hidden from everybody but its host,
      never returned by a search, and refused by booking creation. */
  lemma DeactivatedListingWithdrawn(ls: seq<Listing>, id: BookingModel.ListingId, q: SearchQuery, caller: Option<UserId>,
                                    bs: seq<BookingModel.Booking>, req: BookingRoutes.CreateRequest, today: int,
                                    isEmail: string -> bool)
    requires id < |ls|
    ensures var ls' := ls[id := ls[id].(isActive := false)];
      && (caller != Some(ls[id].host) ==> View(ls', id, caller) == Err(ListingNotFound))
      && !Admits(q, ls'[id])
      && (req.listing == id && BookingRoutes.CreateBodyValid(req, isEmail) ==>
            BookingRoutes.CreateCheck(ls', bs, req, today, isEmail) == Some(BookingRoutes.ListingUnavailable))
  {
  }
}
