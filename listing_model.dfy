/** The listing record of server/src/models/Listing.js: the fixed property
    types and amenities, the capacity and rule fields with their bounds and
    defaults, the rating summary and the soft-delete flag. Prices are integer
    cents, a rating average is integer tenths of a star (0..50) and bathrooms
    are counted in half-units. */
module ListingModel {
  import opened Common

  /** The property types the schema's enum allows. */
  predicate IsPropertyType(t: string) {
    t in {"apartment", "house", "villa", "studio", "loft", "cabin", "other"}
  }

  /** The amenities the schema's enum allows. */
  predicate IsAmenity(a: string) {
    a in {
    "wifi", "tv", "sound_system",
    "kitchen", "coffee_maker", "dining_table",
    "linens", "towels", "hair_dryer",
    "heating", "air_conditioning", "fireplace",
    "washer", "dryer",
    "parking", "garage_parking",
    "pool", "gym", "garden", "balcony",
    "workspace", "desk",
    "baby_safety_gates", "pets_allowed",
    "smoke_detector", "security_cameras",
    "living_area",
    "smoking_allowed", "breakfast", "events_allowed"
    }
  }

  const DefaultCurrency: string := "USD"
  const DefaultCheckInTime: string := "3:00 PM"
  const DefaultCheckOutTime: string := "11:00 AM"
  const DefaultMinStay: int := 1
  const DefaultMaxStay: int := 30
  /** The schema's upper bound on a rating average, 5 stars, in tenths. */
  const MaxAverageTenths: int := 50

  datatype Location = Location(address: string, city: string, state: string, country: string, zipCode: string)

  datatype Image = Image(url: string, alt: string)

  datatype Capacity = Capacity(guests: int, bedrooms: int, bathroomHalves: int, beds: int)

  datatype Rules = Rules(checkIn: string, checkOut: string, minStay: int, maxStay: int)

  datatype Rating = Rating(averageTenths: int, count: int)

  /** An entry of `bookedDates`. */
  datatype DateRange = DateRange(startDate: int, endDate: int)

  datatype Listing = Listing(
    title: string,
    description: string,
    propertyType: string,
    location: Location,
    price: int,
    currency: string,
    images: seq<Image>,
    amenities: seq<string>,
    capacity: Capacity,
    rules: Rules,
    host: UserId,
    isActive: bool,
    rating: Rating,
    bookedDates: seq<DateRange>)

  /** What the schema checks on every save: required strings are non-empty,
      `type` and every amenity come from their enumerations, the `min`/`max`
      bounds of price, capacity and rating average hold, and every image has
      a URL. It does not relate `minStay` and `maxStay`. */
  predicate ValidListing(l: Listing) {
    && l.title != [] && l.description != []
    && IsPropertyType(l.propertyType)
    && l.location.address != [] && l.location.city != [] && l.location.state != []
    && l.location.country != [] && l.location.zipCode != []
    && l.price >= 0
    && (forall i :: 0 <= i < |l.images| ==> l.images[i].url != [])
    && (forall i :: 0 <= i < |l.amenities| ==> IsAmenity(l.amenities[i]))
    && l.capacity.guests >= 1 && l.capacity.bedrooms >= 0
    && l.capacity.bathroomHalves >= 0 && l.capacity.beds >= 1
    && 0 <= l.rating.averageTenths <= MaxAverageTenths
  }

  /** Appending a schema-valid listing keeps a table of schema-valid
      listings. */
  lemma AppendStaysValid(ls: seq<Listing>, l: Listing)
    requires forall i :: 0 <= i < |ls| ==> ValidListing(ls[i])
    requires ValidListing(l)
    ensures forall i :: 0 <= i < |ls + [l]| ==> ValidListing((ls + [l])[i])
  {
  }

  /** Replacing a listing by a schema-valid one keeps a table of
      schema-valid listings. */
  lemma ReplaceStaysValid(ls: seq<Listing>, k: nat, l: Listing, ls': seq<Listing>)
    requires forall i :: 0 <= i < |ls| ==> ValidListing(ls[i])
    requires ValidListing(l) && k < |ls| && ls' == ls[k := l]
    ensures forall i :: 0 <= i < |ls'| ==> ValidListing(ls'[i])
  {
  }

  /** An image as a request carries it: the alt text may be missing. */
  datatype ImageDraft = ImageDraft(url: string, alt: Option<string>)

  datatype RulesDraft = RulesDraft(checkIn: Option<string>, checkOut: Option<string>,
                                   minStay: Option<int>, maxStay: Option<int>)

  /** The fields of a new listing as a request body carries them; absent
      optional fields take the schema defaults. */
  datatype ListingDraft = ListingDraft(
    title: string,
    description: string,
    propertyType: string,
    location: Location,
    price: int,
    currency: Option<string>,
    images: seq<ImageDraft>,
    amenities: seq<string>,
    capacity: Capacity,
    rules: RulesDraft,
    isActive: Option<bool>,
    rating: Option<Rating>,
    bookedDates: seq<DateRange>)

  function ImageOf(d: ImageDraft): Image {
    Image(d.url, d.alt.GetOr(""))
  }

  /** The document `new Listing({...draft, host})` builds: the schema trims
      the title (`trim: true`) and fills every absent field with its default. */
  function NewListing(d: ListingDraft, host: UserId): (l: Listing)
    ensures l.host == host && |l.images| == |d.images|
    ensures forall i :: 0 <= i < |d.images| ==> l.images[i].url == d.images[i].url
  {
    Listing(
      Trim(d.title), d.description, d.propertyType, d.location, d.price,
      d.currency.GetOr(DefaultCurrency),
      seq(|d.images|, i requires 0 <= i < |d.images| => ImageOf(d.images[i])),
      d.amenities, d.capacity,
      Rules(d.rules.checkIn.GetOr(DefaultCheckInTime), d.rules.checkOut.GetOr(DefaultCheckOutTime),
            d.rules.minStay.GetOr(DefaultMinStay), d.rules.maxStay.GetOr(DefaultMaxStay)),
      host, d.isActive.GetOr(true), d.rating.GetOr(Rating(0, 0)), d.bookedDates)
  }

  /** A request that leaves the optional fields out gets currency USD, a
      1..30 night stay window, check-in 3:00 PM and check-out 11:00 AM, an
      active listing, a zero rating, and empty alt texts. */
  lemma NewListingDefaults(d: ListingDraft, host: UserId)
    requires d.currency.None? && d.isActive.None? && d.rating.None?
    requires d.rules == RulesDraft(None, None, None, None)
    requires forall i :: 0 <= i < |d.images| ==> d.images[i].alt.None?
    ensures var l := NewListing(d, host);
      && l.currency == "USD" && l.isActive && l.rating == Rating(0, 0)
      && l.rules == Rules("3:00 PM", "11:00 AM", 1, 30)
      && forall i :: 0 <= i < |l.images| ==> l.images[i].alt == ""
  {
  }

  /** The schema accepts a listing whose minimum stay exceeds its maximum:
      such a listing can never be booked, yet it saves. */
  lemma SchemaAllowsEmptyStayWindow(l: Listing)
    requires ValidListing(l)
    ensures ValidListing(l.(rules := l.rules.(minStay := 31, maxStay := 30)))
  {
  }
}
