/** The display rules of src/components/listing/ListingCard.tsx: the
    truncated description, the amenity preview, the superhost badge, the
    image source and alt text, and the favourite button's local flag. */
module ListingCard {
  import opened Common
  import opened ListingModel

  const DescriptionLimit: nat := 120
  const Ellipsis: string := "..."
  const AmenityPreviewSize: nat := 4
  const PlaceholderImage: string := "/placeholder-image.jpg"
  /** The superhost thresholds: an average of at least 4.8 stars (in tenths)
      over at least 25 reviews. */
  const SuperhostAverageTenths: int := 48
  const SuperhostMinReviews: int := 25

  /** The description as the card shows it: cut to its first 120 characters
      followed by "..." when it is longer than that, else unchanged. */
  function DisplayedDescription(d: string): (r: string)
    ensures |d| <= DescriptionLimit ==> r == d
    ensures |d| > DescriptionLimit ==> |r| == DescriptionLimit + |Ellipsis|
    ensures |d| > DescriptionLimit ==> r[..DescriptionLimit] == d[..DescriptionLimit] && r[DescriptionLimit..] == Ellipsis
    ensures |r| <= DescriptionLimit + |Ellipsis|
  {
    if |d| > DescriptionLimit then d[..DescriptionLimit] + Ellipsis else d
  }

  /** What the card shows of a description always begins the description:
      every displayed character before the ellipsis is the description's own,
      in place. */
  lemma DisplayedDescriptionIsPrefix(d: string)
    ensures var r := DisplayedDescription(d);
      var k := if |d| > DescriptionLimit then DescriptionLimit else |d|;
      k <= |r| && r[..k] == d[..k]
  {
  }

  /** The amenity row: the first four amenities and, when there are more, the
      count of those left out. */
  datatype AmenityPreview = AmenityPreview(shown: seq<string>, more: Option<nat>)

  function PreviewAmenities(amenities: seq<string>): (p: AmenityPreview)
    ensures |p.shown| <= AmenityPreviewSize && |p.shown| <= |amenities|
    ensures p.more.Some? <==> |amenities| > AmenityPreviewSize
    ensures p.more.Some? ==> p.more.value == |amenities| - AmenityPreviewSize
    ensures p.shown == amenities[..|p.shown|]
    ensures |p.shown| + p.more.GetOr(0) == |amenities|
  {
    if |amenities| > AmenityPreviewSize
    then AmenityPreview(amenities[..AmenityPreviewSize], Some(|amenities| - AmenityPreviewSize))
    else AmenityPreview(amenities, None)
  }

  /** The superhost badge. */
  predicate IsSuperhost(r: Rating) {
    r.averageTenths >= SuperhostAverageTenths && r.count >= SuperhostMinReviews
  }

  /** A superhost listing always has reviews, and the schema's rating bounds
      leave it between 4.8 and 5 stars. */
  lemma SuperhostRatingRange(l: Listing)
    requires ValidListing(l) && IsSuperhost(l.rating)
    ensures l.rating.count > 0
    ensures SuperhostAverageTenths <= l.rating.averageTenths <= MaxAverageTenths
  {
  }

  /** `listing.images?.[0]?.url || placeholder`, with the placeholder also
      after the image failed to load. */
  function ImageSrc(imageError: bool, images: seq<Image>): (src: string)
    ensures src == PlaceholderImage || (!imageError && images != [] && src == images[0].url)
    ensures src != []
    ensures !imageError && images != [] && images[0].url != [] ==> src == images[0].url
  {
    if imageError then PlaceholderImage
    else if images != [] && images[0].url != [] then images[0].url
    else PlaceholderImage
  }

  /** `listing.images?.[0]?.alt || "title - city, state"`. */
  function ImageAlt(l: Listing): (alt: string)
    ensures alt != []
    ensures l.images != [] && l.images[0].alt != [] ==> alt == l.images[0].alt
    ensures (l.images == [] || l.images[0].alt == []) ==>
              alt == l.title + " - " + l.location.city + ", " + l.location.state
  {
    if l.images != [] && l.images[0].alt != [] then l.images[0].alt
    else l.title + " - " + l.location.city + ", " + l.location.state
  }

  /** A schema-valid listing with an image shows that image unless it failed
      to load. */
  lemma ValidListingShowsFirstImage(l: Listing)
    requires ValidListing(l) && l.images != []
    ensures ImageSrc(false, l.images) == l.images[0].url
  {
  }

  /** `handleFavoriteClick`: the new local flag, which is also the value
      reported to the parent. */
  function FavoriteClick(localFavorite: bool): (newState: bool)
    ensures newState != localFavorite
  {
    !localFavorite
  }

  /** Two clicks restore the flag. */
  lemma FavoriteClickTwice(localFavorite: bool)
    ensures FavoriteClick(FavoriteClick(localFavorite)) == localFavorite
  {
  }
}
