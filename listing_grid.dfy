/** The favourites list of src/components/listing/ListingGrid.tsx: the
    updater that `handleFavoriteToggle` passes to `setFavorites`, and the
    lookup that marks each card. Listing ids are strings, as on the client. */
module ListingGrid {
  import opened Common
  import ListingCard

  type ListingKey = string

  /** The favourites after a toggle: the id is appended when it became a
      favourite and every occurrence of it is dropped when it stopped being
      one. */
  function ToggleFavorite(prev: seq<ListingKey>, id: ListingKey, isFavorite: bool): (r: seq<ListingKey>)
    ensures isFavorite ==> |r| == |prev| + 1 && r[..|prev|] == prev && r[|prev|] == id
    ensures !isFavorite ==> id !in r && IsSubsequence(r, prev)
    ensures forall y :: y != id ==> (y in r <==> y in prev)
  {
    if isFavorite then prev + [id]
    else RemoveAllIsSubsequence(prev, id); RemoveAll(prev, id)
  }

  /** `favorites.includes(listing._id)`. */
  predicate IsFavorite(favorites: seq<ListingKey>, id: ListingKey) {
    id in favorites
  }

  /** Apart from the toggled id, a toggle leaves the list exactly as it was:
      the other ids keep their order and their number of occurrences. */
  lemma ToggleKeepsOthers(prev: seq<ListingKey>, id: ListingKey, isFavorite: bool)
    ensures RemoveAll(ToggleFavorite(prev, id, isFavorite), id) == RemoveAll(prev, id)
  {
    if isFavorite {
      RemoveAllConcat(prev, [id], id);
      assert RemoveAll([id], id) == [];
    } else {
      RemoveAllIdempotent(prev, id);
    }
  }

  /** A card is marked exactly as its last toggle said. */
  lemma ToggleMarksCard(prev: seq<ListingKey>, id: ListingKey, isFavorite: bool, other: ListingKey)
    ensures IsFavorite(ToggleFavorite(prev, id, isFavorite), id) == isFavorite
    ensures other != id ==> IsFavorite(ToggleFavorite(prev, id, isFavorite), other) == IsFavorite(prev, other)
  {
  }

  /** Marking a listing and unmarking it again leaves the list as it was, when
      it was not a favourite before. */
  lemma ToggleOnThenOff(prev: seq<ListingKey>, id: ListingKey)
    requires id !in prev
    ensures ToggleFavorite(ToggleFavorite(prev, id, true), id, false) == prev
  {
    ToggleKeepsOthers(prev, id, true);
    RemoveAllAbsent(prev, id);
  }

  /** A card shows the grid's mark; a click on it reports the flipped mark,
      and the grid then marks the card as the card now shows it. */
  lemma CardClickAgreesWithGrid(favorites: seq<ListingKey>, id: ListingKey)
    ensures var shown := IsFavorite(favorites, id);
      var reported := ListingCard.FavoriteClick(shown);
      IsFavorite(ToggleFavorite(favorites, id, reported), id) == reported && reported != shown
  {
    ToggleMarksCard(favorites, id, ListingCard.FavoriteClick(IsFavorite(favorites, id)), id);
  }
}
