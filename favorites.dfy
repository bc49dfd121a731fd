/** The `useFavorites` hook: the list of favorite symbols and the copy kept in browser storage. */
module UseFavorites {
  import opened Toggle

  class Favorites {
    /** The `favorites` state. */
    var favorites: seq<string>
    /** What browser storage holds under the key `coin_favorites`. */
    ghost var stored: seq<string>

    /** The state starts empty whatever storage holds; loading it is not part of this model. */
    constructor (ghost persisted: seq<string>)
      ensures favorites == [] && stored == persisted
    {
      favorites := [];
      stored := persisted;
    }

    /** `toggleFavorite`: the new list replaces the state and is written to storage. */
    method ToggleFavorite(symbol: string)
      modifies this
      ensures favorites == Toggled(old(favorites), symbol)
      ensures stored == favorites
    {
      favorites := Toggled(favorites, symbol);
      stored := favorites;
    }

    /** `isFavorite` */
    method IsFavorite(symbol: string) returns (b: bool)
      ensures b <==> symbol in favorites
    {
      b := symbol in favorites;
    }

    /** `getFavorites` */
    method GetFavorites() returns (r: seq<string>)
      ensures r == favorites
    {
      r := favorites;
    }
  }

  /** What a caller observes across one toggle, once the new state has been committed: the toggled symbol's `isFavorite` flips, every
      other symbol's is kept, and storage matches the new list. */
  method ToggleObserved(f: Favorites, symbol: string, other: string)
      returns (before: bool, after: bool, otherBefore: bool, otherAfter: bool)
    requires other != symbol
    modifies f
    ensures before <==> symbol in old(f.favorites)
    ensures otherBefore <==> other in old(f.favorites)
    ensures f.favorites == Toggled(old(f.favorites), symbol)
    ensures after == !before && otherAfter == otherBefore
    ensures f.stored == f.favorites
  {
    before := f.IsFavorite(symbol);
    otherBefore := f.IsFavorite(other);
    f.ToggleFavorite(symbol);
    after := f.IsFavorite(symbol);
    otherAfter := f.IsFavorite(other);
  }
}
