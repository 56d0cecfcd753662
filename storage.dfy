/** The browser's local storage as the application uses it: one slot, under the key
    "favorites", holding the whole favorites list or nothing at all. */
module Storage {
  import opened Wrappers
  import opened Movies

  class LocalStorage {
    /** The value stored under "favorites"; `None` when nothing was ever written. */
    var favorites: Option<seq<Movie>>

    constructor (saved: Option<seq<Movie>>)
      ensures favorites == saved
    {
      favorites := saved;
    }
  }

  /** `JSON.parse(localStorage.getItem("favorites")) || []`: the stored list, or the empty
      list when the slot holds nothing. */
  function LoadSaved(slot: Option<seq<Movie>>): seq<Movie> {
    slot.GetOr([])
  }

  /** With nothing stored, loading yields the empty list. */
  lemma LoadDefault()
    ensures LoadSaved(None) == []
  {
  }

  /** Loading gives back exactly the list last written, in order. */
  lemma LoadAfterStore(favs: seq<Movie>)
    ensures LoadSaved(Some(favs)) == favs
  {
  }
}
