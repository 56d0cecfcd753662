/** The favorites page: a copy of the list loaded from storage on mount, and its remove button. */
module FavoritesPage {
  import opened Wrappers
  import opened Movies
  import opened FavoritesList
  import opened Storage

  class FavoritesState {
    const storage: LocalStorage
    var favorites: seq<Movie>

    /** Before the mount effect runs the list is empty. */
    constructor (storage: LocalStorage)
      ensures this.storage == storage && favorites == []
    {
      this.storage := storage;
      favorites := [];
    }

    /** The mount effect: read the stored list, or the empty list when nothing is stored. */
    method Mount()
      modifies this`favorites
      ensures favorites == LoadSaved(storage.favorites)
      ensures storage.favorites.None? ==> favorites == []
    {
      favorites := LoadSaved(storage.favorites);
    }

    /** `removeFavorite(movie)`: keep the entries with another id and write the result
        through to storage. */
    method RemoveFavorite(movie: Movie)
      modifies this`favorites, storage
      ensures favorites == Remove(old(favorites), movie)
      ensures storage.favorites == Some(favorites)
      ensures !IsFavorite(favorites, movie)
      ensures IsSubsequence(favorites, old(favorites))
      ensures forall m :: m in favorites <==> m in old(favorites) && m.id != movie.id
      ensures !IsFavorite(old(favorites), movie) ==> favorites == old(favorites)
    {
      var updated := Remove(favorites, movie);
      if !IsFavorite(favorites, movie) {
        RemoveAbsent(favorites, movie);
      }
      favorites := updated;
      storage.favorites := Some(updated);
    }
  }
}
