/** How the two pages meet: they share the one storage slot, and each page starts from
    its own initial state whenever the router shows it. */
module App {
  import opened Wrappers
  import opened Movies
  import opened FavoritesList
  import opened Pagination
  import opened Search
  import opened Storage
  import opened HomePage
  import opened FavoritesPage

  /** The home page never loads the stored list, so the first toggle after it is shown
      replaces whatever was stored with a one-entry list. */
  method FirstToggleOverwrites(apiKey: string, storage: LocalStorage, movie: Movie) returns (home: HomeState)
    modifies storage
    ensures fresh(home) && home.storage == storage
    ensures home.favorites == [movie] && storage.favorites == Some([movie])
  {
    home := new HomeState(apiKey, storage);
    home.ToggleFavorite(movie);
    assert !IsFavorite([], movie);
  }

  /** Toggling on the home page and then opening the favorites page shows exactly the
      list the home page holds, in the same order. */
  method OpenFavoritesAfterToggle(home: HomeState, movie: Movie) returns (view: FavoritesState)
    modifies home, home.storage
    ensures fresh(view) && view.storage == home.storage
    ensures home.favorites == Toggle(old(home.favorites), movie)
    ensures view.favorites == home.favorites
  {
    home.ToggleFavorite(movie);
    view := new FavoritesState(home.storage);
    view.Mount();
  }

  /** Toggling the same movie twice from a list that lacks it restores both the list and
      the stored value: same entries, same length, and the movie's id is absent again. */
  method ToggleTwice(home: HomeState, movie: Movie)
    requires !IsFavorite(home.favorites, movie)
    modifies home, home.storage
    ensures home.favorites == old(home.favorites)
    ensures home.storage.favorites == Some(old(home.favorites))
    ensures !IsFavorite(home.favorites, movie)
  {
    ghost var before := home.favorites;
    home.ToggleFavorite(movie);
    home.ToggleFavorite(movie);
    ToggleTwiceAbsent(before, movie);
  }

  /** A removal on the favorites page is written through, so opening the page again shows
      the shortened list. */
  method RemoveThenReopenFavorites(view: FavoritesState, movie: Movie) returns (again: FavoritesState)
    modifies view, view.storage
    ensures fresh(again) && again.storage == view.storage
    ensures again.favorites == Remove(old(view.favorites), movie)
    ensures !IsFavorite(again.favorites, movie)
  {
    view.RemoveFavorite(movie);
    again := new FavoritesState(view.storage);
    again.Mount();
  }

  /** An enabled Next whose reply is a success moves to the following page, shows that
      page's results and total, and keeps the query and the filters. */
  method NextPageSucceeds(home: HomeState, server: string -> Response) returns (request: Option<string>)
    requires home.Valid() && home.query != ""
    requires ShowControls(home.totalResults) && !NextDisabled(home.page, home.totalResults)
    requires server(SearchUrl(home.apiKey, home.query, home.page + 1, home.typeFilter, home.year)).Ok?
    modifies home
    ensures home.query == old(home.query) && home.typeFilter == old(home.typeFilter) && home.year == old(home.year)
    ensures request == Some(SearchUrl(home.apiKey, home.query, old(home.page) + 1, home.typeFilter, home.year))
    ensures home.page == old(home.page) + 1 && home.error == "" && !home.loading
    ensures home.movies == server(request.value).search && home.totalResults == server(request.value).total
  {
    request := home.ClickNext(server);
  }

  /** Prev with an empty query sends nothing and changes nothing, even when enabled. */
  method PrevWithEmptyQuery(home: HomeState, server: string -> Response) returns (request: Option<string>)
    requires home.Valid() && home.query == ""
    modifies home
    ensures request == None
    ensures home.page == old(home.page) && home.movies == old(home.movies) && home.error == old(home.error)
    ensures home.totalResults == old(home.totalResults) && home.loading == old(home.loading)
  {
    request := home.ClickPrev(server);
  }
}
