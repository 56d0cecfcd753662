/** The home page's view state and its handlers: search with filters and pagination,
    the startup load with its fallback, and the favorite toggle. */
module HomePage {
  import opened Wrappers
  import opened Movies
  import opened FavoritesList
  import opened Pagination
  import opened Search
  import opened Storage

  class HomeState {
    /** The API credential read from the environment at startup. */
    const apiKey: string
    /** The storage slot the favorites are written to. */
    const storage: LocalStorage

    var query: string
    var movies: seq<Movie>
    var favorites: seq<Movie>
    var loading: bool
    var error: string
    var page: int
    var totalResults: nat
    var typeFilter: string
    var year: string

    /** The current page is always a real, 1-based page number. */
    ghost predicate Valid()
      reads this
    {
      page >= 1
    }

    /** The initial state. The favorites start empty and are never read from storage. */
    constructor (apiKey: string, storage: LocalStorage)
      ensures Valid()
      ensures this.apiKey == apiKey && this.storage == storage
      ensures query == "" && movies == [] && favorites == [] && !loading && error == ""
      ensures page == 1 && totalResults == 0 && typeFilter == "" && year == ""
    {
      this.apiKey := apiKey;
      this.storage := storage;
      query, movies, favorites := "", [], [];
      loading, error := false, "";
      page, totalResults := 1, 0;
      typeFilter, year := "", "";
    }

    /** The search box's `onChange`. */
    method SetQuery(text: string)
      modifies this`query
      ensures query == text
    {
      query := text;
    }

    /** The type selector's `onChange`: "", "movie", "series" or "episode". */
    method SetTypeFilter(choice: string)
      modifies this`typeFilter
      ensures typeFilter == choice
    {
      typeFilter := choice;
    }

    /** The year field's `onChange`. */
    method SetYear(text: string)
      modifies this`year
      ensures year == text
    {
      year := text;
    }

    /** What one run of `searchMovies(newPage)` does to the state, given the reply `server`
        gives. With an empty query nothing happens and nothing is requested. Otherwise the
        request is the one `SearchUrl` builds and `loading` ends false. A successful reply
        replaces the results and the total, sets the page and leaves the error cleared; an
        API failure empties the results and shows its message; a transport failure only
        shows the network message; neither failure touches the page or the total. The
        query, the filters and the favorites never change. */
    twostate predicate Searched(newPage: int, server: string -> Response, new request: Option<string>)
      reads this
    {
      && query == old(query) && typeFilter == old(typeFilter) && year == old(year)
      && favorites == old(favorites)
      && (query == "" ==>
            request == None && movies == old(movies) && error == old(error)
            && loading == old(loading) && page == old(page) && totalResults == old(totalResults))
      && (query != "" ==> request == Some(SearchUrl(apiKey, query, newPage, typeFilter, year)) && !loading)
      && (request.Some? && server(request.value).Ok? ==>
            movies == server(request.value).search && totalResults == server(request.value).total
            && page == newPage && error == "")
      && (request.Some? && server(request.value).ApiErr? ==>
            movies == [] && error == ApiErrorText(server(request.value).msg)
            && page == old(page) && totalResults == old(totalResults))
      && (request.Some? && server(request.value).NetErr? ==>
            movies == old(movies) && error == NetworkError
            && page == old(page) && totalResults == old(totalResults))
    }

    /** `searchMovies(newPage)`, with `server` standing for the API. */
    method SearchMovies(newPage: int, server: string -> Response) returns (request: Option<string>)
      modifies this
      ensures Searched(newPage, server, request)
    {
      if query == "" {
        return None;
      }
      loading := true;
      error := "";
      var url := SearchUrl(apiKey, query, newPage, typeFilter, year);
      request := Some(url);
      match server(url) {
        case Ok(search, total) =>
          movies := search;
          totalResults := total;
          page := newPage;
        case ApiErr(msg) =>
          error := ApiErrorText(msg);
          movies := [];
        case NetErr =>
          error := NetworkError;
      }
      loading := false;
    }

    /** The Search and Apply Filters buttons: a search for the first page. */
    method ClickSearch(server: string -> Response) returns (request: Option<string>)
      requires Valid()
      modifies this
      ensures Valid()
      ensures Searched(1, server, request)
    {
      request := SearchMovies(1, server);
    }

    /** The Prev button: shown only when there is more than one page, it runs a search for
        the previous page unless the current page is the first; otherwise a click does
        nothing. */
    method ClickPrev(server: string -> Response) returns (request: Option<string>)
      requires Valid()
      modifies this
      ensures Valid()
      ensures !old(ShowControls(totalResults)) || old(PrevDisabled(page)) ==> request == None && unchanged(this)
      ensures old(ShowControls(totalResults)) && !old(PrevDisabled(page)) ==> Searched(old(page) - 1, server, request)
    {
      if ShowControls(totalResults) && !PrevDisabled(page) {
        request := SearchMovies(page - 1, server);
      } else {
        request := None;
      }
    }

    /** The Next button: shown only when there is more than one page, it runs a search for
        the next page unless the current page equals the page count; otherwise a click does
        nothing. */
    method ClickNext(server: string -> Response) returns (request: Option<string>)
      requires Valid()
      modifies this
      ensures Valid()
      ensures !old(ShowControls(totalResults)) || old(NextDisabled(page, totalResults)) ==> request == None && unchanged(this)
      ensures old(ShowControls(totalResults)) && !old(NextDisabled(page, totalResults)) ==>
        Searched(old(page) + 1, server, request)
    {
      if ShowControls(totalResults) && !NextDisabled(page, totalResults) {
        request := SearchMovies(page + 1, server);
      } else {
        request := None;
      }
    }

    /** `fetchDefaultMovies`, run once on mount. It asks for this year's movies and, only
        when that reply is not a success, for the fallback query; a transport failure stops
        the chain and shows the load error. A successful reply fills the results and resets
        the page to 1; when both replies are API failures nothing but `loading` changes.
        The error is not cleared first. */
    method FetchDefaultMovies(currentYear: int, server: string -> Response) returns (requests: seq<string>)
      requires Valid()
      modifies this
      ensures Valid()
      ensures query == old(query) && typeFilter == old(typeFilter) && year == old(year)
      ensures favorites == old(favorites) && !loading
      ensures 1 <= |requests| <= 2 && requests[0] == DefaultUrl(apiKey, currentYear)
      ensures |requests| == 2 <==> server(requests[0]).ApiErr?
      ensures |requests| == 2 ==> requests[1] == FallbackUrl(apiKey)
      ensures var last := server(requests[|requests| - 1]);
        && (last.Ok? ==> movies == last.search && totalResults == last.total && page == 1 && error == old(error))
        && (last.NetErr? ==>
              movies == old(movies) && totalResults == old(totalResults) && page == old(page) && error == DefaultLoadError)
        && (last.ApiErr? ==>
              movies == old(movies) && totalResults == old(totalResults) && page == old(page) && error == old(error))
    {
      loading := true;
      var url := DefaultUrl(apiKey, currentYear);
      requests := [url];
      match server(url) {
        case Ok(search, total) =>
          movies := search;
          totalResults := total;
          page := 1;
        case ApiErr(_) =>
          var fallbackUrl := FallbackUrl(apiKey);
          requests := requests + [fallbackUrl];
          match server(fallbackUrl) {
            case Ok(search, total) =>
              movies := search;
              totalResults := total;
              page := 1;
            case ApiErr(_) =>
            case NetErr =>
              error := DefaultLoadError;
          }
        case NetErr =>
          error := DefaultLoadError;
      }
      loading := false;
    }

    /** `toggleFavorite(movie)`: the new list is `Toggle` of the current one and is written
        through to storage whole. Membership of the movie flips, unique ids stay unique,
        and nothing but the favorites and the storage slot changes. */
    method ToggleFavorite(movie: Movie)
      modifies this, storage
      ensures favorites == Toggle(old(favorites), movie)
      ensures storage.favorites == Some(favorites)
      ensures IsFavorite(favorites, movie) == !IsFavorite(old(favorites), movie)
      ensures UniqueIds(old(favorites)) ==> UniqueIds(favorites)
      ensures query == old(query) && movies == old(movies) && loading == old(loading) && error == old(error)
      ensures page == old(page) && totalResults == old(totalResults)
      ensures typeFilter == old(typeFilter) && year == old(year)
    {
      var updated := Toggle(favorites, movie);
      ToggleFlips(favorites, movie);
      if UniqueIds(favorites) {
        ToggleKeepsUnique(favorites, movie);
      }
      storage.favorites := Some(updated);
      favorites := updated;
    }
  }
}
