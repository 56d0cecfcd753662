# Movie Explorer: favorites and search model

A Dafny model of the sequential logic of a browser movie-search application that talks
to the OMDb movie API and keeps a list of favorite movies in local storage.

- **Favorites collection.** An ordered sequence of `Movie` records keyed on `id` (the
  API's `imdbID`). The pure operations are the `find`, `some` and `filter` the pages
  use, plus the toggle the home page applies (`FavoritesList`). The home page
  (`HomePage.HomeState.ToggleFavorite`) and the favorites page
  (`FavoritesPage.FavoritesState.RemoveFavorite`) both write the whole new list
  through to one shared storage slot (`Storage.LocalStorage`). The home page starts
  with an empty list and never reads storage, so its first toggle overwrites what was
  stored (`App.FirstToggleOverwrites`). The favorites page loads the slot on mount and
  falls back to the empty list.
- **Search and pagination.** `HomePage.HomeState.SearchMovies` does nothing on an empty
  query. Otherwise it builds the request URL (`Search.SearchUrl`): base part, then
  optional `&type=`, then optional `&y=`. The page number is rendered in decimal by
  `Decimal.IntString`, treating it as an exact integer. It then applies one of three outcomes to `movies`,
  `totalResults`, `page`, `error` and `loading`. The startup load
  (`FetchDefaultMovies`) sends at most two requests, the second only after an API
  failure. The page count is `ceil(totalResults / 10)` (`Pagination.TotalPages`), and
  the Prev/Next rules are `Pagination.PrevDisabled` and `Pagination.NextDisabled`.

The API is a parameter `server: string -> Response` that gives the reply to a URL.
`Response` is `Ok(search, total)` for a reply whose `Response` field is `"True"`,
`ApiErr(msg)` for any other reply, and `NetErr` for a failed `fetch` or `res.json()`.
Methods return the URLs they requested. The current year and the API key are
parameters.

The query and the filter values are inserted into the URL verbatim, without URL
encoding, as the source does. A query containing `&` therefore adds parameters of its
own. The model keeps that behaviour.

## Model

| member | source | states |
|---|---|---|
| FavoritesList.Find | src/home.jsx:54 | the result is present exactly when some entry has the movie's id, and it is the first such entry |
| FavoritesList.IsFavorite | src/home.jsx:100-101 | definition of `isFavorite`: some entry carries the movie's id; see `Find`, `ToggleFlips`, `ToggleOthers` |
| FavoritesList.Toggle | src/home.jsx:53-58 | definition of the `setFavorites` updater; see `TogglePresent`, `ToggleAbsent`, `ToggleFlips`, `ToggleOthers`, `ToggleKeepsUnique`, `ToggleTwiceAbsent`, `ToggleTwicePresent` |
| FavoritesList.Remove | src/Favorites.jsx:16 | no entry with the id remains; an entry is kept exactly when it was there with another id; the result is an order-preserving subsequence; its length drops by the number of matching entries |
| FavoritesList.RemoveAbsent | src/Favorites.jsx:16 | removing an id no entry carries leaves the list unchanged |
| FavoritesList.RemoveIdempotent | src/Favorites.jsx:16 | removing twice equals removing once |
| FavoritesList.RemoveAppend | src/home.jsx:55-57 | filtering an appended list filters each part |
| FavoritesList.RemoveKeepsUnique | src/Favorites.jsx:16 | removal keeps unique ids unique |
| FavoritesList.TogglePresent | src/home.jsx:54-55 | when the id is present, the toggle removes every entry with it, keeps the others in order, and shrinks by their count |
| FavoritesList.ToggleAbsent | src/home.jsx:56-57 | when the id is absent, the toggle yields the old list plus the movie, one longer |
| FavoritesList.ToggleFlips | src/home.jsx:54-57 | `isFavorite` after a toggle is the negation of before |
| FavoritesList.ToggleOthers | src/home.jsx:54-57 | whether a movie with another id is a favorite is unchanged by a toggle |
| FavoritesList.ToggleKeepsUnique | src/home.jsx:54-57 | unique ids stay unique across a toggle |
| FavoritesList.ToggleTwiceAbsent | src/home.jsx:51-62 | two toggles from a list lacking the id restore the list |
| FavoritesList.ToggleTwicePresent | src/home.jsx:51-62 | two toggles from a list holding the id leave the list filtered with the movie appended once |
| Decimal.NatString | src/home.jsx:29 | the page number renders as a non-empty digit string with no leading zero |
| Decimal.IntString | src/home.jsx:29 | the text starts with a minus sign exactly for negative numbers and is never empty; see `IntStringInjective` |
| Decimal.NatStringRoundTrip | src/home.jsx:29 | reading the rendered digits back gives the number |
| Decimal.IntStringInjective | src/home.jsx:29 | distinct numbers render as distinct text |
| Pagination.TotalPages | src/home.jsx:104 | the result is the ceiling of totalResults / 10: ten times it covers the total, ten times one less does not |
| Pagination.ShowControls | src/home.jsx:211 | definition: the controls render when there is more than one page; see `ShowControlsIff` |
| Pagination.PrevDisabled | src/home.jsx:215 | definition: Prev is disabled exactly on page 1; see `NavigationStaysInRange` |
| Pagination.NextDisabled | src/home.jsx:224 | definition: Next is disabled exactly when the page equals the page count; see `NavigationStaysInRange` |
| Pagination.TotalPagesExamples | src/home.jsx:104 | 23 results give 3 pages with controls; 10 give 1 page without; 0 give 0 |
| Pagination.ShowControlsIff | src/home.jsx:211 | the controls appear exactly when there are more than 10 results |
| Pagination.NavigationStaysInRange | src/home.jsx:211-227 | with the page in range and the controls shown, Prev or Next is enabled, and an enabled one asks for a page in range |
| Search.ApiErrorText | src/home.jsx:41 | the message is the API's text when non-empty, the fixed "No movies found" otherwise, never empty |
| Search.SearchUrl | src/home.jsx:29-31 | definition of the search request; see `SearchUrlLayout`, `SearchUrlDeterminesPage` |
| Search.DefaultUrl | src/home.jsx:70 | definition of the first startup request (query "movie", the current year, page 1); used by `FetchDefaultMovies` |
| Search.FallbackUrl | src/home.jsx:81 | definition of the fallback request; see `FallbackIsPlainSearch` |
| Search.SearchUrlLayout | src/home.jsx:29-31 | the URL starts with the `&s=<query>&page=<newPage>` base; `&type=` follows exactly when a type is set; `&y=` ends it exactly when a year is set |
| Search.SearchUrlDeterminesPage | src/home.jsx:29 | requests that differ only in the page are different URLs |
| Search.FallbackIsPlainSearch | src/home.jsx:81 | the fallback request equals an unfiltered search for "avengers" on page 1 |
| Storage.LoadDefault | src/Favorites.jsx:11 | with nothing stored the loaded list is empty |
| Storage.LoadSaved | src/Favorites.jsx:11 | definition of the load: the stored list, or the empty list when none is stored; see `LoadDefault`, `LoadAfterStore` |
| Storage.LocalStorage.constructor | src/Favorites.jsx:11 | the single "favorites" slot starts with the given saved value, or none |
| Storage.LoadAfterStore | src/Favorites.jsx:11 | loading returns the stored list unchanged |
| HomePage.HomeState.constructor | src/home.jsx:8-21 | initial state: empty query, results, favorites and error, page 1, total 0, no filters |
| HomePage.HomeState.SetQuery | src/home.jsx:147 | the query becomes the typed text |
| HomePage.HomeState.SetTypeFilter | src/home.jsx:154 | the type filter becomes the chosen option |
| HomePage.HomeState.SetYear | src/home.jsx:165 | the year filter becomes the typed text |
| HomePage.HomeState.Searched | src/home.jsx:23-49 | what one search does: empty query changes nothing and requests nothing; otherwise the request is `SearchUrl` of the state, loading ends false, and success, API failure and transport failure set the fields as in the source; query, filters and favorites never change |
| HomePage.HomeState.SearchMovies | src/home.jsx:23-49 | one run has exactly the effect `Searched` describes for the given page |
| HomePage.HomeState.ClickSearch | src/home.jsx:149 | the effect of a search for page 1 (`Searched`), with every outcome; the page stays at least 1 |
| HomePage.HomeState.ClickPrev | src/home.jsx:213-218 | no request and no change when hidden or on page 1; otherwise the full effect of a search for the previous page (`Searched`); the page stays at least 1 |
| HomePage.HomeState.ClickNext | src/home.jsx:222-227 | no request and no change when hidden or on the page equal to the count; otherwise the full effect of a search for the next page (`Searched`); the page stays at least 1 |
| HomePage.HomeState.FetchDefaultMovies | src/home.jsx:65-95 | one or two requests, the second (the fallback) only after an API failure; success fills results and sets page 1; a transport failure sets the load error; a failed fallback leaves results unchanged |
| HomePage.HomeState.ToggleFavorite | src/home.jsx:51-62 | the new list is the toggle of the old one and is written to storage; membership flips; unique ids stay unique; no other field changes |
| FavoritesPage.FavoritesState.constructor | src/Favorites.jsx:7 | the page starts with an empty list |
| FavoritesPage.FavoritesState.Mount | src/Favorites.jsx:10-13 | the list becomes the stored one, or empty when nothing is stored |
| FavoritesPage.FavoritesState.RemoveFavorite | src/Favorites.jsx:15-19 | the list is filtered by id and written to storage; no match remains; the rest keep their order; absent id means no change |
| App.FirstToggleOverwrites | src/home.jsx:11-62 | a freshly shown home page's first toggle stores a one-entry list, whatever was stored before |
| App.OpenFavoritesAfterToggle | src/Favorites.jsx:10-13 | after a toggle on the home page, the favorites page shows exactly the home page's list |
| App.ToggleTwice | src/home.jsx:51-62 | two toggles of an absent movie restore the list and the stored value, and the id stays absent |
| App.RemoveThenReopenFavorites | src/Favorites.jsx:10-19 | after a removal, reopening the favorites page shows the filtered list |
| App.NextPageSucceeds | src/home.jsx:222-227 | an enabled Next with a successful reply moves to the next page, shows its results and total, clears the error and keeps query and filters |
| App.PrevWithEmptyQuery | src/home.jsx:213-218 | with an empty query a Prev click requests nothing and changes no view field |

## Left out

- Network and async: `fetch`, `res.json()` and the ordering of `await`s are replaced by the `server` parameter. A late reply overwriting a newer one is a concurrency matter that is not modelled.
- JSON: storage holds an abstract `Option<seq<Movie>>`. A stored text that `JSON.parse` rejects makes the source throw; that path is not modelled.
- `parseInt(data.totalResults, 10)` is taken as an already-parsed `nat`; a non-numeric total (NaN) is not modelled.
- `new Date().getFullYear()` is the `currentYear` parameter; `process.env.REACT_APP_OMDB_API_KEY` is the `apiKey` parameter.
- The detail page and the modal are not part of this model: each makes one fetch and renders it. The movie card and the router configuration are not part of it either: they only render or route. The scratch file of fetch snippets is not part of it.
- Integer width: pages and years are exact integers here. JavaScript numbers are doubles, exact only below 2^53, and template literals print exponent form from 1e21 on. `Decimal.IntStringInjective` and `Search.SearchUrlDeterminesPage` are stated for the unbounded integers.
- UI-only state: the sidebar, the overlay, CSS classes, the poster placeholder and animations.
- That a successful page holds no more entries than `totalResults`, and that the API answers pages past the last with a failure, are promises of the remote API, not of this code, so they are not stated.

## Notes on the source

- Two toggles always restore the list when the movie's id was absent (`ToggleTwiceAbsent`). When the id was present, two toggles give the list without any entry of that id, with the movie appended once at the end (`ToggleTwicePresent`). That equals the original list only when the one entry with the id is the last entry and is equal to the movie.
- Loading on the favorites page handles only a missing value. Unparseable stored text is not treated as empty.
- An API failure empties the results but keeps `page` and `totalResults`, so the pagination controls of the previous search stay visible.
- The startup load does not clear `error` first, unlike `searchMovies`.
- `Pagination.NavigationStaysInRange` assumes the page does not exceed the page count, and the source does not maintain that. A success for page p with a total giving fewer than p pages leaves Next enabled, because the rule is an equality test.
- `Storage.LoadAfterStore` holds because the slot stores the list itself. Through JSON it would also depend on the serialisation round trip, which is not modelled.
