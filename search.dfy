/** The requests the home page sends to the movie API and the replies it can get back. */
module Search {
  import opened Wrappers
  import opened Movies
  import opened Decimal

  /** What one `fetch` followed by `res.json()` yields: a reply whose `Response` is
      `"True"` (the page of results and the already-parsed `totalResults`), any other reply
      (with its optional `Error` text), or a rejected promise. */
  datatype Response = Ok(search: seq<Movie>, total: nat) | ApiErr(msg: Option<string>) | NetErr

  /** Every request starts with the API endpoint and the credential parameter. */
  const Endpoint := "https://www.omdbapi.com/?apikey="

  const NoMoviesFound := "No movies found"
  const NetworkError := "Network error. Try again!"
  const DefaultLoadError := "Could not load default movies"

  /** The query of the startup fallback request. */
  const FallbackQuery := "avengers"

  /** `...&s=<query>&page=`: everything of a search request before the page number. */
  function SearchHead(apiKey: string, query: string): string {
    Endpoint + apiKey + "&s=" + query + "&page="
  }

  /** `...&s=<query>&page=<newPage>`: the part of a search request every search has. */
  function BaseSearchUrl(apiKey: string, query: string, newPage: int): string {
    SearchHead(apiKey, query) + IntString(newPage)
  }

  /** `&type=<type>` when a type is chosen, nothing otherwise. */
  function TypeParam(typeFilter: string): string {
    if typeFilter != "" then "&type=" + typeFilter else ""
  }

  /** `&y=<year>` when a year is given, nothing otherwise. */
  function YearParam(year: string): string {
    if year != "" then "&y=" + year else ""
  }

  /** The URL `searchMovies` fetches: the base, then the type, then the year. The query
      and the filters are inserted verbatim, without URL encoding. */
  function SearchUrl(apiKey: string, query: string, newPage: int, typeFilter: string, year: string): string {
    BaseSearchUrl(apiKey, query, newPage) + TypeParam(typeFilter) + YearParam(year)
  }

  /** The first startup request: movies of the current year, first page. */
  function DefaultUrl(apiKey: string, currentYear: int): string {
    Endpoint + apiKey + "&s=movie&y=" + IntString(currentYear) + "&page=1"
  }

  /** The second startup request, sent only when the first finds nothing. */
  function FallbackUrl(apiKey: string): string {
    Endpoint + apiKey + "&s=" + FallbackQuery + "&page=1"
  }

  /** `data.Error || "No movies found"`: a missing or empty API message falls back to the
      fixed text, so the message shown is never empty. */
  function ApiErrorText(msg: Option<string>): (r: string)
    ensures r != ""
    ensures msg.Some? && msg.value != "" ==> r == msg.value
    ensures msg.None? || msg.value == "" ==> r == NoMoviesFound
  {
    match msg
    case Some(text) => if text != "" then text else NoMoviesFound
    case None => NoMoviesFound
  }

  /** The three pieces of `a + b + c` can be read back from it. */
  lemma SplitThree(a: string, b: string, c: string)
    ensures var s := a + b + c;
      |s| == |a| + |b| + |c| && s[..|a|] == a && s[|a|..|a| + |b|] == b && s[|a| + |b|..] == c
  {
    var s := a + b + c;
    assert s[..|a|] == a;
    assert s[|a|..|a| + |b|] == b;
    assert s[|a| + |b|..] == c;
  }

  /** Where the optional parameters land: the search request starts with the base part,
      `&type=<type>` follows it exactly when a type is chosen, `&y=<year>` ends the URL
      exactly when a year is given, and nothing else is added. */
  lemma SearchUrlLayout(apiKey: string, query: string, newPage: int, typeFilter: string, year: string)
    ensures var base := BaseSearchUrl(apiKey, query, newPage);
      var url := SearchUrl(apiKey, query, newPage, typeFilter, year);
      && |url| == |base| + (if typeFilter != "" then 6 + |typeFilter| else 0) + (if year != "" then 3 + |year| else 0)
      && url[..|base|] == base
      && (typeFilter != "" ==> url[|base|..|base| + 6 + |typeFilter|] == "&type=" + typeFilter)
      && (year != "" ==> url[|url| - 3 - |year|..] == "&y=" + year)
  {
    SplitThree(BaseSearchUrl(apiKey, query, newPage), TypeParam(typeFilter), YearParam(year));
  }

  /** Equal strings with the same head and the same two trailing parts have the same middle. */
  lemma CancelMiddle(head: string, x: string, y: string, a: string, b: string)
    requires head + x + a + b == head + y + a + b
    ensures x == y
  {
    var s := head + x + a + b;
    assert |x| == |y|;
    assert s[|head|..|head| + |x|] == x;
    assert (head + y + a + b)[|head|..|head| + |y|] == y;
  }

  /** Two search requests that differ only in the page number are different requests. */
  lemma SearchUrlDeterminesPage(apiKey: string, query: string, p: int, q: int, typeFilter: string, year: string)
    requires SearchUrl(apiKey, query, p, typeFilter, year) == SearchUrl(apiKey, query, q, typeFilter, year)
    ensures p == q
  {
    CancelMiddle(SearchHead(apiKey, query), IntString(p), IntString(q), TypeParam(typeFilter), YearParam(year));
    IntStringInjective(p, q);
  }

  /** The fallback request is exactly the one a user search for "avengers" on page 1 with
      no filters sends; the year request is not a filtered search, because it puts `y`
      before `page`. */
  lemma FallbackIsPlainSearch(apiKey: string)
    ensures FallbackUrl(apiKey) == SearchUrl(apiKey, FallbackQuery, 1, "", "")
  {
    assert IntString(1) == "1";
  }
}
