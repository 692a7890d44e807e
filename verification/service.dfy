/**
 * The string-building half of the TMDB service layer (src/services/tmdb.ts):
 * request endpoints, image URLs and the empty-date fallback. The network
 * request itself is not modelled; see the search hook and the dashboard for
 * how a response is consumed.
 */
module TmdbService {
  import opened Wrappers
  import opened TmdbTypes
  import opened Text

  /** Every endpoint is requested under this base (`fetchFromTMDB`). */
  const BaseUrl: string := "https://api.themoviedb.org/3"

  /** The host and path prefix of every poster or backdrop URL. */
  const ImageBase: string := "https://image.tmdb.org/t/p/"

  /** What `formatDate` shows for a missing date. */
  const MissingDate: string := "N/A"

  /** The full URL `fetchFromTMDB` requests for an endpoint. */
  function RequestUrl(endpoint: string): (url: string)
    ensures |url| == |BaseUrl| + |endpoint|
    ensures url[..|BaseUrl|] == BaseUrl && url[|BaseUrl|..] == endpoint
  {
    BaseUrl + endpoint
  }

  function TypeSegment(t: MediaType): string {
    match t
    case Movie => "movie"
    case Tv => "tv"
  }

  /**
   * The popular-titles listing up to the `=` of its page parameter. The TV
   * listing filters on `origin_country`, the movie listing on
   * `with_origin_country`.
   */
  function PopularUpToPage(t: MediaType): string {
    match t
    case Movie => "/discover/movie?with_original_language=en&with_origin_country=US|GB|CA&sort_by=popularity.desc&page"
    case Tv => "/discover/tv?with_original_language=en&origin_country=US|GB|CA&sort_by=popularity.desc&page"
  }

  /** `getMovies.popular(page)` / `getTVShows.popular(page)`. */
  function PopularEndpoint(t: MediaType, page: int): string {
    PopularUpToPage(t) + "=" + IntToString(page)
  }

  /** `getMovies.details(id)` / `getTVShows.details(id)`. */
  function DetailsEndpoint(t: MediaType, id: int): string {
    "/" + TypeSegment(t) + "/" + IntToString(id)
  }

  /**
   * The common part of the two search endpoints, up to the `=` of the page
   * parameter. `encode` stands for `encodeURIComponent`, which is left
   * uninterpreted.
   */
  function SearchUpToPage(t: MediaType, encode: string -> string, query: string): (r: string)
    ensures |r| > 8 && r[8] == (if t == Movie then 'm' else 't')
  {
    var r := "/search/" + TypeSegment(t) + "?query=" + encode(query) + "&with_original_language=en&language=en&page";
    assert r[8] == TypeSegment(t)[0];
    r
  }

  /** `search(query, page = 1)`. */
  function SearchEndpoint(t: MediaType, encode: string -> string, query: string, page: int := 1): string {
    SearchUpToPage(t, encode, query) + "=" + IntToString(page)
  }

  /** The parameter the suggestion request adds after the page. */
  const AdultFilter := "&include_adult" + "=" + "false"

  /** `searchSuggestions(query)`. */
  function SuggestionsEndpoint(t: MediaType, encode: string -> string, query: string): string {
    SearchUpToPage(t, encode, query) + "=1" + AdultFilter
  }

  /** Recovers the media type and id from a details endpoint. */
  function ParseDetails(endpoint: string): Option<(MediaType, int)> {
    if |endpoint| >= 7 && endpoint[..7] == "/movie/" then
      match ParseInt(endpoint[7..])
      case Some(id) => Some((Movie, id))
      case None => None
    else if |endpoint| >= 4 && endpoint[..4] == "/tv/" then
      match ParseInt(endpoint[4..])
      case Some(id) => Some((Tv, id))
      case None => None
    else
      None
  }

  lemma MovieDetailsRoundTrip(id: int)
    ensures ParseDetails(DetailsEndpoint(Movie, id)) == Some((Movie, id))
  {
    var e := DetailsEndpoint(Movie, id);
    IntRoundTrip(id);
    assert e == "/movie/" + IntToString(id);
    assert e[..7] == "/movie/" && e[7..] == IntToString(id);
  }

  lemma ShowDetailsRoundTrip(id: int)
    ensures ParseDetails(DetailsEndpoint(Tv, id)) == Some((Tv, id))
  {
    var e := DetailsEndpoint(Tv, id);
    IntRoundTrip(id);
    assert e[1] == 't';
    assert !(|e| >= 7 && e[..7] == "/movie/") by {
      if |e| >= 7 {
        assert e[..7][1] == 't';
      }
    }
    assert e == "/tv/" + IntToString(id);
    assert e[..4] == "/tv/" && e[4..] == IntToString(id);
  }

  /** The media type and id can be read back from a details endpoint. */
  lemma DetailsRoundTrip(t: MediaType, id: int)
    ensures ParseDetails(DetailsEndpoint(t, id)) == Some((t, id))
  {
    if t == Movie {
      MovieDetailsRoundTrip(id);
    } else {
      ShowDetailsRoundTrip(id);
    }
  }

  /** Distinct titles have distinct detail endpoints. */
  lemma DetailsEndpointInjective(t: MediaType, id: int, t': MediaType, id': int)
    requires DetailsEndpoint(t, id) == DetailsEndpoint(t', id')
    ensures t == t' && id == id'
  {
    DetailsRoundTrip(t, id);
    DetailsRoundTrip(t', id');
  }

  /** The text after the last `=` of a query string. */
  function LastValue(s: string): (r: string)
    ensures |r| <= |s| && r == s[|s| - |r|..]
    ensures '=' !in r
  {
    if |s| == 0 || s[|s| - 1] == '=' then [] else LastValue(s[..|s| - 1]) + [s[|s| - 1]]
  }

  lemma {:induction false} LastValueAfterEquals(prefix: string, v: string)
    requires '=' !in v
    ensures LastValue(prefix + "=" + v) == v
    decreases |v|
  {
    var s := prefix + "=" + v;
    if |v| > 0 {
      var v' := v[..|v| - 1];
      assert s[..|s| - 1] == prefix + "=" + v';
      LastValueAfterEquals(prefix, v');
      assert v == v' + [v[|v| - 1]];
    }
  }

  /** The page a listing or search endpoint asks for: its last parameter, read as an integer. */
  function RequestedPage(endpoint: string): Option<int> {
    ParseInt(LastValue(endpoint))
  }

  /** The last parameter of `prefix=<n>` reads back as `n`. */
  lemma PageParameterRoundTrip(prefix: string, page: int)
    ensures RequestedPage(prefix + "=" + IntToString(page)) == Some(page)
  {
    IntToStringAvoids(page, '=');
    LastValueAfterEquals(prefix, IntToString(page));
    IntRoundTrip(page);
  }

  /** A popular-titles request names the page it was built for. */
  lemma PopularEndpointPage(t: MediaType, page: int)
    ensures RequestedPage(PopularEndpoint(t, page)) == Some(page)
  {
    PageParameterRoundTrip(PopularUpToPage(t), page);
  }

  /** A search request names the caller's page. */
  lemma SearchEndpointPage(t: MediaType, encode: string -> string, query: string, page: int)
    ensures RequestedPage(SearchEndpoint(t, encode, query, page)) == Some(page)
  {
    PageParameterRoundTrip(SearchUpToPage(t, encode, query), page);
  }

  /** A search request made without a page asks for page 1. */
  lemma SearchDefaultPage(t: MediaType, encode: string -> string, query: string)
    ensures RequestedPage(SearchEndpoint(t, encode, query)) == Some(1)
  {
    PageParameterRoundTrip(SearchUpToPage(t, encode, query), 1);
  }

  /** Equal search endpoints ask for the same media type and the same page. */
  lemma SearchEndpointInjective(t: MediaType, q: string, p: int, t': MediaType, q': string, p': int, encode: string -> string)
    requires SearchEndpoint(t, encode, q, p) == SearchEndpoint(t', encode, q', p')
    ensures t == t' && p == p'
  {
    SearchEndpointPage(t, encode, q, p);
    SearchEndpointPage(t', encode, q', p');
    assert SearchEndpoint(t, encode, q, p)[8] == SearchEndpoint(t', encode, q', p')[8];
  }

  lemma OneAsText()
    ensures IntToString(1) == "1"
  {
  }

  /** A suggestion request is the page-1 search request for the same text with adult titles excluded. */
  lemma SuggestionsExtendFirstPage(t: MediaType, encode: string -> string, query: string)
    ensures SuggestionsEndpoint(t, encode, query) == SearchEndpoint(t, encode, query, 1) + AdultFilter
  {
    OneAsText();
    assert "=" + "1" == "=1";
  }

  /** A suggestion request ends with the parameter `include_adult=false`, whose value is its last. */
  lemma SuggestionsExcludeAdult(t: MediaType, encode: string -> string, query: string)
    ensures var e := SuggestionsEndpoint(t, encode, query);
      |e| >= |AdultFilter| && e[|e| - |AdultFilter|..] == AdultFilter
    ensures LastValue(SuggestionsEndpoint(t, encode, query)) == "false"
  {
    var prefix := SearchUpToPage(t, encode, query);
    var e := SuggestionsEndpoint(t, encode, query);
    assert e == (prefix + "=1") + AdultFilter;
    assert e[|e| - |AdultFilter|..] == AdultFilter;
    assert prefix + "=1" + AdultFilter == (prefix + "=1" + "&include_adult") + "=" + "false";
    LastValueAfterEquals(prefix + "=1" + "&include_adult", "false");
  }


  /** `'w200' | 'w500' | 'original'`. */
  datatype ImageSize = W200 | W500 | Original

  function SizeToken(size: ImageSize): string {
    match size
    case W200 => "w200"
    case W500 => "w500"
    case Original => "original"
  }

  /**
   * `getImageUrl(path, size = 'w500')`. `defaultPoster` is the bundled
   * placeholder asset, whose URL the bundler chooses.
   */
  function GetImageUrl(defaultPoster: string, path: Option<string>, size: ImageSize := W500): (url: string)
    ensures path.None? || path.value == "" ==> url == defaultPoster
    ensures path.Some? && path.value != "" ==>
      |url| > |ImageBase| + |path.value| && url[..|ImageBase|] == ImageBase && url[|url| - |path.value|..] == path.value
  {
    if path.None? || path.value == "" then defaultPoster else ImageBase + SizeToken(size) + path.value
  }

  /** Splits an image URL into its size and the image path. */
  function ParseImageUrl(url: string): Option<(ImageSize, string)> {
    if |url| < |ImageBase| || url[..|ImageBase|] != ImageBase then None
    else
      var rest := url[|ImageBase|..];
      if |rest| >= 8 && rest[..8] == "original" then Some((Original, rest[8..]))
      else if |rest| >= 4 && rest[..4] == "w200" then Some((W200, rest[4..]))
      else if |rest| >= 4 && rest[..4] == "w500" then Some((W500, rest[4..]))
      else None
  }

  /** An image URL determines the size and the path it was built from; the default size is `w500`. */
  lemma ImageUrlRoundTrip(defaultPoster: string, path: string, size: ImageSize)
    requires path != ""
    ensures ParseImageUrl(GetImageUrl(defaultPoster, Some(path), size)) == Some((size, path))
    ensures ParseImageUrl(GetImageUrl(defaultPoster, Some(path))) == Some((W500, path))
  {
    forall sz: ImageSize ensures ParseImageUrl(GetImageUrl(defaultPoster, Some(path), sz)) == Some((sz, path)) {
      var url := GetImageUrl(defaultPoster, Some(path), sz);
      assert url[..|ImageBase|] == ImageBase;
      var rest := url[|ImageBase|..];
      assert rest == SizeToken(sz) + path;
      match sz
      case Original => assert rest[..8] == "original" && rest[8..] == path;
      case W200 =>
        assert rest[..4] == "w200" && rest[4..] == path;
        assert rest[0] == 'w';
      case W500 =>
        assert rest[..4] == "w500" && rest[4..] == path;
        assert rest[0] == 'w' && rest[1] == '5';
    }
  }

  /** `formatDate`: a missing (empty) date shows as `N/A`; any other goes to the locale formatter. */
  function FormatDate(localeFormat: string -> string, dateString: string): (shown: string)
    ensures dateString == "" ==> shown == MissingDate
    ensures dateString != "" ==> shown == localeFormat(dateString)
  {
    if dateString == "" then MissingDate else localeFormat(dateString)
  }
}
