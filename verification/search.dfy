/**
 * The `useSearch` hook (src/hooks/useSearch.ts): the search box's query,
 * its debounced suggestion list, the visibility of that list, and the
 * searches it hands to the dashboard.
 *
 * Every asynchronous request is treated as completing before the next event
 * is handled; the hook has no guard against out-of-order responses, so none
 * is modelled.
 */
module SearchHook {
  import opened Wrappers
  import opened TmdbTypes
  import opened Text
  import opened TmdbService
  import opened Debounce

  /** The `useDebounce(query, 300)` delay, in milliseconds. */
  const DebounceDelay: nat := 300
  /** Suggestions show at most this many entries (`slice(0, 5)`). */
  const MaxSuggestions: nat := 5

  /**
   * The service as the hook sees it: what a request URL answers, and
   * `encodeURIComponent`, both left uninterpreted.
   */
  datatype Api = Api(remote: string -> Fetch<Page>, encode: string -> string)

  function Request(api: Api, endpoint: string): Fetch<Page> {
    api.remote(RequestUrl(endpoint))
  }

  function Min(a: nat, b: nat): nat {
    if a <= b then a else b
  }

  /**
   * `fetchSuggestions(searchQuery)`: nothing is requested for a blank query;
   * otherwise the first five results of the suggestion request, in order, or
   * none if the request fails.
   */
  function Suggestions(api: Api, t: MediaType, query: string): (r: seq<Media>)
    ensures |r| <= MaxSuggestions
    ensures IsBlank(query) ==> r == []
    ensures !IsBlank(query) ==>
      match Request(api, SuggestionsEndpoint(t, api.encode, query))
      case Ok(page) => |r| == Min(MaxSuggestions, |page.results|) && r == page.results[..|r|]
      case Failed => r == []
  {
    if Trim(query) == [] then []
    else
      match Request(api, SuggestionsEndpoint(t, api.encode, query))
      case Ok(page) => if |page.results| <= MaxSuggestions then page.results else page.results[..MaxSuggestions]
      case Failed => []
  }

  /** The hook's state; `debouncer` holds `debouncedQuery` and its timer. */
  datatype Hook = Hook(
    kind: MediaType,
    query: string,
    suggestions: seq<Media>,
    showSuggestions: bool,
    debouncer: Debouncer<string>)

  /**
   * What the hook's effects keep true between events: the debouncer follows
   * the query, and the suggestions are those of the debounced query.
   */
  predicate Consistent(api: Api, h: Hook) {
    h.debouncer.value == h.query && h.suggestions == Suggestions(api, h.kind, h.debouncer.debounced)
  }

  /** A freshly mounted hook: empty query, no suggestions, list hidden. */
  function Mount(api: Api, t: MediaType): (h: Hook)
    ensures Consistent(api, h)
    ensures h.query == "" && h.suggestions == [] && !h.showSuggestions
    ensures h.kind == t && h.debouncer.value == "" && h.debouncer.debounced == "" && h.debouncer.pending.None?
  {
    Hook(t, "", [], false, Start(""))
  }

  /**
   * Time passes until `now`: if the debounce timer fires and changes
   * `debouncedQuery`, the suggestion effect runs for the new value.
   */
  function Tick(api: Api, h: Hook, now: int): (h': Hook)
    ensures h'.kind == h.kind && h'.query == h.query && h'.showSuggestions == h.showSuggestions
    ensures h'.debouncer == Advance(h.debouncer, now)
    ensures Consistent(api, h) ==> Consistent(api, h')
  {
    var d := Advance(h.debouncer, now);
    if d.debounced == h.debouncer.debounced then h.(debouncer := d)
    else h.(debouncer := d, suggestions := Suggestions(api, h.kind, d.debounced))
  }

  /** `setQuery(text)` at time `t`. */
  function SetQuery(api: Api, h: Hook, t: int, text: string): (h': Hook)
    ensures h'.kind == h.kind && h'.query == text && h'.showSuggestions == h.showSuggestions
    ensures h'.debouncer == Set(h.debouncer, t, text, DebounceDelay)
    ensures Consistent(api, h) ==> Consistent(api, h')
  {
    var h1 := Tick(api, h, t);
    h1.(query := text, debouncer := Set(h.debouncer, t, text, DebounceDelay))
  }

  /** `handleInputChange`: the query becomes the typed text and the list is shown. */
  function HandleInputChange(api: Api, h: Hook, t: int, text: string): (h': Hook)
    ensures h'.query == text && h'.showSuggestions && h'.kind == h.kind
    ensures h'.debouncer == Set(h.debouncer, t, text, DebounceDelay)
    ensures Consistent(api, h) ==> Consistent(api, h')
  {
    SetQuery(api, h, t, text).(showSuggestions := true)
  }

  /** What a search hands to the dashboard: `onSearchStart` and then `onSearchComplete(results)`. */
  datatype SearchCall = NoSearch | Searched(query: string, results: seq<Media>)

  /** `service.search(query)`'s results, or none if it fails. */
  function SearchResults(api: Api, t: MediaType, query: string): seq<Media> {
    match Request(api, SearchEndpoint(t, api.encode, query))
    case Ok(page) => page.results
    case Failed => []
  }

  /**
   * `handleSearch(searchQuery)`: a blank query does nothing at all; any other
   * hides the list and completes with the first page of search results, or
   * with none if the request fails.
   */
  function HandleSearch(api: Api, h: Hook, query: string): (r: (Hook, SearchCall))
    ensures r.1.Searched? <==> !IsBlank(query)
    ensures IsBlank(query) ==> r.0 == h
    ensures !IsBlank(query) ==> r.0 == h.(showSuggestions := false)
    ensures r.1.Searched? ==> r.1.query == query
    ensures r.1.Searched? ==>
      match Request(api, SearchEndpoint(t := h.kind, encode := api.encode, query := query, page := 1))
      case Ok(page) => r.1.results == page.results
      case Failed => r.1.results == []
  {
    if Trim(query) == [] then (h, NoSearch)
    else (h.(showSuggestions := false), Searched(query, SearchResults(api, h.kind, query)))
  }

  /** The label shown for, and searched by, a suggestion. */
  function Label(m: Media): string {
    match m
    case MovieItem(_, title, _, _) => title
    case ShowItem(_, name, _, _) => name
  }

  /**
   * `handleSuggestionClick(suggestion)`: the query becomes the suggestion's
   * title (movies) or name (TV), the list is hidden, and exactly that text is
   * searched for.
   */
  function HandleSuggestionClick(api: Api, h: Hook, t: int, choice: Media): (r: (Hook, SearchCall))
    requires OfType(choice, h.kind)
    ensures r.0.query == (if h.kind == Movie then choice.title else choice.name)
    ensures !r.0.showSuggestions
    ensures r.0.kind == h.kind && r.0.debouncer == Set(h.debouncer, t, r.0.query, DebounceDelay)
    ensures r.1 == HandleSearch(api, r.0, r.0.query).1
    ensures Consistent(api, h) ==> Consistent(api, r.0)
  {
    var title := Label(choice);
    var h1 := SetQuery(api, h, t, title).(showSuggestions := false);
    HandleSearch(api, h1, title)
  }

  /** Inputs to the hook, each at a point in time. */
  datatype UiEvent =
    | Typed(time: int, text: string)
    | Submitted(time: int)
    | Picked(time: int, choice: Media)
    | ClickedOutside(time: int)
    | KindChanged(time: int, kind: MediaType)

  /**
   * One event, after letting time run to it: typing, submitting the form
   * (`handleSearch()` with the current query), picking a suggestion, a
   * mouse-down outside the box, or the dashboard switching media type (which
   * re-runs the suggestion effect for the new type).
   */
  function Step(api: Api, h: Hook, e: UiEvent): (r: (Hook, SearchCall))
    requires e.Picked? ==> OfType(e.choice, h.kind)
    ensures Consistent(api, h) ==> Consistent(api, r.0)
    ensures !e.Submitted? && !e.Picked? ==> r.1 == NoSearch
    ensures e.ClickedOutside? ==> !r.0.showSuggestions && r.0.query == h.query
    ensures e.Typed? ==> r.0.query == e.text && r.0.showSuggestions
    ensures e.Submitted? ==> (r.1.Searched? <==> !IsBlank(h.query))
    ensures e.Picked? ==>
      && r.0.query == Label(e.choice) && !r.0.showSuggestions
      && (r.1.Searched? <==> !IsBlank(Label(e.choice)))
    ensures e.KindChanged? ==> r.0.kind == e.kind && r.0.query == h.query
  {
    var h1 := Tick(api, h, e.time);
    match e
    case Typed(t, text) => (HandleInputChange(api, h1, t, text), NoSearch)
    case Submitted(_) => HandleSearch(api, h1, h1.query)
    case Picked(t, choice) => HandleSuggestionClick(api, h1, t, choice)
    case ClickedOutside(_) => (h1.(showSuggestions := false), NoSearch)
    case KindChanged(_, kind) =>
      (h1.(kind := kind, suggestions := Suggestions(api, kind, h1.debouncer.debounced)), NoSearch)
  }

  /** The hook after the given keystrokes, one `handleInputChange` each. */
  function TypeAll(api: Api, h: Hook, inputs: seq<Input<string>>): Hook {
    if |inputs| == 0 then h
    else
      var last := inputs[|inputs| - 1];
      HandleInputChange(api, TypeAll(api, h, inputs[..|inputs| - 1]), last.time, last.value)
  }

  lemma {:induction false} TypeAllRunsDebouncer(api: Api, kind: MediaType, inputs: seq<Input<string>>)
    ensures var h := TypeAll(api, Mount(api, kind), inputs);
      h.debouncer == Run("", DebounceDelay, inputs) && h.kind == kind && Consistent(api, h)
  {
    if |inputs| > 0 {
      TypeAllRunsDebouncer(api, kind, inputs[..|inputs| - 1]);
    }
  }

  /** After typing, the suggestions are those of the debounced query of the reference definition. */
  lemma SuggestionsFollowDebounce(api: Api, kind: MediaType, inputs: seq<Input<string>>, now: int)
    requires Sorted(inputs) && |inputs| > 0
    requires inputs[|inputs| - 1].time <= now
    ensures Tick(api, TypeAll(api, Mount(api, kind), inputs), now).suggestions
      == Suggestions(api, kind, LatestFired("", DebounceDelay, inputs, now, |inputs|))
  {
    TypeAllRunsDebouncer(api, kind, inputs);
    DebounceMatchesReference("", DebounceDelay, inputs, now);
  }

  /** Once typing has paused for 300 ms, the suggestions are those for the last text typed. */
  lemma SuggestionsSettle(api: Api, kind: MediaType, inputs: seq<Input<string>>, now: int)
    requires Sorted(inputs) && |inputs| > 0
    requires inputs[|inputs| - 1].time + DebounceDelay <= now
    ensures Tick(api, TypeAll(api, Mount(api, kind), inputs), now).suggestions
      == Suggestions(api, kind, inputs[|inputs| - 1].value)
  {
    TypeAllRunsDebouncer(api, kind, inputs);
    CatchesUp("", DebounceDelay, inputs, now);
  }
}
