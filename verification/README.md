# TMDB dashboard: aggregation, search and service-string model

A Dafny model of the logic inside a React dashboard that browses movies and TV
shows from The Movie Database (TMDB). Three pieces are modelled, each with the
network replaced by an oracle that answers a request or fails:

- **Category browsing** (`Aggregation`, `Dashboard`). `fetchCategoryData`
  fetches a page of a category feed and drops entries whose popularity is below
  1. It then keeps fetching the page after the last one returned until it has
  12 entries, the feed runs out, or 5 extra pages have been fetched. The
  controller around it covers the `loadMore` guard, the tab/category effect,
  the search hand-off and `displayData`. The loop is the method
  `Aggregation.Aggregate`. Its contract is a declarative description of the
  run (`IsChain`, `Completed`, `FailedAfter`), and `RunDeterministic` shows
  that this description determines the run.
- **Search box** (`Debounce`, `SearchHook`). `useDebounce` is modelled over
  integer time as a trailing-edge debouncer. It is proved equal to a reference
  definition that looks only at the inputs (`LatestFired`). `useSearch` is a
  state machine over typing, submitting, picking a suggestion, clicking
  outside and media-type changes. Each step keeps the suggestions equal to
  those of the debounced query (`Consistent`).
- **Service strings** (`TmdbService`, `Text`). These cover the endpoint paths,
  image URLs and the empty-date fallback. Each builder has a parser that
  reads back what it encoded: id, page, image size and path.

Oracles and parameters stand for what the code takes from outside:

- `Feeds` answers a page request for a (media type, category) pair.
- `Api.remote` answers a request URL.
- `Api.encode` is `encodeURIComponent`.
- `localeFormat` is `toLocaleDateString`.
- `defaultPoster` is the bundled placeholder image.

Each asynchronous run is treated as finishing before the next event.

Notes on the code's behaviour:

- There is no request-id guard against stale search or page responses.
- The debounce is trailing-edge and re-armed by every change. With keystrokes
  "a", "ab", "abc" at 0, 50 and 100 ms, "abcd" at 500 ms and a 300 ms delay,
  the debounced query changes twice: to "abc" at 400 ms and to "abcd" at
  800 ms (`DebounceExample.TwoPublications`).
- `hasMore` after a run is `last.page < last.total_pages`. When the run stops
  because the extra-page budget is spent, `hasMore` can still be true.
- A failed reload after a category switch leaves the list that was on screen
  (`Dashboard.SelectCategory`). A failed reload after a tab switch shows the
  list last stored for the new tab: empty on its first visit, otherwise
  whatever that tab held before (`Dashboard.SelectTab`).
- The dashboard's post-states assume the corrected effect trigger and
  search start described under "## Findings".

## Model

| member | source | states |
|---|---|---|
| `Aggregation.Aggregate` | src/pages/Dashboard.tsx:84-102 | The run succeeds exactly when it completes. The first request is the start page. Each later request is the last returned page + 1, made only while fewer than 12 entries are kept, that page is before `total_pages`, and fewer than 5 extra fetches were made. The result is the kept entries of every page in fetch order plus the last page. A success fetches at most 6 pages; a failure stops the run. |
| `Aggregation.Filter` | src/pages/Dashboard.tsx:89 | Filtering never lengthens the list. It keeps only entries that pass `shouldIncludeItem`. A page whose entries all pass comes back unchanged. |
| `Aggregation.FilterCounts` | src/pages/Dashboard.tsx:89-90 | Every popular entry keeps its number of occurrences, so duplicates are not removed. Every other entry occurs zero times. |
| `Aggregation.ShouldIncludeMeans` | src/pages/Dashboard.tsx:52 | An entry is kept iff its popularity is present and at least 1. A missing popularity counts as 0, so the entry is dropped. |
| `Aggregation.FilterAppend` | src/pages/Dashboard.tsx:100-101 | Filtering keeps order: filtering `a + b` gives the filtered `a` followed by the filtered `b`. |
| `Aggregation.KeptAppend` | src/pages/Dashboard.tsx:101 | The aggregated list of two runs of pages back to back is the concatenation of their aggregated lists. Nothing is re-sorted or de-duplicated. |
| `Aggregation.RunDeterministic` | src/pages/Dashboard.tsx:92-102 | The feed and start page determine the run. At most one page sequence completes, and a run that completes cannot also fail. |
| `Aggregation.FetchBudget` | src/pages/Dashboard.tsx:92-98 | A run makes at most `MAX_PAGE_ADVANCE + 1` = 6 requests. This includes the failed request of a failed run. |
| `Aggregation.StopReason` | src/pages/Dashboard.tsx:92-96 | A completed run stopped because at least 12 entries were kept, the last page reached `total_pages`, or 6 pages were fetched. |
| `Aggregation.FullFirstPage` | src/pages/Dashboard.tsx:88-96 | When the first page alone has 12 or more popular entries, exactly one request is made and the run completes. |
| `Aggregation.NothingPopular` | src/pages/Dashboard.tsx:89-101 | When no fetched entry is popular, the aggregated list is empty. The run then ended because the feed ran out or the budget was spent. |
| `AggregationExample.ThreePageRun` | src/pages/Dashboard.tsx:84-106 | A 3-page feed keeping 4, 5 and 10 entries is fetched to the end. The run stops because pages ran out, keeps all 19 entries in order, and leaves `hasMore` false. |
| `Debounce.DebounceMatchesReference` | src/hooks/useSearch.ts:6-15 | At any time no earlier than the last input, the debounced value is the latest input that changed the value and saw no further change within `delay`. With no such input it is the initial value. |
| `Debounce.CatchesUp` | src/hooks/useSearch.ts:9-12 | Once no input has arrived for `delay`, the debounced value equals the current input. |
| `Debounce.PendingTracksInput` | src/hooks/useSearch.ts:9-12 | A pending timer always carries the current input and falls due at most `delay` after the last input. With no timer pending, the output already equals the input. |
| `DebounceExample.TwoPublications` | src/hooks/useSearch.ts:30 | With keystrokes at 0, 50, 100 and 500 ms and a 300 ms delay, the debounced query becomes "abc" at 400 ms and "abcd" at 800 ms. |
| `Text.Trim` | src/hooks/useSearch.ts:33 | `trim()` yields the empty string exactly when every character is ECMAScript whitespace. Otherwise its result neither starts nor ends with whitespace. |
| `SearchHook.Suggestions` | src/hooks/useSearch.ts:32-46 | A blank query gives no suggestions, whatever the service would answer. Otherwise the suggestions are the first min(5, n) results in order. A failed request gives none. |
| `SearchHook.Tick` | src/hooks/useSearch.ts:48-50 | Letting time pass changes only the debouncer and the suggestions. The suggestions stay those of the debounced query. |
| `SearchHook.HandleInputChange` | src/hooks/useSearch.ts:63-66 | The query becomes the typed text and the suggestion list is shown. The debouncer is re-armed with that text for 300 ms, and the media type is kept. The suggestion invariant is kept. |
| `SearchHook.HandleSearch` | src/hooks/useSearch.ts:68-82 | A search happens iff the query is not blank. A blank query changes nothing. A search hides the list and completes with page 1 of the search results, or with none when the request fails. |
| `SearchHook.HandleSuggestionClick` | src/hooks/useSearch.ts:84-91 | The query becomes the movie's `title` or the show's `name`. The list is hidden. The debouncer is re-armed with the chosen text and the media type is kept. The search uses exactly that text. The suggestion invariant is kept. |
| `SearchHook.Step` | src/hooks/useSearch.ts:48-91 | Every event keeps the suggestions equal to those of the debounced query. Only submitting or picking a suggestion starts a search. Typing sets the query and shows the list. Submitting searches iff the query is not blank. Picking sets the query to the title or name, hides the list, and searches iff that label is not blank. A media-type change keeps the query. A click outside hides the list. |
| `SearchHook.SuggestionsFollowDebounce` | src/hooks/useSearch.ts:30-50 | After typing, the suggestions are those of the query the reference definition of the debouncer has published. |
| `SearchHook.SuggestionsSettle` | src/hooks/useSearch.ts:30-50 | After a 300 ms pause in typing, the suggestions are those of the last text typed. |
| `SearchHook.Mount` | src/hooks/useSearch.ts:25-30 | The hook starts for the dashboard's media type with an empty query, no suggestions and the list hidden. The debouncer starts idle on the empty query. The suggestion invariant holds. |
| `TmdbService.RequestUrl` | src/services/tmdb.ts:19-20 | Every request URL is `BASE_URL` followed by the endpoint. |
| `TmdbService.DetailsRoundTrip` | src/services/tmdb.ts:82-83 | The media type and id can be read back from `/movie/{id}` and `/tv/{id}`. |
| `TmdbService.DetailsEndpointInjective` | src/services/tmdb.ts:143-144 | Distinct (type, id) pairs give distinct details endpoints. |
| `TmdbService.PopularEndpointPage` | src/services/tmdb.ts:42-47 | A popular-titles request asks for exactly the page it was built for. |
| `TmdbService.SearchEndpointPage` | src/services/tmdb.ts:85-86 | A search request asks for exactly the page the caller gave. |
| `TmdbService.SearchDefaultPage` | src/services/tmdb.ts:85-86 | A search request made without a page asks for page 1. |
| `TmdbService.SearchEndpointInjective` | src/services/tmdb.ts:146-147 | Equal search endpoints ask for the same media type and page. |
| `TmdbService.SuggestionsExtendFirstPage` | src/services/tmdb.ts:88-89 | A suggestion request is the page-1 search request for the same text with `&include_adult=false` added. |
| `TmdbService.SuggestionsExcludeAdult` | src/services/tmdb.ts:88-89 | The last parameter of a suggestion request is `include_adult=false`, so adult titles are excluded. |
| `TmdbService.GetImageUrl` | src/services/tmdb.ts:154-157 | A null or empty path gives `defaultPoster`. Any other path gives a URL under `https://image.tmdb.org/t/p/` that ends with the path. |
| `TmdbService.ImageUrlRoundTrip` | src/services/tmdb.ts:154-156 | The size and path can be read back from an image URL. The size defaults to `w500`. |
| `TmdbService.FormatDate` | src/services/tmdb.ts:159-160 | An empty date shows as `N/A`. Any other date goes to the locale formatter. |
| `Dashboard.FetchCategoryData` | src/pages/Dashboard.tsx:43-138 | Past page 1 with `hasMore` false, nothing happens. Otherwise the run completes or fails. On success the page is the last returned, `hasMore` is `page < total_pages`, and the active list is `prev + kept` in append mode or `kept` otherwise. On failure `hasMore` is false and the lists are untouched. The other tab's list is never touched. |
| `Dashboard.Finish` | src/pages/Dashboard.tsx:104-137 | After the loop, the outcome sets the page, `hasMore` and the active list. A failure only clears `hasMore`. The loading flag of the mode is cleared. |
| `Dashboard.LoadMore` | src/pages/Dashboard.tsx:147-152 | Nothing happens while searching, loading, loading more, or with `hasMore` false. Otherwise page `currentPage + 1` is fetched in append mode, with the outcome of `FetchCategoryData`. A failure leaves the page counter advanced. The tab, category, search mode, search results, `initialLoading` and the other tab's list are unchanged. |
| `Dashboard.ResetAndFetch` | src/pages/Dashboard.tsx:140-145 | Search mode is left and results cleared. Page 1 is reloaded, replacing the list; on success the page and `hasMore` follow the last page returned. If the reload fails, the list stored for the active tab stays, the page is 1 and `hasMore` is false. Either way `initialLoading` ends false and `loadingMore` is unchanged. |
| `Dashboard.Mount` | src/pages/Dashboard.tsx:140-145 | The first render loads page 1 of popular movies: the load completes or fails. On success the movie list is the kept entries, with the page and `hasMore` of the last page returned. On failure the list is empty, the page is 1 and `hasMore` is false. Afterwards the Movies tab and Popular category are selected, search mode is off, the TV list is empty, neither loading flag is set, and more can be loaded exactly when the load completed before `total_pages`. |
| `Dashboard.SelectTab` | src/pages/Dashboard.tsx:229-254 | A tab button clears the search. The same tab keeps lists, paging and the loading flags. A new tab reloads from page 1 of its feed: on success it shows the kept entries with the page and `hasMore` of the last page; on failure it shows the list stored for the new tab, page 1, `hasMore` false. The old tab's list is kept. `loadingMore` is unchanged, and after a reload `initialLoading` is false. |
| `Dashboard.SelectCategory` | src/pages/Dashboard.tsx:258-263 | Only offered outside search mode. Picking the current category does nothing. A new one keeps the tab and the other tab's list, leaves search mode and reloads from page 1: on success the kept entries with the last page's page and `hasMore`; on failure the list on screen stays, page 1, `hasMore` false. `loadingMore` is unchanged, and after a reload `initialLoading` is false. |
| `Dashboard.ApplySearch` | src/pages/Dashboard.tsx:160-169 | A search puts the dashboard in search mode with its results and loading finished. The movie and TV lists, the tab and category and, with the corrected search start, the paging are untouched. |
| `Dashboard.SearchRoundTrip` | src/pages/Dashboard.tsx:147-176 | While searching, the results are displayed and scrolling loads nothing. Clearing shows the tab's list again without a refetch, and scrolling resumes after the last page loaded (corrected search start). |
| `Dashboard.DisplayData` | src/pages/Dashboard.tsx:176 | In search mode the search results are shown; otherwise the list of the selected tab, the movie list on the Movies tab and the TV list on the TV tab. |
| `Dashboard.SearchStart` | src/pages/Dashboard.tsx:160-164 | As written, starting a search enters search mode with loading on, resets paging to page 1 with `hasMore` true, and leaves the lists, tab, category, results and `loadingMore` alone. |
| `Dashboard.SearchComplete` | src/pages/Dashboard.tsx:166-169 | Results arrive: they become the search results and loading ends. Search mode, lists, tab, category, paging and `loadingMore` are unchanged. |
| `Dashboard.ClearSearch` | src/pages/Dashboard.tsx:171-174 | Clearing leaves search mode with no results, so the tab's list is displayed again. Lists, tab, category, paging and both loading flags are unchanged. |
| `Dashboard.PopularFeedRequestsPage` | src/services/tmdb.ts:42-47 | The popular feed the dashboard loop reads sends the remote service the popular endpoint for the requested tab and page, and that endpoint names exactly that page. |
| `Dashboard.SearchStartKeepingPage` | src/pages/Dashboard.tsx:160-164 | The corrected search start enters search mode and leaves the page counter, `hasMore`, the lists, tab, category and search results as they were. |
| `Dashboard.ScrollAfterSearchRepeatsAsWritten` | src/pages/Dashboard.tsx:147-176 | As written, after a search and its clearing, a list that holds pages 1 to n (n >= 2) is shown with paging reset, so the next scroll requests page 2 again. |
| `Dashboard.EndOfListRestartsAsWritten` | src/pages/Dashboard.tsx:138-145 | As written, reaching the last page flips `hasMore`, which re-runs the tab/category effect. The reset then flips `hasMore` back and re-runs it again. |
| `Dashboard.SearchAtEndCancelledAsWritten` | src/pages/Dashboard.tsx:160-164 | As written, a search started after the end of a category re-runs the effect, so the search results are never shown. |
| `Dashboard.ReloadLoopsAsWritten` | src/pages/Dashboard.tsx:128-145 | As written, an effect run that ends with `hasMore` false (a failed request, or a feed whose last page is reached) re-runs the effect, whose reset re-runs it again, and the same run returns the same state: the cycle never ends. |
| `Dashboard.EndOfListIsFinal` | src/pages/Dashboard.tsx:140-152 | With the effect keyed on tab and category, the end of a category keeps the full list and turns scrolling off. A later search shows its results. |
| `Dashboard.FinishNeverResets` | src/pages/Dashboard.tsx:140-145 | No fetch outcome or search changes the tab or category, so neither re-runs the effect. |

## Left out

- HTTP and JSON (`fetchFromTMDB`'s `fetch`, `response.ok`, `response.json()`): replaced by the `Feeds` and `Api.remote` oracles, which answer a page or fail.
- The recently-released and upcoming endpoints: they are built from the current date, so category feeds are an oracle per media type and category. Only the popular endpoint's string is modelled.
- The trending endpoints: the dashboard never requests them (its trending category is commented out), so they are not modelled.
- `encodeURIComponent`, `toLocaleDateString`, the bundled poster URL: left uninterpreted as parameters.
- `formatRating` and `formatYYYYMMDD`: floating-point and date formatting.
- Popularity is a `real`. A NaN score is not modelled.
- Integers render in decimal; JavaScript's exponent form for numbers of 10^21 and above is not modelled.
- Overlapping asynchronous runs and out-of-order responses: each run finishes before the next event.
- DOM plumbing: the IntersectionObserver (`loadMore` is called directly), the mousedown listener (a `ClickedOutside` event), image `onError` fallbacks, and real `setTimeout` (integer time instead).
- Presentation: JSX, the detail modal, the header collapse toggle and the selected-media state.
- Dashboard.Mount: the post-state assumes the corrected effect trigger. As written, a failed first load, or a feed that ends on its first run, re-runs the effect without end (`Dashboard.ReloadLoopsAsWritten`), so this state is left at once.
- Dashboard.LoadMore: the post-state assumes the corrected effect trigger. As written, a run that reaches the end of the feed or fails flips `hasMore` and re-runs the reset (`Dashboard.EndOfListRestartsAsWritten`).
- Dashboard.FetchCategoryData: as for `LoadMore`, the post-state is what the run leaves before any effect it triggers as written.
- SearchHook.HandleSuggestionClick: requires the suggestion to be of the hook's media type, the promise the source's `as Movie` / `as TVShow` casts make. A stale list of the other type would yield `undefined`, which is not modelled.

## Findings

| source | as written | input that shows it | evidently intended | confidence | as-written member | corrected member |
|---|---|---|---|---|---|---|
| src/pages/Dashboard.tsx:138-145 | `fetchCategoryData` is memoised on `[activeTab, selectedCategory, hasMore]`, and the reset effect depends on it, so every change of `hasMore` re-runs the reset. | Scroll to the last page of a category: `hasMore` becomes false, the effect resets to page 1 and reloads it, discarding the scrolled list. Or open a category whose first load fails or reaches `total_pages`: the load sets `hasMore` false, the reset sets it true, and the same load sets it false again, without end. A search started after the end of a category is cancelled. | The reset and reload run only when the tab or category changes. | medium, not executed | `Dashboard.EndOfListRestartsAsWritten`, `Dashboard.ReloadLoopsAsWritten` (trigger `Dashboard.ResetDueAsWritten`) | `Dashboard.EndOfListIsFinal` (trigger `Dashboard.ResetDue`, used by `SelectTab` and `SelectCategory`) |
| src/pages/Dashboard.tsx:160-164 | `handleSearchStart` calls `resetPagination`, but the category list is kept for when the search is cleared. | Scroll to page 3, search, then clear the search: pages 1 to 3 are shown with `currentPage` 1, so the next scroll requests page 2 and appends entries already in the list. | Search leaves the category list's paging alone, so scrolling resumes after page 3. | medium, not executed | `Dashboard.ScrollAfterSearchRepeatsAsWritten` (uses `Dashboard.SearchStart`) | `Dashboard.SearchRoundTrip` (uses `Dashboard.SearchStartKeepingPage`, through `Dashboard.ApplySearch`) |
