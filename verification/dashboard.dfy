/**
 * The dashboard's browsing controller (src/pages/Dashboard.tsx): which tab
 * and category are shown, the movie and TV lists built by the aggregation
 * loop, paging for infinite scroll, and the hand-off to search results.
 *
 * React state is a `View` record and each handler a transition on it. Each
 * `fetchCategoryData` run is treated as atomic: it finishes before the next
 * event is handled.
 */
module Dashboard {
  import opened Wrappers
  import opened TmdbTypes
  import opened Aggregation
  import opened SearchHook
  import opened TmdbService

  /** `CategoryType`. */
  datatype Category = Popular | Recent | Upcoming

  /**
   * The category feeds: what the service answers to a page request for a
   * media type and category (`getMovies.popular(page)`, `getTVShows.upcoming(page)`, ...).
   */
  type Feeds = (MediaType, Category, int) -> Fetch<Page>

  /** The feed `fetchCategoryData` reads for a tab and category. */
  function FeedOf(feeds: Feeds, tab: MediaType, category: Category): Feed {
    p => feeds(tab, category, p)
  }

  /**
   * The category feeds as the service builds them: the popular feed requests
   * `PopularEndpoint`; the date-based categories are left to `dated`.
   */
  function ServiceFeeds(api: Api, dated: Feeds): Feeds {
    (t, c, p) => if c == Popular then Request(api, PopularEndpoint(t, p)) else dated(t, c, p)
  }

  /** The popular feed the dashboard reads asks the service for exactly the page the loop wants. */
  lemma PopularFeedRequestsPage(api: Api, dated: Feeds, t: MediaType, page: int)
    ensures FeedOf(ServiceFeeds(api, dated), t, Popular)(page) == api.remote(RequestUrl(PopularEndpoint(t, page)))
    ensures RequestedPage(PopularEndpoint(t, page)) == Some(page)
  {
    var e := PopularEndpoint(t, page);
    assert ServiceFeeds(api, dated)(t, Popular, page) == Request(api, e);
    PopularEndpointPage(t, page);
  }

  /** The dashboard's state hooks. */
  datatype View = View(
    tab: MediaType,
    category: Category,
    movies: seq<Media>,
    shows: seq<Media>,
    searchResults: seq<Media>,
    initialLoading: bool,
    loadingMore: bool,
    searching: bool,
    currentPage: int,
    hasMore: bool)

  /** The state before the mount effect runs. */
  const Initial: View := View(Movie, Popular, [], [], [], true, false, false, 1, true)

  /** The list of the active tab. */
  function ActiveList(v: View): seq<Media> {
    if v.tab == Movie then v.movies else v.shows
  }

  /** The list of the other tab. */
  function OtherList(v: View): seq<Media> {
    if v.tab == Movie then v.shows else v.movies
  }

  /** `displayData`: search results while searching, else the active tab's list. */
  function DisplayData(v: View): (r: seq<Media>)
    ensures v.searching ==> r == v.searchResults
    ensures !v.searching ==> r == ActiveList(v) && r == (if v.tab == Movie then v.movies else v.shows)
  {
    if v.searching then v.searchResults else ActiveList(v)
  }

  /** Replaces the active tab's list. */
  function WithActiveList(v: View, items: seq<Media>): (v': View)
    ensures ActiveList(v') == items && OtherList(v') == OtherList(v) && v'.tab == v.tab
  {
    if v.tab == Movie then v.(movies := items) else v.(shows := items)
  }

  /**
   * The end of a `fetchCategoryData` run that passed its guard: on success
   * the page counter and `hasMore` follow the last page returned and the kept
   * entries replace or extend the active list; on failure only `hasMore`
   * drops. Either way the loading flag for the mode is cleared.
   */
  function Finish(v: View, append: bool, r: Fetch<Batch>): (v': View)
    ensures v'.tab == v.tab && v'.category == v.category && OtherList(v') == OtherList(v)
    ensures v'.searching == v.searching && v'.searchResults == v.searchResults
    ensures if append then !v'.loadingMore && v'.initialLoading == v.initialLoading
            else !v'.initialLoading && v'.loadingMore == v.loadingMore
    ensures r.Ok? ==>
      && ActiveList(v') == (if append then ActiveList(v) + r.value.items else r.value.items)
      && v'.currentPage == r.value.last.page
      && v'.hasMore == (r.value.last.page < r.value.last.totalPages)
    ensures r.Failed? ==> ActiveList(v') == ActiveList(v) && v'.currentPage == v.currentPage && !v'.hasMore
  {
    var settled := match r
      case Ok(b) =>
        WithActiveList(v, if append then ActiveList(v) + b.items else b.items)
          .(currentPage := b.last.page, hasMore := b.last.page < b.last.totalPages)
      case Failed => v.(hasMore := false);
    if append then settled.(loadingMore := false) else settled.(initialLoading := false)
  }

  /**
   * `fetchCategoryData(page, append)`. A request past page 1 when nothing
   * more is known to exist does nothing; otherwise the aggregation loop runs
   * on the active tab and category's feed from `page`.
   */
  method FetchCategoryData(v: View, feeds: Feeds, page: int, append: bool) returns (v': View, pages: seq<Page>)
    ensures !v.hasMore && page > 1 ==> v' == v && pages == []
    ensures v.hasMore || page <= 1 ==>
      var feed := FeedOf(feeds, v.tab, v.category);
      && (Completed(feed, page, pages) || FailedAfter(feed, page, pages))
      && (Completed(feed, page, pages) ==>
            && ActiveList(v') == (if append then ActiveList(v) + Kept(pages) else Kept(pages))
            && v'.currentPage == pages[|pages| - 1].page
            && v'.hasMore == (pages[|pages| - 1].page < pages[|pages| - 1].totalPages))
      && (FailedAfter(feed, page, pages) ==>
            ActiveList(v') == ActiveList(v) && v'.currentPage == v.currentPage && !v'.hasMore)
      && OtherList(v') == OtherList(v)
      && v'.tab == v.tab && v'.category == v.category
      && v'.searching == v.searching && v'.searchResults == v.searchResults
      && (if append then !v'.loadingMore && v'.initialLoading == v.initialLoading
          else !v'.initialLoading && v'.loadingMore == v.loadingMore)
  {
    if !v.hasMore && page > 1 {
      return v, [];
    }
    var feed := FeedOf(feeds, v.tab, v.category);
    var r;
    r, pages := Aggregate(feed, page);
    v' := Finish(v, append, r);
    if Completed(feed, page, pages) {
      RunDeterministic(feed, page, pages, pages);
    }
  }

  /** The guard of `loadMore`. */
  predicate CanLoadMore(v: View) {
    !v.searching && !v.initialLoading && !v.loadingMore && v.hasMore
  }

  /**
   * `loadMore`: unless searching, loading, or at the end, advance the page
   * counter and fetch the next page in append mode.
   */
  method LoadMore(v: View, feeds: Feeds) returns (v': View, pages: seq<Page>)
    ensures !CanLoadMore(v) ==> v' == v && pages == []
    ensures CanLoadMore(v) ==>
      var feed := FeedOf(feeds, v.tab, v.category);
      && (Completed(feed, v.currentPage + 1, pages) || FailedAfter(feed, v.currentPage + 1, pages))
      && (Completed(feed, v.currentPage + 1, pages) ==>
            && ActiveList(v') == ActiveList(v) + Kept(pages)
            && v'.currentPage == pages[|pages| - 1].page
            && v'.hasMore == (pages[|pages| - 1].page < pages[|pages| - 1].totalPages))
      && (FailedAfter(feed, v.currentPage + 1, pages) ==>
            ActiveList(v') == ActiveList(v) && v'.currentPage == v.currentPage + 1 && !v'.hasMore)
      && OtherList(v') == OtherList(v) && !v'.loadingMore
    ensures v'.tab == v.tab && v'.category == v.category
    ensures v'.searching == v.searching && v'.searchResults == v.searchResults
    ensures v'.initialLoading == v.initialLoading
  {
    if !CanLoadMore(v) {
      return v, [];
    }
    var nextPage := v.currentPage + 1;
    v', pages := FetchCategoryData(v.(currentPage := nextPage), feeds, nextPage, true);
  }

  /** `resetPagination`. */
  function ResetPagination(v: View): (v': View)
    ensures v'.currentPage == 1 && v'.hasMore
  {
    v.(currentPage := 1, hasMore := true)
  }

  /** The synchronous part of the tab/category effect: leave search mode and reset paging. */
  function ResetState(v: View): (v': View)
    ensures !v'.searching && v'.searchResults == [] && v'.currentPage == 1 && v'.hasMore
    ensures v'.tab == v.tab && v'.category == v.category && ActiveList(v') == ActiveList(v) && OtherList(v') == OtherList(v)
  {
    ResetPagination(v.(searching := false, searchResults := []))
  }

  /**
   * The tab/category effect: leave search mode, reset paging, and load the
   * first page afresh (replacing the list). If that load fails, the list
   * shown before stays in place.
   */
  method ResetAndFetch(v: View, feeds: Feeds) returns (v': View, pages: seq<Page>)
    ensures !v'.searching && v'.searchResults == [] && !v'.initialLoading && v'.loadingMore == v.loadingMore
    ensures v'.tab == v.tab && v'.category == v.category && OtherList(v') == OtherList(v)
    ensures var feed := FeedOf(feeds, v.tab, v.category);
      && (Completed(feed, 1, pages) || FailedAfter(feed, 1, pages))
      && (Completed(feed, 1, pages) ==>
            && DisplayData(v') == Kept(pages)
            && v'.currentPage == pages[|pages| - 1].page
            && v'.hasMore == (pages[|pages| - 1].page < pages[|pages| - 1].totalPages))
      && (FailedAfter(feed, 1, pages) ==> DisplayData(v') == ActiveList(v) && v'.currentPage == 1 && !v'.hasMore)
  {
    v', pages := FetchCategoryData(ResetState(v), feeds, 1, false);
  }

  /** The dashboard on first render: the effect runs once for the initial tab and category. */
  method Mount(feeds: Feeds) returns (v: View, pages: seq<Page>)
    ensures v.tab == Movie && v.category == Popular && !v.searching && v.searchResults == [] && v.shows == []
    ensures !v.initialLoading && !v.loadingMore
    ensures var feed := FeedOf(feeds, Movie, Popular);
      && (Completed(feed, 1, pages) || FailedAfter(feed, 1, pages))
      && (Completed(feed, 1, pages) ==>
            && v.movies == Kept(pages)
            && v.currentPage == pages[|pages| - 1].page
            && v.hasMore == (pages[|pages| - 1].page < pages[|pages| - 1].totalPages))
      && (FailedAfter(feed, 1, pages) ==> v.movies == [] && v.currentPage == 1 && !v.hasMore)
    ensures CanLoadMore(v) <==>
      Completed(FeedOf(feeds, Movie, Popular), 1, pages) && pages[|pages| - 1].page < pages[|pages| - 1].totalPages
  {
    v, pages := ResetAndFetch(Initial, feeds);
  }

  /**
   * When the tab/category effect re-runs: when the tab or the category
   * changed. (The source re-runs it on `hasMore` changes too; see
   * `ResetDueAsWritten`.)
   */
  predicate ResetDue(before: View, after: View) {
    before.tab != after.tab || before.category != after.category
  }

  /**
   * A tab button: switch tab and clear the search; if the tab actually
   * changed, the effect reloads the new tab's list from page 1.
   */
  method SelectTab(v: View, feeds: Feeds, tab: MediaType) returns (v': View, pages: seq<Page>)
    ensures v'.tab == tab && v'.category == v.category && !v'.searching && v'.searchResults == []
    ensures v'.loadingMore == v.loadingMore
    ensures tab != v.tab ==> !v'.initialLoading
    ensures tab == v.tab ==>
      && pages == [] && DisplayData(v') == ActiveList(v) && v'.movies == v.movies && v'.shows == v.shows
      && v'.currentPage == v.currentPage && v'.hasMore == v.hasMore && v'.initialLoading == v.initialLoading
    ensures tab != v.tab ==>
      var feed := FeedOf(feeds, tab, v.category);
      && (Completed(feed, 1, pages) || FailedAfter(feed, 1, pages))
      && (Completed(feed, 1, pages) ==>
            && DisplayData(v') == Kept(pages)
            && v'.currentPage == pages[|pages| - 1].page
            && v'.hasMore == (pages[|pages| - 1].page < pages[|pages| - 1].totalPages))
      && (FailedAfter(feed, 1, pages) ==>
            DisplayData(v') == (if tab == Movie then v.movies else v.shows) && v'.currentPage == 1 && !v'.hasMore)
      && ActiveList(v) == OtherList(v')
  {
    var v1 := v.(tab := tab, searching := false, searchResults := []);
    if ResetDue(v, v1) {
      v', pages := ResetAndFetch(v1, feeds);
    } else {
      v', pages := v1, [];
    }
  }

  /**
   * A category button: if the category changed, the effect reloads from
   * page 1. The buttons are only rendered outside search mode.
   */
  method SelectCategory(v: View, feeds: Feeds, category: Category) returns (v': View, pages: seq<Page>)
    requires !v.searching
    ensures v'.tab == v.tab && OtherList(v') == OtherList(v) && v'.loadingMore == v.loadingMore
    ensures category != v.category ==> !v'.initialLoading
    ensures category == v.category ==> v' == v && pages == []
    ensures category != v.category ==>
      var feed := FeedOf(feeds, v.tab, category);
      && v'.category == category && !v'.searching && v'.searchResults == []
      && (Completed(feed, 1, pages) || FailedAfter(feed, 1, pages))
      && (Completed(feed, 1, pages) ==>
            && DisplayData(v') == Kept(pages)
            && v'.currentPage == pages[|pages| - 1].page
            && v'.hasMore == (pages[|pages| - 1].page < pages[|pages| - 1].totalPages))
      && (FailedAfter(feed, 1, pages) ==> DisplayData(v') == ActiveList(v) && v'.currentPage == 1 && !v'.hasMore)
  {
    var v1 := v.(category := category);
    if ResetDue(v, v1) {
      v', pages := ResetAndFetch(v1, feeds);
    } else {
      v', pages := v, [];
    }
  }

  /**
   * `handleSearchStart` as written: enter search mode and reset paging to
   * page 1 with `hasMore` set, although the category list is kept.
   */
  function SearchStart(v: View): (v': View)
    ensures v'.searching && v'.initialLoading && v'.currentPage == 1 && v'.hasMore
    ensures v'.movies == v.movies && v'.shows == v.shows && v'.tab == v.tab && v'.category == v.category
    ensures v'.searchResults == v.searchResults && v'.loadingMore == v.loadingMore
  {
    ResetPagination(v.(initialLoading := true, searching := true))
  }

  /**
   * `handleSearchStart` without the paging reset: search results are not
   * paged, so the category list's paging is left for when the search is
   * cleared.
   */
  function SearchStartKeepingPage(v: View): (v': View)
    ensures v'.searching && v'.initialLoading && v'.searchResults == v.searchResults
    ensures v'.currentPage == v.currentPage && v'.hasMore == v.hasMore && v'.loadingMore == v.loadingMore
    ensures v'.movies == v.movies && v'.shows == v.shows && v'.tab == v.tab && v'.category == v.category
  {
    v.(initialLoading := true, searching := true)
  }

  /** `handleSearchComplete(results)`: store the results and end the loading state. */
  function SearchComplete(v: View, results: seq<Media>): (v': View)
    ensures v'.searchResults == results && !v'.initialLoading && v'.searching == v.searching
    ensures v'.movies == v.movies && v'.shows == v.shows && v'.tab == v.tab && v'.category == v.category
    ensures v'.currentPage == v.currentPage && v'.hasMore == v.hasMore && v'.loadingMore == v.loadingMore
  {
    v.(searchResults := results, initialLoading := false)
  }

  /** `handleClearSearch`: leave search mode and drop the results; the lists and paging stay. */
  function ClearSearch(v: View): (v': View)
    ensures !v'.searching && v'.searchResults == [] && DisplayData(v') == ActiveList(v)
    ensures v'.movies == v.movies && v'.shows == v.shows && v'.tab == v.tab && v'.category == v.category
    ensures v'.currentPage == v.currentPage && v'.hasMore == v.hasMore
    ensures v'.initialLoading == v.initialLoading && v'.loadingMore == v.loadingMore
  {
    v.(searching := false, searchResults := [])
  }

  /** What the search box's callbacks do to the dashboard for one search. */
  function ApplySearch(v: View, call: SearchCall): (v': View)
    ensures call.NoSearch? ==> v' == v
    ensures call.Searched? ==> v'.searching && !v'.initialLoading && v'.searchResults == call.results
    ensures v'.movies == v.movies && v'.shows == v.shows && v'.tab == v.tab && v'.category == v.category
    ensures v'.currentPage == v.currentPage && v'.hasMore == v.hasMore && v'.loadingMore == v.loadingMore
  {
    match call
    case NoSearch => v
    case Searched(_, results) => SearchComplete(SearchStartKeepingPage(v), results)
  }

  /**
   * While searching the search results are shown and scrolling loads
   * nothing; clearing the search shows the tab's list again without
   * refetching it, and scrolling resumes after the last page loaded.
   */
  lemma SearchRoundTrip(v: View, query: string, results: seq<Media>)
    ensures var s := ApplySearch(v, Searched(query, results));
      && DisplayData(s) == results
      && !CanLoadMore(s)
      && var w := ClearSearch(s);
      && DisplayData(w) == ActiveList(v) && w.movies == v.movies && w.shows == v.shows
      && w.currentPage == v.currentPage && w.hasMore == v.hasMore
      && CanLoadMore(w) == (!v.loadingMore && v.hasMore)
  {
  }

  /**
   * As written, a search resets paging while the category list stays: once
   * the search is cleared, the list still holds pages 1 to `currentPage`,
   * but the next scroll asks for page 2 and appends it again.
   */
  lemma ScrollAfterSearchRepeatsAsWritten(v: View, results: seq<Media>)
    requires CanLoadMore(v) && v.currentPage >= 2
    ensures var w := ClearSearch(SearchComplete(SearchStart(v), results));
      && DisplayData(w) == ActiveList(v)
      && CanLoadMore(w)
      && w.currentPage + 1 == 2
      && w.currentPage + 1 <= v.currentPage
  {
  }

  // ---------------------------------------------------------------------
  // The effect's dependencies as written.

  /**
   * When the effect re-runs as written: its dependency `fetchCategoryData`
   * is a `useCallback` over `[activeTab, selectedCategory, hasMore]`, so a
   * change of `hasMore` alone re-runs it too.
   */
  predicate ResetDueAsWritten(before: View, after: View) {
    before.tab != after.tab || before.category != after.category || before.hasMore != after.hasMore
  }

  /**
   * As written, scrolling onto the last page of a category re-runs the
   * effect: search mode is left, paging goes back to page 1 (so the effect
   * runs yet again when `hasMore` flips back), and the list is reloaded from
   * page 1, replacing everything scrolled so far.
   */
  lemma EndOfListRestartsAsWritten(v: View, b: Batch)
    requires CanLoadMore(v)
    requires b.last.page >= b.last.totalPages
    ensures var after := Finish(v.(currentPage := v.currentPage + 1), true, Ok(b));
      && !after.hasMore
      && ResetDueAsWritten(v, after)
      && !ResetDue(v, after)
      && ResetState(after).currentPage == 1
      && ResetDueAsWritten(after, ResetState(after))
  {
  }

  /**
   * As written, starting a search after reaching the end of a category
   * re-runs the effect (`handleSearchStart` sets `hasMore` back to true),
   * which leaves search mode at once: the results are stored but not shown.
   * The premise `!v.hasMore` is, as written, itself left at once: whether a
   * scroll or an effect run set it, the effect re-runs
   * (`EndOfListRestartsAsWritten`, `ReloadLoopsAsWritten`), so the search has
   * to start before that re-run for this to apply.
   */
  lemma SearchAtEndCancelledAsWritten(v: View, query: string, results: seq<Media>)
    requires !v.hasMore
    ensures var started := SearchStart(v);
      && ResetDueAsWritten(v, started)
      && !ResetDue(v, started)
      && DisplayData(SearchComplete(ResetState(started), results)) == ActiveList(v)
  {
  }

  /**
   * As written, a run started by the effect that ends with `hasMore` false
   * (a failed request, or a feed whose last page is reached) re-runs the
   * effect, whose reset sets `hasMore` again and re-runs it once more; the
   * same run then brings back the same state, so the cycle never ends.
   */
  lemma ReloadLoopsAsWritten(v: View, r: Fetch<Batch>)
    requires r.Failed? || r.value.last.page >= r.value.last.totalPages
    ensures var reset := ResetState(v);
      var after := Finish(reset, false, r);
      && !after.hasMore
      && ResetDueAsWritten(reset, after)
      && ResetDueAsWritten(after, ResetState(after))
      && Finish(ResetState(after), false, r) == after
  {
  }

  /**
   * With the effect keyed on tab and category only, no fetch outcome and no
   * search re-runs it: reaching the end of a category leaves the whole list
   * in place with scrolling switched off, and a search shows its results.
   */
  lemma EndOfListIsFinal(v: View, b: Batch, query: string, results: seq<Media>)
    requires CanLoadMore(v)
    requires b.last.page >= b.last.totalPages
    ensures var after := Finish(v.(currentPage := v.currentPage + 1), true, Ok(b));
      && !ResetDue(v, after)
      && ActiveList(after) == ActiveList(v) + b.items
      && !after.hasMore && !CanLoadMore(after)
      && var searched := ApplySearch(after, Searched(query, results));
      && !ResetDue(after, searched)
      && DisplayData(searched) == results
  {
  }

  /** Neither a fetch outcome nor a search re-runs the tab/category effect. */
  lemma FinishNeverResets(v: View, append: bool, r: Fetch<Batch>, call: SearchCall)
    ensures !ResetDue(v, Finish(v, append, r))
    ensures !ResetDue(v, ApplySearch(v, call))
  {
  }
}
