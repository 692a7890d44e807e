/**
 * The page-aggregation (backfill) loop of `fetchCategoryData`
 * (src/pages/Dashboard.tsx): fetch a page of a category feed, drop the
 * unpopular entries, and keep fetching the page after the last one returned
 * until enough entries are kept, the feed runs out, or the extra-fetch budget
 * is spent.
 */
module Aggregation {
  import opened Wrappers
  import opened TmdbTypes

  /** `MIN_POPULARITY`: entries scoring below this are hidden. */
  const MinPopularity: real := 1.0
  /** `MIN_RESULTS`: backfilling stops once this many entries are kept. */
  const MinResults: nat := 12
  /** `MAX_PAGE_ADVANCE`: at most this many pages are fetched after the first. */
  const MaxPageAdvance: nat := 5

  /** A category feed: the page requested, and what the service answers. */
  type Feed = int -> Fetch<Page>

  /** `shouldIncludeItem`: `(item.popularity ?? 0) >= MIN_POPULARITY`. */
  predicate ShouldInclude(m: Media) {
    m.popularity.GetOr(0.0) >= MinPopularity
  }

  /** `results.filter(shouldIncludeItem)`. */
  function Filter(items: seq<Media>): (kept: seq<Media>)
    ensures |kept| <= |items|
    ensures forall i :: 0 <= i < |kept| ==> ShouldInclude(kept[i])
    ensures (forall i :: 0 <= i < |items| ==> ShouldInclude(items[i])) ==> kept == items
  {
    if |items| == 0 then []
    else
      var init := items[..|items| - 1];
      var last := items[|items| - 1];
      assert items == init + [last];
      Filter(init) + (if ShouldInclude(last) then [last] else [])
  }

  /**
   * Filtering drops every entry below the floor and keeps every other one,
   * as often as it occurs: duplicates are not removed.
   */
  lemma {:induction false} FilterCounts(items: seq<Media>)
    ensures forall m :: multiset(Filter(items))[m] == if ShouldInclude(m) then multiset(items)[m] else 0
  {
    if |items| > 0 {
      var init := items[..|items| - 1];
      assert items == init + [items[|items| - 1]];
      FilterCounts(init);
    }
  }

  /** An entry is kept exactly when it has a popularity score of at least 1. */
  lemma ShouldIncludeMeans(m: Media)
    ensures ShouldInclude(m) <==> m.popularity.Some? && m.popularity.value >= 1.0
    ensures m.popularity.None? ==> !ShouldInclude(m)
  {
  }

  /** Filtering keeps order: filtering two runs back to back is filtering each in turn. */
  lemma {:induction false} FilterAppend(a: seq<Media>, b: seq<Media>)
    ensures Filter(a + b) == Filter(a) + Filter(b)
    decreases |b|
  {
    if |b| == 0 {
      assert a + b == a;
    } else {
      var b' := b[..|b| - 1];
      assert (a + b)[..|a + b| - 1] == a + b';
      assert (a + b)[|a + b| - 1] == b[|b| - 1];
      FilterAppend(a, b');
    }
  }

  /** The kept entries of a run of pages, in fetch order, duplicates included. */
  function Kept(pages: seq<Page>): (kept: seq<Media>)
    ensures forall i :: 0 <= i < |kept| ==> ShouldInclude(kept[i])
  {
    if |pages| == 0 then []
    else
      var before := Kept(pages[..|pages| - 1]);
      before + Filter(pages[|pages| - 1].results)
  }

  /** One more page adds its kept entries at the end. */
  lemma KeptSnoc(ps: seq<Page>, p: Page)
    ensures Kept(ps + [p]) == Kept(ps) + Filter(p.results)
  {
    assert (ps + [p])[..|ps|] == ps;
  }

  /** Aggregating two runs of pages back to back concatenates their kept entries. */
  lemma {:induction false} KeptAppend(ps: seq<Page>, qs: seq<Page>)
    ensures Kept(ps + qs) == Kept(ps) + Kept(qs)
    decreases |qs|
  {
    if |qs| == 0 {
      assert ps + qs == ps;
    } else {
      var qs' := qs[..|qs| - 1];
      assert (ps + qs)[..|ps + qs| - 1] == ps + qs';
      KeptAppend(ps, qs');
    }
  }

  /**
   * The loop condition once the pages `ps` have been fetched (so
   * `attempts == |ps| - 1`): too few entries kept, the last page is not the
   * last of the feed, and the budget is not spent.
   */
  predicate GoesOn(ps: seq<Page>)
    requires |ps| >= 1
  {
    |Kept(ps)| < MinResults && ps[|ps| - 1].page < ps[|ps| - 1].totalPages && |ps| - 1 < MaxPageAdvance
  }

  /**
   * `ps` are the pages a run from `start` fetches, in order, each request
   * succeeding: the first asks for `start`, and each later one asks for the
   * page after the one last returned, made only while the loop condition held.
   */
  predicate IsChain(fetch: Feed, start: int, ps: seq<Page>)
    decreases |ps|
  {
    if |ps| <= 1 then
      |ps| == 1 && fetch(start) == Ok(ps[0])
    else
      var init := ps[..|ps| - 1];
      && IsChain(fetch, start, init)
      && GoesOn(init)
      && fetch(init[|init| - 1].page + 1) == Ok(ps[|ps| - 1])
  }

  /** The run fetched `ps` and then stopped because the loop condition failed. */
  predicate Completed(fetch: Feed, start: int, ps: seq<Page>) {
    IsChain(fetch, start, ps) && !GoesOn(ps)
  }

  /** The run fetched `ps` and then a further request, which failed. */
  predicate FailedAfter(fetch: Feed, start: int, ps: seq<Page>) {
    if |ps| == 0 then fetch(start).Failed?
    else IsChain(fetch, start, ps) && GoesOn(ps) && fetch(ps[|ps| - 1].page + 1).Failed?
  }

  /** What a successful run hands to the dashboard: the kept entries and the last page returned. */
  datatype Batch = Batch(items: seq<Media>, last: Page)

  /**
   * The loop of `fetchCategoryData` for one feed. `pages` are the pages that
   * came back; a failure anywhere makes the whole run fail.
   */
  method Aggregate(fetch: Feed, start: int) returns (r: Fetch<Batch>, pages: seq<Page>)
    ensures r.Ok? ==> Completed(fetch, start, pages) && r.value == Batch(Kept(pages), pages[|pages| - 1])
    ensures r.Failed? ==> FailedAfter(fetch, start, pages)
    ensures r.Ok? ==> |pages| <= MaxPageAdvance + 1
    ensures r.Failed? ==> |pages| <= MaxPageAdvance
  {
    var first := fetch(start);
    if first.Failed? {
      return Failed, [];
    }
    var data := first.value;
    var aggregated := Filter(data.results);
    pages := [data];
    assert Kept(pages) == aggregated by {
      assert pages[..0] == [];
    }
    var attempts := 0;
    while |aggregated| < MinResults && data.page < data.totalPages && attempts < MaxPageAdvance
      invariant |pages| == attempts + 1 && attempts <= MaxPageAdvance
      invariant IsChain(fetch, start, pages)
      invariant data == pages[|pages| - 1]
      invariant aggregated == Kept(pages)
      decreases MaxPageAdvance - attempts
    {
      var activePage := data.page + 1;
      attempts := attempts + 1;
      var next := fetch(activePage);
      if next.Failed? {
        return Failed, pages;
      }
      data := next.value;
      ChainExtend(fetch, start, pages, data);
      KeptSnoc(pages, data);
      pages := pages + [data];
      aggregated := aggregated + Filter(data.results);
    }
    r := Ok(Batch(aggregated, data));
  }

  /** A chain whose loop condition still holds extends by the page fetched next. */
  lemma ChainExtend(fetch: Feed, start: int, ps: seq<Page>, p: Page)
    requires IsChain(fetch, start, ps) && GoesOn(ps)
    requires fetch(ps[|ps| - 1].page + 1) == Ok(p)
    ensures IsChain(fetch, start, ps + [p])
  {
    assert (ps + [p])[..|ps|] == ps;
  }

  /** Every chain starts with the page `start` returned. */
  lemma {:induction false} ChainStart(fetch: Feed, start: int, ps: seq<Page>)
    requires IsChain(fetch, start, ps)
    ensures fetch(start) == Ok(ps[0])
    decreases |ps|
  {
    if |ps| > 1 {
      var init := ps[..|ps| - 1];
      ChainStart(fetch, start, init);
      assert init[0] == ps[0];
    }
  }

  /**
   * A run that fetched `ps` went on past each non-empty proper prefix
   * exactly as the chain says: the loop condition held and the next request
   * returned the next page.
   */
  lemma {:induction false} ChainPrefix(fetch: Feed, start: int, ps: seq<Page>, n: nat)
    requires IsChain(fetch, start, ps) && 1 <= n < |ps|
    ensures GoesOn(ps[..n])
    ensures fetch(ps[n - 1].page + 1) == Ok(ps[n])
    decreases |ps|
  {
    var init := ps[..|ps| - 1];
    if n < |ps| - 1 {
      ChainPrefix(fetch, start, init, n);
      assert init[..n] == ps[..n];
      assert init[n - 1] == ps[n - 1] && init[n] == ps[n];
    } else {
      assert init == ps[..n];
    }
  }

  /** Each page of a chain after the first is what the request for the page after its predecessor returned. */
  lemma ChainNext(fetch: Feed, start: int, ps: seq<Page>, n: nat)
    requires IsChain(fetch, start, ps) && 1 <= n < |ps|
    ensures fetch(ps[n - 1].page + 1) == Ok(ps[n])
  {
    ChainPrefix(fetch, start, ps, n);
  }

  /** Two chains from the same start agree on every page both of them fetched. */
  lemma {:induction false} ChainsAgree(fetch: Feed, start: int, ps: seq<Page>, qs: seq<Page>, n: nat)
    requires IsChain(fetch, start, ps) && IsChain(fetch, start, qs)
    requires n <= |ps| && n <= |qs|
    ensures ps[..n] == qs[..n]
    decreases n
  {
    if n == 1 {
      ChainStart(fetch, start, ps);
      ChainStart(fetch, start, qs);
      assert ps[..1] == [ps[0]] && qs[..1] == [qs[0]];
    } else if n > 1 {
      ChainsAgree(fetch, start, ps, qs, n - 1);
      ChainNext(fetch, start, ps, n - 1);
      ChainNext(fetch, start, qs, n - 1);
      assert ps[n - 2] == ps[..n - 1][n - 2] && qs[n - 2] == qs[..n - 1][n - 2];
      assert ps[..n] == ps[..n - 1] + [ps[n - 1]];
      assert qs[..n] == qs[..n - 1] + [qs[n - 1]];
    }
  }

  /**
   * The run is determined by the feed and the start page: at most one
   * completed run exists, and a run cannot both complete and fail.
   */
  lemma RunDeterministic(fetch: Feed, start: int, ps: seq<Page>, qs: seq<Page>)
    requires Completed(fetch, start, ps)
    ensures Completed(fetch, start, qs) ==> ps == qs
    ensures !FailedAfter(fetch, start, qs)
  {
    ChainStart(fetch, start, ps);
    if IsChain(fetch, start, qs) {
      var n := if |ps| < |qs| then |ps| else |qs|;
      ChainsAgree(fetch, start, ps, qs, n);
      if |ps| < |qs| {
        assert ps[..n] == ps;
        ChainPrefix(fetch, start, qs, |ps|);
      } else if |qs| < |ps| {
        assert qs[..n] == qs;
        ChainPrefix(fetch, start, ps, |qs|);
        assert ps[|qs| - 1] == qs[|qs| - 1];
      } else {
        assert ps == ps[..n] && qs == qs[..n];
      }
    }
  }

  /**
   * A run makes at most `MAX_PAGE_ADVANCE + 1` requests: a completed run
   * fetched at most six pages, a failed one at most five before the request
   * that failed.
   */
  lemma FetchBudget(fetch: Feed, start: int, ps: seq<Page>)
    ensures Completed(fetch, start, ps) ==> |ps| <= MaxPageAdvance + 1
    ensures FailedAfter(fetch, start, ps) ==> |ps| + 1 <= MaxPageAdvance + 1
  {
  }

  /**
   * Why a completed run stopped: enough entries were kept, the feed's last
   * page was reached, or five pages were fetched after the first.
   */
  lemma StopReason(fetch: Feed, start: int, ps: seq<Page>)
    requires Completed(fetch, start, ps)
    ensures |Kept(ps)| >= MinResults || ps[|ps| - 1].page >= ps[|ps| - 1].totalPages || |ps| == MaxPageAdvance + 1
  {
    FetchBudget(fetch, start, ps);
  }

  /** A first page that already has twelve entries worth keeping is the only page fetched. */
  lemma FullFirstPage(fetch: Feed, start: int, ps: seq<Page>)
    requires Completed(fetch, start, ps) || FailedAfter(fetch, start, ps)
    requires fetch(start).Ok? && |Filter(fetch(start).value.results)| >= MinResults
    ensures Completed(fetch, start, ps) && |ps| == 1
  {
    assert |ps| >= 1;
    ChainStart(fetch, start, ps);
    assert Kept(ps[..1]) == Filter(ps[0].results) by {
      assert ps[..1][..0] == [];
    }
    if |ps| > 1 {
      ChainPrefix(fetch, start, ps, 1);
    } else {
      assert ps[..1] == ps;
    }
  }

  /**
   * When no page has an entry worth keeping, nothing is kept, and the run
   * ended because the feed ran out or the budget was spent.
   */
  lemma {:induction false} NothingPopular(fetch: Feed, start: int, ps: seq<Page>)
    requires forall k, i :: 0 <= k < |ps| && 0 <= i < |ps[k].results| ==> !ShouldInclude(ps[k].results[i])
    ensures Kept(ps) == []
    ensures Completed(fetch, start, ps) ==>
      ps[|ps| - 1].page >= ps[|ps| - 1].totalPages || |ps| == MaxPageAdvance + 1
  {
    if |ps| > 0 {
      var init := ps[..|ps| - 1];
      NothingPopular(fetch, start, init);
      var last := ps[|ps| - 1].results;
      FilterCounts(last);
      if Completed(fetch, start, ps) {
        StopReason(fetch, start, ps);
      }
    }
  }
}

/**
 * A worked run: a three-page feed whose pages keep 4, 5 and 10 entries. The
 * run fetches all three pages, stops because the feed ran out (not because
 * 12 entries were reached), and keeps all 19 entries in fetch order.
 */
module AggregationExample {
  import opened Wrappers
  import opened TmdbTypes
  import opened Aggregation

  function Popular(n: nat, firstId: int): (items: seq<Media>)
    ensures |items| == n && forall i :: 0 <= i < n ==> ShouldInclude(items[i])
  {
    seq(n, i => MovieItem(firstId + i, "", None, Some(2.0)))
  }

  const Obscure: Media := MovieItem(0, "", None, None)

  const First: Page := Page(1, Popular(4, 100) + [Obscure], 3, 60)
  const Second: Page := Page(2, Popular(5, 200), 3, 60)
  const Third: Page := Page(3, Popular(10, 300), 3, 60)

  function ThreePages(): Feed {
    p => if p == 1 then Ok(First) else if p == 2 then Ok(Second) else if p == 3 then Ok(Third) else Failed
  }

  lemma FirstPageFiltered()
    ensures Filter(First.results) == Popular(4, 100)
  {
    FilterAppend(Popular(4, 100), [Obscure]);
    assert Filter([Obscure]) == [] by {
      assert [Obscure][..0] == [];
    }
  }

  lemma KeptSoFar()
    ensures Kept([First]) == Popular(4, 100)
    ensures Kept([First, Second]) == Popular(4, 100) + Popular(5, 200)
    ensures Kept([First, Second, Third]) == Popular(4, 100) + Popular(5, 200) + Popular(10, 300)
  {
    FirstPageFiltered();
    KeptSnoc([], First);
    assert [] + [First] == [First];
    KeptSnoc([First], Second);
    assert [First] + [Second] == [First, Second];
    KeptSnoc([First, Second], Third);
    assert [First, Second] + [Third] == [First, Second, Third];
  }

  lemma ThreePageRun()
    ensures Completed(ThreePages(), 1, [First, Second, Third])
    ensures Kept([First, Second, Third]) == Popular(4, 100) + Popular(5, 200) + Popular(10, 300)
    ensures |Kept([First, Second, Third])| == 19
    ensures First.page < First.totalPages && !(Third.page < Third.totalPages)
  {
    var ps := [First, Second, Third];
    KeptSoFar();
    assert ps[..2] == [First, Second] && ps[..2][..1] == [First];
    assert GoesOn([First]) && GoesOn([First, Second]) && !GoesOn(ps);
  }
}
