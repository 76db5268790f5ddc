/**
 * The clip list against a server that pages one fixed collection: what the
 * list holds after the clips tab has been opened and its end reached again
 * and again.
 */
module Pagination {
  import opened Options
  import opened ClipQuery
  import opened Episode

  function Min(a: int, b: int): (m: int) {
    if a <= b then a else b
  }

  /** The number of items in `n` full pages of `k` items. */
  function PagesSize(n: nat, k: nat): (size: nat) {
    if n == 0 then 0 else PagesSize(n - 1, k) + k
  }

  lemma {:induction false} PagesSizeIsProduct(n: nat, k: nat)
    ensures PagesSize(n, k) == n * k
  {
    if n > 0 {
      PagesSizeIsProduct(n - 1, k);
    }
  }

  /**
   * A server holding the collection `all` and serving it `k` items a page:
   * page `p` (1-based) is the `p`-th slice of `k` items, cut short at the
   * end, together with the size of the collection. A request without a page
   * number gets page 1.
   */
  function ServePage<T>(all: seq<T>, k: nat, page: Option<int>): (out: FetchOutcome<T>)
  {
    var p := if page.Some? && page.value >= 1 then page.value else 1;
    Fetched(all[Min(PagesSize(p - 1, k), |all|)..Min(PagesSize(p, k), |all|)], |all|)
  }

  /**
   * The state after the clips query has completed on an emptied list and
   * the end of the list has then been reached `n - 1` times, each time
   * requesting the next page while the list is still open.
   */
  function Scrolled<T>(s: State<T>, all: seq<T>, k: nat, n: nat): (t: State<T>)
    requires n >= 1
    decreases n
  {
    if n == 1 then
      AfterQuery(s, ClipsKey, None, ServePage(all, k, None))
    else
      var prev := Scrolled(s, all, k, n - 1);
      if prev.endOfResultsReached then prev
      else
        var next := Some(prev.queryPage + 1);
        AfterQuery(prev, ClipsKey, next, ServePage(all, k, next))
  }

  /**
   * One more fetched page on top of a list that is a prefix of the
   * collection: the list grows to the next prefix, with the collection's size
   * as total and the requested page recorded.
   */
  lemma FetchExtendsPrefix<T>(prev: State<T>, all: seq<T>, lo: nat, hi: nat, page: Option<int>)
    requires lo <= hi <= |all|
    requires prev.flatListData == all[..lo]
    requires page.None? || page.value >= 1
    ensures var t := AfterQuery(prev, ClipsKey, page, Fetched(all[lo..hi], |all|));
      && t.flatListData == all[..hi]
      && t.flatListDataTotalCount == Some(|all|)
      && (t.endOfResultsReached <==> hi >= |all|)
      && t.queryPage == PageOrFirst(page)
      && !t.isLoading && !t.isLoadingMore
  {
    assert all[..lo] + all[lo..hi] == all[..hi];
  }

  /**
   * The state after `n` loads of `k` items: the list is the collection's
   * first `n` pages (all of it once that is more), it is closed exactly when
   * those pages reach the collection's size, the total is that size, while
   * the list is open its page number is `n`, and nothing is loading.
   */
  ghost predicate LoadedPages<T>(t: State<T>, all: seq<T>, k: nat, n: nat) {
    && t.flatListData == all[..Min(PagesSize(n, k), |all|)]
    && t.flatListDataTotalCount == Some(|all|)
    && (t.endOfResultsReached <==> PagesSize(n, k) >= |all|)
    && (!t.endOfResultsReached ==> t.queryPage == n)
    && !t.isLoading && !t.isLoadingMore
  }

  lemma FirstPage<T>(all: seq<T>, k: nat)
    ensures ServePage(all, k, None) == Fetched(all[..Min(k, |all|)], |all|)
  {
    assert PagesSize(0, k) == 0 && PagesSize(1, k) == k;
    assert all[0..Min(k, |all|)] == all[..Min(k, |all|)];
  }

  lemma FirstLoad<T>(s: State<T>, all: seq<T>, k: nat)
    requires s.flatListData == []
    ensures LoadedPages(Scrolled(s, all, k, 1), all, k, 1)
  {
    FirstPage(all, k);
    var hi := Min(k, |all|);
    FetchExtendsPrefix(s, all, 0, hi, None);
    assert PagesSize(1, k) == k;
  }

  /** Once the list is closed, a further scroll changes nothing. */
  lemma NextLoadClosed<T>(s: State<T>, all: seq<T>, k: nat, n: nat)
    requires n >= 2
    requires LoadedPages(Scrolled(s, all, k, n - 1), all, k, n - 1)
    requires Scrolled(s, all, k, n - 1).endOfResultsReached
    ensures LoadedPages(Scrolled(s, all, k, n), all, k, n)
  {
    assert PagesSize(n, k) == PagesSize(n - 1, k) + k;
  }

  /** Page `n` of the collection, while the first `n - 1` pages do not exhaust it. */
  lemma NextPage<T>(all: seq<T>, k: nat, n: nat)
    requires n >= 2
    requires PagesSize(n - 1, k) < |all|
    ensures PagesSize(n, k) == PagesSize(n - 1, k) + k
    ensures ServePage(all, k, Some(n)) == Fetched(all[PagesSize(n - 1, k)..Min(PagesSize(n, k), |all|)], |all|)
  {
  }

  /** While the list is open, a scroll appends page `n`. */
  lemma NextLoadOpen<T>(s: State<T>, all: seq<T>, k: nat, n: nat)
    requires n >= 2
    requires LoadedPages(Scrolled(s, all, k, n - 1), all, k, n - 1)
    requires !Scrolled(s, all, k, n - 1).endOfResultsReached
    ensures LoadedPages(Scrolled(s, all, k, n), all, k, n)
  {
    var prev := Scrolled(s, all, k, n - 1);
    NextPage(all, k, n);
    FetchExtendsPrefix(prev, all, PagesSize(n - 1, k), Min(PagesSize(n, k), |all|), Some(n));
  }

  /** After the first load and `n - 1` scrolls to the end, the list holds the first `n` pages. */
  lemma {:induction false} ScrolledIsPrefix<T>(s: State<T>, all: seq<T>, k: nat, n: nat)
    requires n >= 1
    requires s.flatListData == []
    ensures LoadedPages(Scrolled(s, all, k, n), all, k, n)
  {
    if n == 1 {
      FirstLoad(s, all, k);
    } else {
      ScrolledIsPrefix(s, all, k, n - 1);
      if Scrolled(s, all, k, n - 1).endOfResultsReached {
        NextLoadClosed(s, all, k, n);
      } else {
        NextLoadOpen(s, all, k, n);
      }
    }
  }

  /**
   * With pages of `k` items, after the first load and `n - 1` scrolls the
   * list holds `min(n * k, total)` items and is closed exactly when
   * `n * k` reaches the total.
   */
  lemma ScrolledLength<T>(s: State<T>, all: seq<T>, k: nat, n: nat)
    requires n >= 1
    requires s.flatListData == []
    ensures var t := Scrolled(s, all, k, n);
      && |t.flatListData| == Min(n * k, |all|)
      && t.flatListDataTotalCount == Some(|all|)
      && (t.endOfResultsReached <==> n * k >= |all|)
  {
    ScrolledIsPrefix(s, all, k, n);
    PagesSizeIsProduct(n, k);
  }

  /** A merged query sets `isLoadingMore` itself, so its value before the query does not matter. */
  lemma LoadingMoreOverwritten<T>(s: State<T>, filterKey: string, page: Option<int>, outcome: FetchOutcome<T>)
    ensures AfterQuery(s.(isLoadingMore := true), filterKey, page, outcome) == AfterQuery(s, filterKey, page, outcome)
  {
    assert QueryData(s.(isLoadingMore := true), filterKey, page, outcome) == QueryData(s, filterKey, page, outcome);
  }

  /** After `n` loads nothing is in flight, and while the list is open its page is `n`. */
  lemma OpenAfterLoads<T>(s: State<T>, all: seq<T>, k: nat, n: nat)
    requires n >= 1 && s.flatListData == []
    ensures var t := Scrolled(s, all, k, n);
      !t.isLoadingMore && (!t.endOfResultsReached ==> t.queryPage == n)
  {
    ScrolledIsPrefix(s, all, k, n);
  }

  /**
   * One scroll from an open list on page `n`: merging the answer for page
   * `n + 1` into the state with a load-more in flight gives the next state.
   */
  lemma ScrollStep<T>(s: State<T>, all: seq<T>, k: nat, n: nat)
    requires n >= 1
    requires !Scrolled(s, all, k, n).endOfResultsReached
    requires Scrolled(s, all, k, n).queryPage == n
    ensures AfterQuery(Scrolled(s, all, k, n).(isLoadingMore := true), ClipsKey, Some(n + 1), ServePage(all, k, Some(n + 1)))
            == Scrolled(s, all, k, n + 1)
  {
    LoadingMoreOverwritten(Scrolled(s, all, k, n), ClipsKey, Some(n + 1), ServePage(all, k, Some(n + 1)));
  }

  /**
   * The screen's own handlers take one step of `Scrolled`: on the clips tab,
   * with the list open after `n` loads, an end-of-list event requests page
   * `n + 1`, and merging the server's answer for it gives the state after
   * `n + 1` loads.
   */
  method ScrollOnce<T>(screen: EpisodeScreen<T>, s: State<T>, all: seq<T>, k: nat, n: nat) returns (requested: Option<int>)
    requires screen.Valid() && n >= 1 && s.flatListData == []
    requires screen.Snapshot() == Scrolled(s, all, k, n)
    requires screen.viewType == Some(ClipsKey) && !screen.endOfResultsReached
    modifies screen
    ensures requested == Some(n + 1)
    ensures screen.Valid() && screen.Snapshot() == Scrolled(s, all, k, n + 1)
  {
    ghost var prev := screen.Snapshot();
    OpenAfterLoads(s, all, k, n);
    ScrollStep(s, all, k, n);
    requested := screen.OnEndReached(0.0);
    ghost var mid := screen.Snapshot();
    assert mid == prev.(isLoadingMore := true);
    var _ := screen.OnEndReachedDone(n + 1, ServePage(all, k, Some(n + 1)));
    assert screen.Snapshot() == AfterQuery(mid, ClipsKey, Some(n + 1), ServePage(all, k, Some(n + 1)));
  }
}
