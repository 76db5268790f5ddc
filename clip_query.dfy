/**
 * The clip-list state of the episode screen as a value, and the pure merge
 * step `_queryData`: given the current state, the filter key, the requested
 * page and what the connectivity check and the clip service answered, it
 * yields the partial state that the screen then merges in with `setState`.
 */
module ClipQuery {
  import opened Options

  // Tab and sort keys of the screen.
  const ClipsKey := "clips"
  const ShowNotesKey := "showNotes"
  const MostRecentKey := "most-recent"
  const TopPastDayKey := "top-past-day"
  const TopPastWeekKey := "top-past-week"
  const TopPastMonthKey := "top-past-month"
  const TopPastYearKey := "top-past-year"

  /** The values of the right-hand (sort) selector, in display order. */
  const SortKeys: seq<string> :=
    [MostRecentKey, TopPastDayKey, TopPastWeekKey, TopPastMonthKey, TopPastYearKey]

  /** Whether some sort option of the right-hand selector has this value. */
  predicate IsSortKey(key: string) {
    key in SortKeys
  }

  /** A JavaScript key that may be `null`: `null` and `''` are both falsy. */
  function KeyOf(key: Option<string>): (k: string) {
    if key.Some? then key.value else ""
  }

  /** `queryOptions.queryPage || 1`: a missing (or zero) page number reads as page 1. */
  function PageOrFirst(page: Option<int>): (p: int) {
    if page.Some? && page.value != 0 then page.value else 1
  }

  /** The parameters handed to the clip service (the episode id and the NSFW setting aside). */
  datatype FetchParams = FetchParams(sort: Option<string>, page: Option<int>, searchAllFieldsText: Option<string>)

  /**
   * What a query meets: the connectivity check reports the device offline,
   * the clip service throws, or it returns one page of items and the total
   * number of clips that match.
   */
  datatype FetchOutcome<T> = Offline | Failed | Fetched(items: seq<T>, total: nat)

  /** The fields of the screen's state that the clip list depends on. */
  datatype State<T> = State(
    endOfResultsReached: bool,
    flatListData: seq<T>,
    flatListDataTotalCount: Option<nat>,
    isLoading: bool,
    isLoadingMore: bool,
    queryPage: int,
    querySort: Option<string>,
    searchBarText: string,
    viewType: Option<string>)

  /** The list fields that a completed query sets together. */
  datatype ListUpdate<T> = ListUpdate(
    flatListData: seq<T>,
    endOfResultsReached: bool,
    flatListDataTotalCount: Option<nat>,
    queryPage: int)

  /** The partial state a query returns: the loading flags always, the list fields only when it got that far. */
  datatype QueryResult<T> = QueryResult(isLoading: bool, isLoadingMore: bool, list: Option<ListUpdate<T>>)

  /**
   * The state invariant the screen keeps: the page number is positive and,
   * once the total is known, the list is closed exactly when it holds at
   * least that many clips.
   */
  predicate Consistent<T>(s: State<T>) {
    && s.queryPage >= 1
    && (s.flatListDataTotalCount.Some? ==>
          s.endOfResultsReached == (|s.flatListData| >= s.flatListDataTotalCount.value))
  }

  /**
   * The request a query sends when the device is online, or None when the
   * filter key is empty and nothing is fetched. The search text comes from
   * the state, never from the caller.
   */
  function FetchRequest<T>(s: State<T>, filterKey: string, page: Option<int>): (r: Option<FetchParams>)
    ensures r.None? <==> filterKey == ""
    ensures r.Some? ==> r.value.page == page
    ensures r.Some? && IsSortKey(filterKey) ==> r.value.sort == Some(filterKey)
    ensures r.Some? && !IsSortKey(filterKey) ==> r.value.sort == s.querySort
    ensures r.Some? ==> (r.value.searchAllFieldsText.Some? <==> s.searchBarText != "")
    ensures r.Some? && r.value.searchAllFieldsText.Some? ==> r.value.searchAllFieldsText.value == s.searchBarText
  {
    var search := if s.searchBarText != "" then Some(s.searchBarText) else None;
    if IsSortKey(filterKey) then Some(FetchParams(Some(filterKey), page, search))
    else if filterKey == "" then None
    else Some(FetchParams(s.querySort, page, search))
  }

  /**
   * `_queryData`: offline and a failing service only close the loading
   * flags; an empty key closes the list without fetching; a fetched page is
   * appended to whatever list the state holds, the total is recorded and the
   * list is closed once it is at least that long. The two fetching branches
   * of the source (sort key as filter, or another key) differ only in the
   * request they send (see `FetchRequest`), not in how they merge.
   */
  function QueryData<T>(s: State<T>, filterKey: string, page: Option<int>, outcome: FetchOutcome<T>): (r: QueryResult<T>)
    ensures !r.isLoading && !r.isLoadingMore
    ensures r.list.None? <==> outcome.Offline? || (filterKey != "" && outcome.Failed?)
    ensures r.list.Some? ==> r.list.value.queryPage == PageOrFirst(page)
    ensures filterKey == "" && !outcome.Offline? ==>
              r.list.value.flatListData == [] && r.list.value.endOfResultsReached
              && r.list.value.flatListDataTotalCount.None?
    ensures filterKey != "" && outcome.Fetched? ==>
              && r.list.value.flatListData == s.flatListData + outcome.items
              && r.list.value.flatListDataTotalCount == Some(outcome.total)
              && (r.list.value.endOfResultsReached <==> |s.flatListData| + |outcome.items| >= outcome.total)
  {
    if outcome.Offline? then
      QueryResult(false, false, None)
    else if filterKey == "" then
      QueryResult(false, false, Some(ListUpdate([], true, None, PageOrFirst(page))))
    else
      match outcome
      case Failed => QueryResult(false, false, None)
      case Fetched(items, total) =>
        var data := s.flatListData + items;
        QueryResult(false, false, Some(ListUpdate(data, |data| >= total, Some(total), PageOrFirst(page))))
  }

  /** `setState(result)`: the fields the query returned overwrite the state's, the others stay. */
  function Merge<T>(s: State<T>, r: QueryResult<T>): (t: State<T>) {
    var t := s.(isLoading := r.isLoading, isLoadingMore := r.isLoadingMore);
    match r.list
    case None => t
    case Some(u) =>
      t.(flatListData := u.flatListData, endOfResultsReached := u.endOfResultsReached,
         flatListDataTotalCount := u.flatListDataTotalCount, queryPage := u.queryPage)
  }

  /** The state once a query started from `s` has completed and been merged in. */
  function AfterQuery<T>(s: State<T>, filterKey: string, page: Option<int>, outcome: FetchOutcome<T>): (t: State<T>) {
    Merge(s, QueryData(s, filterKey, page, outcome))
  }

  /**
   * A completed query keeps the state consistent and touches only the list
   * and loading fields; when it stops short (offline, or the service fails)
   * the list, its total, the end flag and the page number are as before.
   */
  lemma QueryKeepsConsistent<T>(s: State<T>, filterKey: string, page: Option<int>, outcome: FetchOutcome<T>)
    requires Consistent(s)
    requires page.None? || page.value >= 1
    ensures var t := AfterQuery(s, filterKey, page, outcome);
      && Consistent(t)
      && !t.isLoading && !t.isLoadingMore
      && t.querySort == s.querySort && t.searchBarText == s.searchBarText && t.viewType == s.viewType
      && (outcome.Offline? || (filterKey != "" && outcome.Failed?) ==>
            t == s.(isLoading := false, isLoadingMore := false))
  {
  }
}
