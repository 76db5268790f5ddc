/**
 * The episode screen's clip list as a component whose handlers update its
 * state in place. Each `setState(reset, async () => query)` pair of the
 * screen is two steps here: a handler that applies the reset, and a `...Done`
 * step that runs when the awaited calls have answered, given their outcome,
 * and merges the query's result into the state.
 */
module Episode {
  import opened Options
  import opened ClipQuery

  class EpisodeScreen<T> {
    var endOfResultsReached: bool
    var flatListData: seq<T>
    var flatListDataTotalCount: Option<nat>
    var isLoading: bool
    var isLoadingMore: bool
    var queryPage: int
    var querySort: Option<string>
    var searchBarText: string
    var viewType: Option<string>

    /** The component's state as a value. */
    function Snapshot(): (s: State<T>)
      reads this
    {
      State(endOfResultsReached, flatListData, flatListDataTotalCount, isLoading, isLoadingMore,
            queryPage, querySort, searchBarText, viewType)
    }

    ghost predicate Valid()
      reads this
    {
      Consistent(Snapshot())
    }

    /**
     * The initial state: the tab comes from the navigation parameter, falling
     * back to the show notes; the clip list starts empty on page 1, sorted by
     * most recent, loading when the clips tab is open.
     */
    constructor (viewTypeParam: Option<string>)
      ensures Valid()
      ensures var v := if KeyOf(viewTypeParam) == "" then ShowNotesKey else viewTypeParam.value;
        Snapshot() == State(false, [], None, v == ClipsKey, false, 1, Some(MostRecentKey), "", Some(v))
    {
      var v := if KeyOf(viewTypeParam) == "" then ShowNotesKey else viewTypeParam.value;
      endOfResultsReached := false;
      flatListData := [];
      flatListDataTotalCount := None;
      isLoading := v == ClipsKey;
      isLoadingMore := false;
      queryPage := 1;
      querySort := Some(MostRecentKey);
      searchBarText := "";
      viewType := Some(v);
    }

    /** Runs a query against the current state and merges its result; returns the request sent, if any. */
    method RunQuery(filterKey: string, page: Option<int>, outcome: FetchOutcome<T>) returns (request: Option<FetchParams>)
      requires Valid()
      requires page.None? || page.value >= 1
      modifies this
      ensures Valid()
      ensures request == if outcome.Offline? then None else FetchRequest(old(Snapshot()), filterKey, page)
      ensures Snapshot() == AfterQuery(old(Snapshot()), filterKey, page, outcome)
    {
      var s := Snapshot();
      request := if outcome.Offline? then None else FetchRequest(s, filterKey, page);
      var r := QueryData(s, filterKey, page, outcome);
      isLoading, isLoadingMore := r.isLoading, r.isLoadingMore;
      if r.list.Some? {
        var u := r.list.value;
        flatListData := u.flatListData;
        endOfResultsReached := u.endOfResultsReached;
        flatListDataTotalCount := u.flatListDataTotalCount;
        queryPage := u.queryPage;
      }
      QueryKeepsConsistent(s, filterKey, page, outcome);
    }

    /** `_initializePageData`'s reset: an empty list on page 1, loading, total unknown. */
    method InitializePageData()
      requires Valid()
      modifies this
      ensures Valid()
      ensures Snapshot() == old(Snapshot()).(endOfResultsReached := false, flatListData := [],
                                             flatListDataTotalCount := None, isLoading := true, queryPage := 1)
    {
      endOfResultsReached := false;
      flatListData := [];
      flatListDataTotalCount := None;
      isLoading := true;
      queryPage := 1;
    }

    /**
     * The completion of `_initializePageData`: when the episode loaded and
     * the clips tab is open, the clips query's result is merged in; in every
     * case loading ends.
     */
    method InitializePageDataDone(episodeLoaded: bool, outcome: FetchOutcome<T>) returns (request: Option<FetchParams>)
      requires Valid()
      modifies this
      ensures Valid()
      ensures episodeLoaded && old(viewType) == Some(ClipsKey) ==>
                Snapshot() == AfterQuery(old(Snapshot()), ClipsKey, None, outcome)
                && request == if outcome.Offline? then None else FetchRequest(old(Snapshot()), ClipsKey, None)
      ensures !(episodeLoaded && old(viewType) == Some(ClipsKey)) ==>
                Snapshot() == old(Snapshot()).(isLoading := false) && request == None
    {
      request := None;
      if episodeLoaded && viewType == Some(ClipsKey) {
        request := RunQuery(ClipsKey, None, outcome);
      }
      isLoading := false;
    }

    /**
     * `selectLeftItem`: an empty key only clears the tab; another key opens
     * that tab with an empty list on page 1, open and loading only for clips.
     */
    method SelectLeftItem(selectedKey: string)
      requires Valid()
      modifies this
      ensures Valid()
      ensures selectedKey == "" ==> Snapshot() == old(Snapshot()).(viewType := None)
      ensures selectedKey != "" ==>
                Snapshot() == old(Snapshot()).(endOfResultsReached := selectedKey != ClipsKey, flatListData := [],
                                               flatListDataTotalCount := None, isLoading := selectedKey == ClipsKey,
                                               queryPage := 1, viewType := Some(selectedKey))
    {
      if selectedKey == "" {
        viewType := None;
        return;
      }
      endOfResultsReached := selectedKey != ClipsKey;
      flatListData := [];
      flatListDataTotalCount := None;
      isLoading := selectedKey == ClipsKey;
      queryPage := 1;
      viewType := Some(selectedKey);
    }

    /** The completion of `selectLeftItem`: only the clips tab queries, with its key as filter. */
    method SelectLeftItemDone(selectedKey: string, outcome: FetchOutcome<T>) returns (request: Option<FetchParams>)
      requires Valid()
      modifies this
      ensures Valid()
      ensures selectedKey == ClipsKey ==>
                Snapshot() == AfterQuery(old(Snapshot()), ClipsKey, None, outcome)
                && request == if outcome.Offline? then None else FetchRequest(old(Snapshot()), ClipsKey, None)
      ensures selectedKey != ClipsKey ==> Snapshot() == old(Snapshot()) && request == None
    {
      request := None;
      if selectedKey == ClipsKey {
        request := RunQuery(selectedKey, None, outcome);
      }
    }

    /**
     * `selectRightItem`: an empty key only clears the sort; another key
     * becomes the sort and empties the list, which is open and loading. The
     * page number is left as it was.
     */
    method SelectRightItem(selectedKey: string)
      requires Valid()
      modifies this
      ensures Valid()
      ensures selectedKey == "" ==> Snapshot() == old(Snapshot()).(querySort := None)
      ensures selectedKey != "" ==>
                Snapshot() == old(Snapshot()).(endOfResultsReached := false, flatListData := [],
                                               flatListDataTotalCount := None, isLoading := true,
                                               querySort := Some(selectedKey))
    {
      if selectedKey == "" {
        querySort := None;
        return;
      }
      endOfResultsReached := false;
      flatListData := [];
      flatListDataTotalCount := None;
      isLoading := true;
      querySort := Some(selectedKey);
    }

    /** The completion of `selectRightItem`: queries with the sort key as filter, whatever the tab. */
    method SelectRightItemDone(selectedKey: string, outcome: FetchOutcome<T>) returns (request: Option<FetchParams>)
      requires Valid()
      modifies this
      ensures Valid()
      ensures selectedKey != "" ==>
                Snapshot() == AfterQuery(old(Snapshot()), selectedKey, None, outcome)
                && request == if outcome.Offline? then None else FetchRequest(old(Snapshot()), selectedKey, None)
      ensures selectedKey == "" ==> Snapshot() == old(Snapshot()) && request == None
    {
      request := None;
      if selectedKey != "" {
        request := RunQuery(selectedKey, None, outcome);
      }
    }

    /**
     * `_onEndReached`: fires only on the clips tab, with the list open, no
     * load-more in flight and `distanceFromEnd > -1`; it then marks a
     * load-more in flight and asks for the page after the current one.
     * Otherwise nothing changes.
     */
    method OnEndReached(distanceFromEnd: real) returns (requestedPage: Option<int>)
      requires Valid()
      modifies this
      ensures Valid()
      ensures var fires := old(viewType) == Some(ClipsKey) && !old(endOfResultsReached)
                           && !old(isLoadingMore) && distanceFromEnd > -1.0;
        && (fires ==> Snapshot() == old(Snapshot()).(isLoadingMore := true) && requestedPage == Some(old(queryPage) + 1))
        && (!fires ==> Snapshot() == old(Snapshot()) && requestedPage == None)
    {
      requestedPage := None;
      if viewType == Some(ClipsKey) && !endOfResultsReached && !isLoadingMore {
        if distanceFromEnd > -1.0 {
          isLoadingMore := true;
          requestedPage := Some(queryPage + 1);
        }
      }
    }

    /**
     * The completion of `_onEndReached`: the clips query for the requested
     * page. A fetched page is appended and its number recorded.
     */
    method OnEndReachedDone(page: int, outcome: FetchOutcome<T>) returns (request: Option<FetchParams>)
      requires Valid()
      requires page >= 1
      modifies this
      ensures Valid()
      ensures Snapshot() == AfterQuery(old(Snapshot()), ClipsKey, Some(page), outcome)
      ensures request == if outcome.Offline? then None else FetchRequest(old(Snapshot()), ClipsKey, Some(page))
      ensures outcome.Fetched? ==>
                flatListData == old(flatListData) + outcome.items && queryPage == page
                && flatListDataTotalCount == Some(outcome.total)
    {
      request := RunQuery(ClipsKey, Some(page), outcome);
    }

    /**
     * `_handleSearchBarTextChange`: stores the text and empties the list on
     * page 1 with a load-more in flight; the end flag is left as it was.
     * Returns the tab the debounced query will use.
     */
    method HandleSearchBarTextChange(text: string) returns (viewTypeAtChange: Option<string>)
      requires Valid()
      modifies this
      ensures Valid()
      ensures viewTypeAtChange == old(viewType)
      ensures Snapshot() == old(Snapshot()).(flatListData := [], flatListDataTotalCount := None,
                                             isLoadingMore := true, queryPage := 1, searchBarText := text)
    {
      viewTypeAtChange := viewType;
      flatListData := [];
      flatListDataTotalCount := None;
      isLoadingMore := true;
      queryPage := 1;
      searchBarText := text;
    }

    /**
     * `_handleSearchBarTextQuery`, once the debounce has let it through: the
     * query uses the tab captured at the text change as filter and the search
     * text the state holds now.
     */
    method HandleSearchBarTextQuery(viewTypeAtChange: Option<string>, outcome: FetchOutcome<T>) returns (request: Option<FetchParams>)
      requires Valid()
      modifies this
      ensures Valid()
      ensures Snapshot() == AfterQuery(old(Snapshot()), KeyOf(viewTypeAtChange), None, outcome)
      ensures request == if outcome.Offline? then None else FetchRequest(old(Snapshot()), KeyOf(viewTypeAtChange), None)
    {
      request := RunQuery(KeyOf(viewTypeAtChange), None, outcome);
    }

    /** `_handleSearchBarClear`: empties the search text and nothing else; it does not query. */
    method HandleSearchBarClear()
      requires Valid()
      modifies this
      ensures Valid()
      ensures Snapshot() == old(Snapshot()).(searchBarText := "")
    {
      searchBarText := "";
    }
  }
}
