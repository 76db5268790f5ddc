/**
 * Runs of the episode screen, driven through its handlers, with the answers
 * of the clip service written out. Each states what the screen ends up with.
 */
module Scenarios {
  import opened Options
  import opened ClipQuery
  import opened Episode

  /**
   * Opening the clips tab and scrolling to the end twice against a service
   * that has 5 clips: pages "ab", "cd" and "e" accumulate in order, the list
   * closes once all 5 are there, and a further scroll requests nothing.
   */
  method LoadMoreExample() returns (items: seq<char>, endReached: bool, lastRequest: Option<int>)
    ensures items == "abcde" && endReached && lastRequest == None
  {
    var screen := new EpisodeScreen<char>(Some(ClipsKey));
    screen.SelectLeftItem(ClipsKey);
    var _ := screen.SelectLeftItemDone(ClipsKey, Fetched("ab", 5));
    assert screen.flatListData == "ab" && !screen.endOfResultsReached;

    var page := screen.OnEndReached(0.0);
    assert page == Some(2);
    var _ := screen.OnEndReachedDone(2, Fetched("cd", 5));
    assert screen.flatListData == "abcd" && !screen.endOfResultsReached;

    page := screen.OnEndReached(0.0);
    assert page == Some(3);
    var _ := screen.OnEndReachedDone(3, Fetched("e", 5));

    lastRequest := screen.OnEndReached(0.0);
    items, endReached := screen.flatListData, screen.endOfResultsReached;
  }

  /**
   * Typing "a", "ab", "abc" on the clips tab and letting the debounced query
   * through once: one request, sorted by the current sort, searching for the
   * latest text, and the list holds only what it returned.
   */
  method DebouncedSearchExample() returns (request: Option<FetchParams>, items: seq<char>)
    ensures request == Some(FetchParams(Some(MostRecentKey), None, Some("abc")))
    ensures items == "xy"
  {
    var screen := new EpisodeScreen<char>(Some(ClipsKey));
    screen.SelectLeftItem(ClipsKey);
    var _ := screen.SelectLeftItemDone(ClipsKey, Fetched("pq", 9));
    var tab := screen.HandleSearchBarTextChange("a");
    tab := screen.HandleSearchBarTextChange("ab");
    tab := screen.HandleSearchBarTextChange("abc");
    assert tab == Some(ClipsKey);
    request := screen.HandleSearchBarTextQuery(tab, Fetched("xy", 2));
    items := screen.flatListData;
  }

  /**
   * Opening the clips tab while offline requests nothing and leaves an empty
   * list that is still open on page 1. If an end-of-list event with
   * `distanceFromEnd > -1` then arrives, it requests page 2, so page 1's
   * clips are skipped until the next reset of the list.
   */
  method OfflineFirstPageExample() returns (items: seq<char>, requestedPage: Option<int>)
    ensures items == [] && requestedPage == Some(2)
  {
    var screen := new EpisodeScreen<char>(Some(ShowNotesKey));
    screen.SelectLeftItem(ClipsKey);
    var _ := screen.SelectLeftItemDone(ClipsKey, Offline);
    items := screen.flatListData;
    requestedPage := screen.OnEndReached(0.0);
  }

  /**
   * Clearing the left-hand selection keeps the loaded clips, while clearing
   * the sort keeps both the clips and the tab.
   */
  method ClearSelectionsExample() returns (afterLeft: seq<char>, afterRight: seq<char>, tab: Option<string>)
    ensures afterLeft == "ab" && afterRight == "ab" && tab == None
  {
    var screen := new EpisodeScreen<char>(Some(ClipsKey));
    screen.SelectLeftItem(ClipsKey);
    var _ := screen.SelectLeftItemDone(ClipsKey, Fetched("ab", 2));
    screen.SelectRightItem("");
    afterRight := screen.flatListData;
    screen.SelectLeftItem("");
    afterLeft, tab := screen.flatListData, screen.viewType;
  }
}
