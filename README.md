# Episode screen clip list — a Dafny model

This project models the clip list of the podcast app's episode screen
(`src/screens/EpisodeScreen.tsx`). The list is paginated, filterable and
sortable. The model covers the screen's list state, the handlers that reset it
(changing tab, changing sort, reaching the end of the list, typing in and
clearing the search bar, loading the page), and the merge step `_queryData`.
That step appends a fetched page to the list, records the total and decides
whether the list is closed.

- `options.dfy` — `Option`, standing for the state's `null`/`undefined` values.
- `clip_query.dfy` (module `ClipQuery`) — the state as a value (`State`); the
  tab and sort keys; the request sent to the clip service (`FetchRequest`);
  the merge step (`QueryData`); `setState` (`Merge`); and the state invariant
  `Consistent`. Once the total is known, the list is closed exactly when it
  holds at least that many clips, and the page number is positive.
- `episode_screen.dfy` (module `Episode`) — the screen as a class whose fields
  are the state's fields. The source pairs `setState(reset, async () => query)`;
  in the model each pair is two methods: the handler applies the reset, and a
  `...Done` method takes the outcome of the awaited calls and merges in the
  query's result. Every method keeps `Valid()` (that is, `Consistent`) and
  states the whole new state in terms of the old one.
- `pagination.dfy` (module `Pagination`) — the list against a server that
  serves one collection `k` items at a time. After `n` loads the list is
  exactly the collection's first `min(n * k, total)` items.
- `scenarios.dfy` (module `Scenarios`) — runs of the class's handlers with the
  service's answers written out.

The connectivity check and the clip service are not called. Their joint answer
is an input, `FetchOutcome`:
- `Offline`: the connectivity check alerted.
- `Failed`: the service, or the code building its request, threw.
- `Fetched(items, total)`: the service returned a page.

With an empty filter key the code checks connectivity but fetches nothing, so
for that key only `Offline` is distinguished from the other two.

Behaviour of the code that the model keeps:
- `_queryData` always appends to the list it finds. A first page replaces the
  list only because every caller empties the list first.
- `selectRightItem` does not reset `queryPage`. A successful query sets the
  page back to 1, but a failed one leaves the old page number.
- Nothing discards a stale response or cancels a pending debounced query when
  a newer request is issued.
- The search text sent is the one in the state, not the one the debounced
  call is given.

`Scenarios.OfflineFirstPageExample` shows a consequence. Suppose the clips
tab's first query goes offline. It requests nothing, and the list is left
empty, open and on page 1. If an end-of-list event with `distanceFromEnd > -1`
then arrives, it requests page 2, and page 1's clips are skipped until the next
tab, sort or search change queries without a page. Whether the list component
sends such an event for an empty list is not part of this model.

## Model

| member | source | states |
|---|---|---|
| `ClipQuery.FetchRequest` | src/screens/EpisodeScreen.tsx:316-337 | An empty filter key sends no request. Otherwise the sort sent is the filter key when it is one of the five sort values and `querySort` when it is not. The page is passed through as given. The search text is sent exactly when the state's text is non-empty, and it is then that text. |
| `ClipQuery.QueryData` | src/screens/EpisodeScreen.tsx:303-350 | Every outcome clears `isLoading` and `isLoadingMore`. The list fields are left out exactly when offline or when a non-empty key's fetch fails. An empty key yields an empty, closed list with an unknown total. A fetched page yields the old list followed by the page's items, the reported total, and "closed" exactly when the new length is at least that total. The page recorded is the requested one, or 1 when none was requested. |
| `ClipQuery.QueryKeepsConsistent` | src/screens/EpisodeScreen.tsx:307-349 | A merged query result keeps the invariant: once the total is known, "closed" means the length is at least the total, and the page is at least 1. Sort, search text and tab are unchanged. Offline, or a failed fetch, changes only the two loading flags. |
| `Episode.EpisodeScreen.constructor` | src/screens/EpisodeScreen.tsx:53-74 | The tab is the navigation parameter, or show notes when that parameter is missing or empty. The list is empty, open, on page 1, with an unknown total and sorted by most recent. It is loading exactly when the tab is clips. |
| `Episode.EpisodeScreen.RunQuery` | src/screens/EpisodeScreen.tsx:303-350 | `setState(await _queryData(...))`: the new state is the old one with the query's result merged in. The request returned is the one sent, and there is none when offline. |
| `Episode.EpisodeScreen.InitializePageData` | src/screens/EpisodeScreen.tsx:87-93 | The reset: an empty, open list on page 1 with an unknown total, loading. Nothing else changes. |
| `Episode.EpisodeScreen.InitializePageDataDone` | src/screens/EpisodeScreen.tsx:94-118 | If the episode loaded and the tab is clips, the clips query's result is merged in. Otherwise only `isLoading` is cleared. |
| `Episode.EpisodeScreen.SelectLeftItem` | src/screens/EpisodeScreen.tsx:122-134 | An empty key changes only `viewType`, to null. Any other key empties the list, forgets the total and goes back to page 1. The list is closed exactly when the key is not clips and loading exactly when it is clips. |
| `Episode.EpisodeScreen.SelectLeftItemDone` | src/screens/EpisodeScreen.tsx:135-140 | Only the clips key queries, with no page. Any other key leaves the state as it was. |
| `Episode.EpisodeScreen.SelectRightItem` | src/screens/EpisodeScreen.tsx:143-154 | An empty key changes only `querySort`, to null. Any other key becomes the sort and empties the list, which is open, loading, with an unknown total. The page number is kept. |
| `Episode.EpisodeScreen.SelectRightItemDone` | src/screens/EpisodeScreen.tsx:155-158 | A non-empty key queries with itself as filter key, whatever the tab. |
| `Episode.EpisodeScreen.OnEndReached` | src/screens/EpisodeScreen.tsx:161-167 | It fires exactly when the tab is clips, the list is open, no load-more is in flight and `distanceFromEnd > -1`. It then sets only `isLoadingMore` and requests page `queryPage + 1`. Otherwise nothing changes and nothing is requested. |
| `Episode.EpisodeScreen.OnEndReachedDone` | src/screens/EpisodeScreen.tsx:167-170 | The clips query for the requested page. A fetched page is appended to the old list, and that page number and the total are recorded. |
| `Episode.EpisodeScreen.HandleSearchBarTextChange` | src/screens/EpisodeScreen.tsx:219-231 | Stores the text and empties the list on page 1 with a load-more in flight. The end flag is kept. It returns the tab that the debounced query will use. |
| `Episode.EpisodeScreen.HandleSearchBarTextQuery` | src/screens/EpisodeScreen.tsx:233-236 | Queries with the captured tab as filter key (null reads as empty) and with the search text held in the state. |
| `Episode.EpisodeScreen.HandleSearchBarClear` | src/screens/EpisodeScreen.tsx:238-240 | Only the search text changes, to empty. No query is made. |
| `Pagination.ScrolledIsPrefix` | src/screens/EpisodeScreen.tsx:161-173 | Against a server paging a collection `k` items at a time: after the first load and `n - 1` scrolls, the list is exactly the collection's first `n` pages, in order (all of it once they run past the end). It is closed exactly when those pages reach the collection's size, and the total is that size. While the list is open its page number is `n`. |
| `Pagination.ScrollOnce` | src/screens/EpisodeScreen.tsx:161-173 | The screen's own `OnEndReached` and `OnEndReachedDone`, answered by the paging server, take one step of `Scrolled`: on the clips tab with the list open after `n` loads, they request page `n + 1` and leave the state after `n + 1` loads. |
| `Pagination.ScrolledLength` | src/screens/EpisodeScreen.tsx:324-326 | After `n` loads of `k` items the list has `min(n * k, total)` items, and it is closed exactly when `n * k` reaches the total. |
| `Scenarios.LoadMoreExample` | src/screens/EpisodeScreen.tsx:128-173 | Pages "ab", "cd", "e" of 5 accumulate to "abcde" and the list closes. A further end-of-list event requests nothing. |
| `Scenarios.DebouncedSearchExample` | src/screens/EpisodeScreen.tsx:219-236 | Three keystrokes and one debounced query send one request. It carries the current sort, no page and the latest text "abc". The list holds only that request's results. |
| `Scenarios.OfflineFirstPageExample` | src/screens/EpisodeScreen.tsx:122-173 | An offline first query requests nothing and leaves an empty, open list on page 1. An end-of-list event at distance 0 then requests page 2. |
| `Scenarios.ClearSelectionsExample` | src/screens/EpisodeScreen.tsx:122-147 | Clearing the sort keeps the clips. Clearing the tab keeps the clips and sets the tab to null. |

## Left out

- Rendering: the JSX, `navigationOptions`, `styles`, the item and header renderers, and the action sheet (`_handleMorePress`, `_handleCancelPress`, `selectedItem`, `showActionSheet`). They are presentation only.
- `episode` and `episodeId` state and the episode load. `getEpisode` and the HTML linkifier are not part of this model. Whether the episode loaded is an input to `InitializePageDataDone`.
- `getMediaRefs`, `alertIfNoNetworkConnection` and `downloadEpisode` are network and foreign calls. The first two are represented only by the `FetchOutcome` input. The episode id and the NSFW setting passed to the service are not modelled.
- The debounce timer. The model has the debounced query run once, after the text changes, with the tab captured at the last change.
- Concurrency. Each `...Done` step reads and writes the state in one step. The model does not capture a state read before the awaits and merged after them, or overlapping queries and responses that land late.
- JavaScript numbers are unbounded integers here. `distanceFromEnd` is a `real`, so NaN is not modelled.
- `src/screens/PlaylistScreen.tsx`: global-store wiring, network actions and rendering, with no list logic of its own.
