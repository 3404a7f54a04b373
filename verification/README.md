# Folder page content loader (Screenbox), modelled in Dafny

This project models the view model behind Screenbox's folder browsing page,
`FolderViewPageViewModel`. When the page is navigated to, it classifies the
navigation parameter:
- a breadcrumb trail;
- a single folder;
- a storage library;
- a file query;
- navigation metadata wrapping one of these.

Folders and queries are paged in batches of thirty entries. Each entry
becomes a view item. The media of the items that have media goes to a private
playable list, in the same order. At the end of the load the loading indicator
and the empty flag are settled. A library with several folders is listed one
item per folder instead. Around the loader sit several small rules:
- a liveness field set on navigation and cleared by `Clean`;
- refresh requests, honoured only while the page is active;
- folder clicks, which navigate with the breadcrumb trail extended;
- `Play`, which replaces the playlist only when the playlist's length differs
  from the playable list's or its last update was not the playable list object.

The model is an immutable state machine.
- `PageState.State` holds:
  - the items;
  - the playable list;
  - the breadcrumbs;
  - the navigation data and source;
  - the `IsEmpty` and `IsLoading` flags;
  - the liveness field;
  - whether the loading timer is armed.
- A source is a `seq<Entry>` in the order the storage query yields it. A
  fetch at index `off` returns `src[off .. min(off + 30, |src|)]`.
- Media classification is fixed per entry. A file entry carries what the
  classification service resolves it to, and a folder is never media. A view
  item is identified with its entry.
- Concurrency is modelled at the await points. Each fetch, and each library
  caption update, consumes one `Event` from a schedule. The event says whether
  the 800 ms loading timer elapsed and whether the view was torn down (`Clean`)
  while the load was suspended. Past the end of the schedule nothing happens.
- Messages the page sends are returned as a list of `FolderViewPage.Message`
  values:
  - playlist clear, queue and play requests;
  - navigation requests;
  - a refresh queued on the dispatcher.

The modules follow the source's structure:
- `Wrappers` — `Option`.
- `Storage` — entries, classification, and `MediaOf` (the media of a list of
  items).
- `PageState` — parameters, state, `Clean`, the timer and the await events.
- `Enumeration` — the paging loop, both as the recursive reference function
  `FetchLoop` and as the imperative method `FetchEntries`, plus the library
  listing.
- `FolderViewPage` — dispatch, navigation, refresh, `Click` and `Play`.

The model follows the code as written:
- Liveness is tested only at the loop head. A batch whose fetch was awaited
  when the page was torn down is still appended to the cleared items.
- The timer stop, `IsLoading = false` and `IsEmpty` run at the end of every
  folder or query load, even one cut short by `Clean`.
- A library with no folders only sets `IsEmpty` and leaves the items as they
  were.
- A library with several folders clears the items but not the playable list,
  and it does not test liveness between folders.

## Model

| member | source | states |
|---|---|---|
| PageState.Init | Screenbox.Core/ViewModels/FolderViewPageViewModel.cs:43-56 | a new page has no items, no playable media, no breadcrumbs, and its private liveness field is false (the constructor's `IsActive = true` is the messenger registration, a different flag) |
| PageState.Clean | Screenbox.Core/ViewModels/FolderViewPageViewModel.cs:93-97 | tear-down makes the page inactive and empties the items, leaving the playable list, breadcrumbs, flags and timer as they were |
| PageState.FireTimer | Screenbox.Core/ViewModels/FolderViewPageViewModel.cs:150 | the debounced timer, when armed, shows the loading indicator once and disarms; otherwise nothing changes |
| PageState.Interrupt | Screenbox.Core/ViewModels/FolderViewPageViewModel.cs:150-151 | what may happen while a fetch is awaited: a tear-down clears the items and the liveness field; otherwise both are kept; the playable list and breadcrumbs are never touched |
| PageState.Settle | Screenbox.Core/ViewModels/FolderViewPageViewModel.cs:162-164 | at the end of a load the timer is stopped, `IsLoading` is false and `IsEmpty` holds exactly when there are no items |
| PageState.NavTarget | Screenbox.Core/ViewModels/FolderViewPageViewModel.cs:69 | the load target is the parameter wrapped in the navigation metadata when there is one, else the navigation parameter itself |
| Storage.MediaOfMembers | Screenbox.Core/ViewModels/FolderViewPageViewModel.cs:154-159 | the media of a list of items contain the media of every item that has media, and nothing that is not some item's media |
| Enumeration.Batch | Screenbox.Core/ViewModels/FolderViewPageViewModel.cs:151 | a fetch of count 30 at `fetchIndex` returns at most thirty entries, exactly those following the index, and fewer than thirty only at the end of the source |
| Enumeration.FetchLoop | Screenbox.Core/ViewModels/FolderViewPageViewModel.cs:147-160 | the paging loop never moves past the end of the source, never touches breadcrumbs or navigation data, cannot reactivate the page, and on an inactive page issues no fetch at all |
| Enumeration.FetchLoopPlayable | Screenbox.Core/ViewModels/FolderViewPageViewModel.cs:154-159 | under any interleaving of timer and tear-down events, the loop adds to the playable list exactly the media of the entries it fetched, in yield order |
| Enumeration.FetchLoopItems | Screenbox.Core/ViewModels/FolderViewPageViewModel.cs:180-185 | under any interleaving, the items end with the entries the loop fetched, in yield order; a tear-down can only drop a prefix of them |
| Enumeration.FetchLoopComplete | Screenbox.Core/ViewModels/FolderViewPageViewModel.cs:173-186 | if the page stays active, the loop consumes the whole source, appends every entry in yield order with its media, stays active, and issues `ceil(n / 30) + 1` fetches |
| Enumeration.CleanStopsFetching | Screenbox.Core/ViewModels/FolderViewPageViewModel.cs:148-159 | a tear-down during the `j`-th awaited fetch ends the loop after exactly `j + 1` fetches, and the batch already awaited is still appended to the cleared items |
| Enumeration.LoadSource | Screenbox.Core/ViewModels/FolderViewPageViewModel.cs:142-165 | a folder or query load always ends with the timer stopped, `IsLoading` false and `IsEmpty` equal to "no items", even after a tear-down; on an inactive page it fetches nothing and leaves both lists empty |
| Enumeration.LoadSourceTracks | Screenbox.Core/ViewModels/FolderViewPageViewModel.cs:167-191 | after any load the playable list equals the media of the entries fetched so far, and the items are those entries or what a tear-down left of them |
| Enumeration.LoadSourceComplete | Screenbox.Core/ViewModels/FolderViewPageViewModel.cs:142-165 | an undisturbed load on an active page shows exactly the source in yield order, its media as the playable list, and settled flags; nothing else changes |
| Enumeration.LoadSourceFetches | Screenbox.Core/ViewModels/FolderViewPageViewModel.cs:147-153 | an undisturbed load takes one fetch per thirty entries, rounded up, plus the final empty fetch that ends the loop |
| Enumeration.FortyFiveEntries | Screenbox.Core/ViewModels/FolderViewPageViewModel.cs:173-190 | a forty-five entry folder takes three fetches and shows forty-five items, not empty and not loading |
| Enumeration.LibraryLoop | Screenbox.Core/ViewModels/FolderViewPageViewModel.cs:212-217 | listing library folders never touches the playable list, breadcrumbs or the empty flag, and never reactivates the page |
| Enumeration.LibraryLoopComplete | Screenbox.Core/ViewModels/FolderViewPageViewModel.cs:211-217 | undisturbed, the listing appends exactly one item per folder, in folder order |
| Enumeration.LibraryIgnoresClean | Screenbox.Core/ViewModels/FolderViewPageViewModel.cs:212-217 | the listing does not test liveness: after a tear-down at folder `j`, the folders after `j` are still listed on the inactive page |
| Enumeration.LoadLibrary | Screenbox.Core/ViewModels/FolderViewPageViewModel.cs:193-221 | zero folders only sets `IsEmpty` with no fetch, and the items are kept; one folder becomes the breadcrumbs and is loaded as a folder; several folders leave the playable list and breadcrumbs alone; `IsEmpty` is settled from the items |
| Enumeration.LoadLibraryComplete | Screenbox.Core/ViewModels/FolderViewPageViewModel.cs:201-220 | undisturbed, a one-folder library shows that folder's content, and a several-folder library shows exactly one item per folder in folder order and is not empty |
| Enumeration.AppendItem | Screenbox.Core/ViewModels/FolderViewPageViewModel.cs:156-158 | adding one item appends it to the items and its media, if any, to the playable list |
| Enumeration.AppendBatch | Screenbox.Core/ViewModels/FolderViewPageViewModel.cs:154-159 | the item-by-item loop over a batch appends the batch to the items and its media to the playable list, in order |
| Enumeration.FetchEntries | Screenbox.Core/ViewModels/FolderViewPageViewModel.cs:167-191 | the imperative loader computes exactly the reference load (same state, fetch count and final index), and ends with settled flags; between batches, the playable list is always the media of the entries fetched so far and the items end with those entries |
| FolderViewPage.FetchContent | Screenbox.Core/ViewModels/FolderViewPageViewModel.cs:72-91 | a non-empty trail becomes the breadcrumbs; a single folder becomes a one-folder trail; an empty trail, metadata or any other object leaves the state unchanged |
| FolderViewPage.ParameterDispatch | Screenbox.Core/ViewModels/FolderViewPageViewModel.cs:74-90 | undisturbed on an active page, every parameter kind shows exactly what it names (the trail's last folder, the folder, the library, the query); for folders and queries the playable list is the shown items' media |
| FolderViewPage.OnNavigatedTo | Screenbox.Core/ViewModels/FolderViewPageViewModel.cs:64-70 | navigation remembers the parameter as the source, and the metadata it carries as the navigation data |
| FolderViewPage.NavigationShows | Screenbox.Core/ViewModels/FolderViewPageViewModel.cs:64-70 | undisturbed, a navigation makes the page active, even a torn-down one, and shows exactly what its target names, or keeps the items when the target names nothing loadable |
| FolderViewPage.NavigationUnwraps | Screenbox.Core/ViewModels/FolderViewPageViewModel.cs:68-69 | navigating with metadata wrapping a parameter shows the same items and breadcrumbs as navigating with the bare parameter, and leaves the page active |
| FolderViewPage.Receive | Screenbox.Core/ViewModels/FolderViewPageViewModel.cs:58-62 | a refresh message queues a refresh exactly when the page is active, and does nothing otherwise |
| FolderViewPage.CleanSilencesRefresh | Screenbox.Core/ViewModels/FolderViewPageViewModel.cs:60 | after tear-down, refresh messages are ignored |
| FolderViewPage.NavigationEnablesRefresh | Screenbox.Core/ViewModels/FolderViewPageViewModel.cs:64-66 | after an undisturbed navigation, refresh messages are honoured |
| FolderViewPage.RefreshFolderContent | Screenbox.Core/ViewModels/FolderViewPageViewModel.cs:223-226 | a refresh keeps the remembered navigation data and source, and cannot reactivate the page |
| FolderViewPage.RefreshRepeatsNavigation | Screenbox.Core/ViewModels/FolderViewPageViewModel.cs:67-69 | whatever happened during the load, the target a refresh reloads is the one the navigation chose |
| FolderViewPage.RefreshIdempotent | Screenbox.Core/ViewModels/FolderViewPageViewModel.cs:223-226 | with the folder's or query's contents unchanged, refreshing an undisturbed navigation, undisturbed, shows the same items, breadcrumbs and playable list again |
| FolderViewPage.Play | Screenbox.Core/ViewModels/FolderViewPageViewModel.cs:107-119 | an item without media sends nothing; otherwise the playlist is cleared and re-queued with the playable list exactly when it is out of sync, and the play request always comes last |
| FolderViewPage.PlaySyncsPlaylist | Screenbox.Core/ViewModels/FolderViewPageViewModel.cs:111-118 | after a play, the playlist passes the count-and-reference test, so a second play does not replace it |
| FolderViewPage.Click | Screenbox.Core/ViewModels/FolderViewPageViewModel.cs:128-140 | an item with media is played; a folder navigates to the folder view with the trail extended by that folder, under the current root page; any other item does nothing |
| FolderViewPage.ClickFolderNavigates | Screenbox.Core/ViewModels/FolderViewPageViewModel.cs:99-105 | the page opened by a folder click has the old breadcrumbs plus the folder, shows that folder's content, and keeps the root page |

## Left out

- The UI controls (`MediaListView`, `PlaylistView` and the list-view interaction behaviours) are not part of this model. They only wire XAML events, visual states, drag and drop, focus and scrolling, and their width thresholds compare floating-point sizes.
- Time: the 800 ms debounce is modelled only as whether the timer is armed. Whether it elapses during a fetch is an input (the event schedule).
- Re-entrant loads are not modelled. A second navigation or a queued refresh that starts while an earlier load is suspended would interleave two loops on the same lists. Each modelled load sees only timer and tear-down events at its own await points.
- Exceptions thrown by the storage APIs, and by the `async void` refresh, are not modelled.
- `fetchIndex` is a 32-bit unsigned integer in the source. The model uses an unbounded `nat`, because wrap-around would need more than four billion entries in one folder.
- The storage services, the item factory and the media classification service are external. A folder is a snapshot of its supported children in query order, and each file entry carries its classification. Factory caching and file-type filtering are not modelled.
- `UpdateCaptionAsync` is kept only as an await point. The caption it computes is not modelled.
- The dispatcher queue: `Receive` returns the queued refresh as a message, and the queued call is `RefreshFolderContent`, modelled on its own.
- The messenger and the navigation service are modelled as returned messages. The navigation target page is modelled as a page state receiving `OnNavigatedTo` with the metadata. The reply to the playlist request is an input (`PlaylistInfo`). The source's reference comparison of the playlist's last update against the playable list is the boolean `lastUpdateIsPlayable`. `FolderViewPage.Observe` is an assumed model of how the external playlist service reacts to the page's messages.
- A refresh in this model cannot see storage changes: a folder or query is a snapshot of its contents, while the program's refresh queries storage again and shows whatever it holds then.
- The playable list keeps its object identity across reloads (it is cleared and refilled in place), so the playlist test of `Play` can pass after a reload with as many media as before while the playlist holds the earlier contents. The model's `lastUpdateIsPlayable` is that reference test, not a comparison of contents.
- `PlayNext` (lines 121-126) is not modelled. It forwards an item's media to the messenger and has no effect on the page.
- Property-change and collection-change notifications are not modelled.
