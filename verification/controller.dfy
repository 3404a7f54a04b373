/** The folder page's entry points: navigation, the parameter dispatch,
    refresh requests, and the Click and Play commands. Messages the page
    sends (to the playlist, the navigation service or its own dispatcher
    queue) are returned as a list instead of being sent. */
module FolderViewPage {
  import opened Wrappers
  import opened Storage
  import opened PageState
  import opened Enumeration

  /** A message the page sends, in the order it sends them. */
  datatype Message =
    | ClearPlaylist
    | QueuePlaylist(queue: seq<Media>, playNext: bool)
    | PlayMedia(media: Media, existing: bool)
    | NavigateTo(page: PageType, meta: NavMeta)
    | EnqueueRefresh

  /** The last folder of a non-empty breadcrumb trail. */
  function Last(trail: seq<Folder>): Folder
    requires |trail| > 0
  {
    trail[|trail| - 1]
  }

  /** The parameter dispatch: a non-empty breadcrumb trail becomes the
      breadcrumbs and its last folder is loaded; a single folder becomes a
      one-folder trail and is loaded; a library and a file query are loaded
      as such; anything else, an empty trail included, is ignored. */
  function FetchContent(s: State, p: Param, sched: seq<Event>): (r: State)
    ensures (p.Crumbs? && |p.trail| == 0) || p.Navigation? || p.Unrecognised? ==> r == s
    ensures p.Crumbs? && |p.trail| > 0 ==> r.breadcrumbs == p.trail
    ensures p.SingleFolder? ==> r.breadcrumbs == [p.folder]
    ensures p.FileQuery? ==> r.breadcrumbs == s.breadcrumbs
    ensures r.navData == s.navData && r.source == s.source
    ensures r.active ==> s.active
  {
    match p
    case Crumbs(trail) =>
      if |trail| == 0 then s
      else LoadSource(s.(breadcrumbs := trail), Last(trail).children, sched).state
    case SingleFolder(f) => LoadSource(s.(breadcrumbs := [f]), f.children, sched).state
    case Library(folders) => LoadLibrary(s, folders, sched)
    case FileQuery(files) => LoadSource(s, files, sched).state
    case Navigation(_) => s
    case Unrecognised => s
  }

  /** What an undisturbed load of `p` shows, independently of how it pages:
      the entries of the folder, query or library it names, or `None` when
      the items are left as they are. */
  function Shown(p: Param): Option<seq<Item>>
  {
    match p
    case Crumbs(trail) => if |trail| == 0 then None else Some(Last(trail).children)
    case SingleFolder(f) => Some(f.children)
    case Library(folders) =>
      if |folders| == 0 then None
      else if |folders| == 1 then Some(folders[0].children)
      else Some(FolderEntries(folders))
    case FileQuery(files) => Some(files)
    case Navigation(_) => None
    case Unrecognised => None
  }

  /** Parameter dispatch, undisturbed on an active page: the page stays
      active and shows exactly what the parameter names, in order; a folder
      or query load makes the playable list the media of what is shown. */
  lemma ParameterDispatch(s: State, p: Param, sched: seq<Event>)
    requires s.active && NoCleans(sched)
    ensures var r := FetchContent(s, p, sched);
      r.active &&
      (Shown(p).Some? ==> r.items == Shown(p).value) &&
      (Shown(p).None? ==> r.items == s.items) &&
      ((p.Crumbs? && |p.trail| > 0) || p.SingleFolder? || p.FileQuery? ==> r.playable == MediaOf(r.items) && !r.isLoading)
  {
    match p
    case Crumbs(trail) =>
      if |trail| > 0 {
        LoadSourceComplete(s.(breadcrumbs := trail), Last(trail).children, sched);
      }
    case SingleFolder(f) =>
      LoadSourceComplete(s.(breadcrumbs := [f]), f.children, sched);
    case Library(folders) =>
      if |folders| > 0 {
        LoadLibraryComplete(s, folders, sched);
      }
    case FileQuery(files) =>
      LoadSourceComplete(s, files, sched);
    case Navigation(_) =>
    case Unrecognised =>
  }

  /** A navigation: the page becomes active, remembers the parameter and the
      navigation metadata it carries, and loads the wrapped parameter when
      there is one, otherwise the parameter itself. */
  function OnNavigatedTo(s: State, p: Param, sched: seq<Event>): (r: State)
    ensures r.source == p && r.navData == AsNavMeta(p)
  {
    var s1 := s.(active := true, source := p, navData := AsNavMeta(p));
    FetchContent(s1, NavTarget(s1.navData, p), sched)
  }

  /** What a navigation shows: undisturbed, the page is active again (even
      after a tear-down) and shows what its target names, or keeps its items
      when the target names nothing it can load. */
  lemma NavigationShows(s: State, p: Param, sched: seq<Event>)
    requires NoCleans(sched)
    ensures var t := NavTarget(AsNavMeta(p), p);
      var r := OnNavigatedTo(s, p, sched);
      r.active &&
      (Shown(t).Some? ==> r.items == Shown(t).value) &&
      (Shown(t).None? ==> r.items == s.items)
  {
    ParameterDispatch(s.(active := true, source := p, navData := AsNavMeta(p)), NavTarget(AsNavMeta(p), p), sched);
  }

  /** Navigation metadata is unwrapped: navigating with a parameter wrapped in
      metadata shows what navigating with the bare parameter shows. */
  lemma NavigationUnwraps(s: State, root: PageType, q: Param, sched: seq<Event>)
    requires !q.Navigation? && NoCleans(sched)
    ensures var wrapped := OnNavigatedTo(s, Navigation(NavMeta(root, Some(q))), sched);
      var bare := OnNavigatedTo(s, q, sched);
      wrapped.items == bare.items && wrapped.breadcrumbs == bare.breadcrumbs &&
      wrapped.active && bare.active
  {
    var m := NavMeta(root, Some(q));
    ParameterDispatch(s.(active := true, source := Navigation(m), navData := Some(m)), q, sched);
    ParameterDispatch(s.(active := true, source := q, navData := None), q, sched);
  }

  /** A refresh request is queued only while the page is active. */
  function Receive(s: State): (r: seq<Message>)
    ensures s.active ==> r == [EnqueueRefresh]
    ensures !s.active ==> r == []
  {
    if s.active then [EnqueueRefresh] else []
  }

  /** After tear-down, refresh requests are ignored. */
  lemma CleanSilencesRefresh(s: State)
    ensures Receive(Clean(s)) == []
  {
  }

  /** After an undisturbed navigation, refresh requests are honoured. */
  lemma NavigationEnablesRefresh(s: State, p: Param, sched: seq<Event>)
    requires NoCleans(sched)
    ensures Receive(OnNavigatedTo(s, p, sched)) == [EnqueueRefresh]
  {
    ParameterDispatch(s.(active := true, source := p, navData := AsNavMeta(p)), NavTarget(AsNavMeta(p), p), sched);
  }

  /** A queued refresh reloads the remembered navigation target. */
  function RefreshFolderContent(s: State, sched: seq<Event>): (r: State)
    ensures r.navData == s.navData && r.source == s.source
    ensures r.active ==> s.active
  {
    FetchContent(s, NavTarget(s.navData, s.source), sched)
  }

  /** The refresh target is the navigation target: after a navigation with
      `p`, a refresh loads what that navigation loaded, whatever happened
      during the load. */
  lemma RefreshRepeatsNavigation(s: State, p: Param, sched: seq<Event>)
    ensures var r := OnNavigatedTo(s, p, sched);
      NavTarget(r.navData, r.source) == NavTarget(AsNavMeta(p), p)
  {
  }

  /** Refreshing an undisturbed navigation, undisturbed, shows the same items,
      breadcrumbs and playable list again. A folder here is a snapshot of its
      contents, so this is the refresh of storage that has not changed. */
  lemma RefreshIdempotent(s: State, p: Param, sched: seq<Event>, later: seq<Event>)
    requires NoCleans(sched) && NoCleans(later)
    ensures var r := OnNavigatedTo(s, p, sched);
      var r2 := RefreshFolderContent(r, later);
      r2.items == r.items && r2.breadcrumbs == r.breadcrumbs && r2.playable == r.playable
  {
    var t := NavTarget(AsNavMeta(p), p);
    var s1 := s.(active := true, source := p, navData := AsNavMeta(p));
    var r := OnNavigatedTo(s, p, sched);
    ParameterDispatch(s1, t, sched);
    ParameterDispatch(r, t, later);
    SameTargetSameView(s1, r, t, sched, later);
  }

  /** Two undisturbed loads of the same target on active pages agree on the
      breadcrumbs and the playable list, given that they agree beforehand
      where the load leaves them alone. */
  lemma SameTargetSameView(a: State, b: State, t: Param, sa: seq<Event>, sb: seq<Event>)
    requires a.active && b.active && NoCleans(sa) && NoCleans(sb)
    requires b == FetchContent(a, t, sa)
    ensures var rb := FetchContent(b, t, sb);
      rb.breadcrumbs == b.breadcrumbs && rb.playable == b.playable
  {
    match t
    case Crumbs(trail) =>
      if |trail| > 0 {
        LoadSourceComplete(a.(breadcrumbs := trail), Last(trail).children, sa);
        LoadSourceComplete(b.(breadcrumbs := trail), Last(trail).children, sb);
      }
    case SingleFolder(f) =>
      LoadSourceComplete(a.(breadcrumbs := [f]), f.children, sa);
      LoadSourceComplete(b.(breadcrumbs := [f]), f.children, sb);
    case Library(folders) =>
      if |folders| == 1 {
        LoadSourceComplete(a.(breadcrumbs := [folders[0]]), folders[0].children, sa);
        LoadSourceComplete(b.(breadcrumbs := [folders[0]]), folders[0].children, sb);
      }
    case FileQuery(files) =>
      LoadSourceComplete(a, files, sa);
      LoadSourceComplete(b, files, sb);
    case Navigation(_) =>
    case Unrecognised =>
  }

  /** What the page learns from the playlist before playing: its length, and
      whether its last update was this page's playable list (the source
      compares the list by reference). */
  datatype PlaylistInfo = PlaylistInfo(count: nat, lastUpdateIsPlayable: bool)

  /** The test the page applies before playing: the playlist has as many
      entries as the playable list, and its last update was the playable list
      object. That object is the same for the page's whole lifetime, so the
      test can pass after a reload with as many media as before, although the
      playlist then holds the earlier contents. */
  predicate InSync(s: State, info: PlaylistInfo)
  {
    info.count == |s.playable| && info.lastUpdateIsPlayable
  }

  /** Playing an item: nothing for an item without media; otherwise, if the
      playlist does not hold the page's playable list, it is cleared and the
      list queued, and then the item's media is played from the playlist. */
  function Play(s: State, item: Item, info: PlaylistInfo): (r: seq<Message>)
    ensures Classify(item).None? ==> r == []
    ensures Classify(item).Some? ==>
      |r| > 0 && r[|r| - 1] == PlayMedia(Classify(item).value, true) &&
      (InSync(s, info) ==> |r| == 1) &&
      (!InSync(s, info) ==> r[..|r| - 1] == [ClearPlaylist, QueuePlaylist(s.playable, false)])
  {
    match Classify(item)
    case None => []
    case Some(m) =>
      var sync := if InSync(s, info) then [] else [ClearPlaylist, QueuePlaylist(s.playable, false)];
      sync + [PlayMedia(m, true)]
  }

  /** The playlist service's view of the page's messages: clearing empties
      the playlist, queueing this page's list appends it and makes it the
      last update, playing an existing item changes neither. */
  function Observe(info: PlaylistInfo, msgs: seq<Message>): PlaylistInfo
    decreases |msgs|
  {
    if msgs == [] then info
    else
      var next := match msgs[0]
        case ClearPlaylist => PlaylistInfo(0, false)
        case QueuePlaylist(q, _) => PlaylistInfo(info.count + |q|, true)
        case _ => info;
      Observe(next, msgs[1..])
  }

  /** After playing an item with media, the playlist passes the
      count-and-reference test, so playing again does not replace it. */
  lemma PlaySyncsPlaylist(s: State, item: Item, other: Item, info: PlaylistInfo)
    requires Classify(item).Some? && Classify(other).Some?
    ensures var after := Observe(info, Play(s, item, info));
      InSync(s, after) && Play(s, other, after) == [PlayMedia(Classify(other).value, true)]
  {
    var m := Classify(item).value;
    var msgs := Play(s, item, info);
    var synced := PlaylistInfo(|s.playable|, true);
    if !InSync(s, info) {
      assert msgs == [ClearPlaylist, QueuePlaylist(s.playable, false), PlayMedia(m, true)];
      assert Observe(info, msgs) == Observe(PlaylistInfo(0, false), msgs[1..]);
      assert Observe(PlaylistInfo(0, false), msgs[1..]) == Observe(synced, msgs[2..]);
      assert Observe(synced, msgs[2..]) == Observe(synced, msgs[3..]);
      assert msgs[3..] == [];
    } else {
      assert msgs == [PlayMedia(m, true)];
      assert Observe(info, msgs) == Observe(info, msgs[1..]);
      assert msgs[1..] == [];
    }
  }

  /** The root page of the current navigation, by default the folder view
      with header. */
  function RootPage(navData: Option<NavMeta>): PageType
  {
    if navData.Some? then navData.value.rootPage else FolderViewWithHeaderPage
  }

  /** Clicking an item: an item with media is played; a folder is opened by
      navigating to the folder view with the breadcrumbs extended by it,
      keeping the current root page; anything else does nothing. */
  function Click(s: State, item: Item, info: PlaylistInfo): (r: seq<Message>)
    ensures Classify(item).Some? ==> r == Play(s, item, info)
    ensures item.FolderEntry? ==>
      r == [NavigateTo(FolderViewWithHeaderPage,
                       NavMeta(RootPage(s.navData), Some(Crumbs(s.breadcrumbs + [item.folder]))))]
    ensures item.FileEntry? && Classify(item).None? ==> r == []
  {
    if Classify(item).Some? then Play(s, item, info)
    else if item.FolderEntry? then
      [NavigateTo(FolderViewWithHeaderPage, NavMeta(RootPage(s.navData), Some(Crumbs(s.breadcrumbs + [item.folder]))))]
    else []
  }

  /** Opening a folder: the page the click navigates to, undisturbed, has the
      breadcrumbs extended by the folder, shows the folder's content, and
      keeps the root page. */
  lemma ClickFolderNavigates(s: State, f: Folder, info: PlaylistInfo, next: State, sched: seq<Event>)
    requires NoCleans(sched)
    ensures var msgs := Click(s, FolderEntry(f), info);
      |msgs| == 1 && msgs[0].NavigateTo? &&
      var r := OnNavigatedTo(next, Navigation(msgs[0].meta), sched);
      r.breadcrumbs == s.breadcrumbs + [f] && r.items == f.children &&
      RootPage(r.navData) == RootPage(s.navData)
  {
    var trail := s.breadcrumbs + [f];
    var m := NavMeta(RootPage(s.navData), Some(Crumbs(trail)));
    assert Last(trail) == f;
    ParameterDispatch(next.(active := true, source := Navigation(m), navData := Some(m)), Crumbs(trail), sched);
  }
}
