/** The state of the folder page's view model, the navigation parameters it
    accepts, and the events that can arrive while a load is suspended. */
module PageState {
  import opened Wrappers
  import opened Storage

  /** The page types a navigation request can name as its root. */
  datatype PageType = FolderViewWithHeaderPage | OtherPage(id: nat)

  /** A navigation parameter, classified the way the page's type switch
      classifies it. `Unrecognised` covers `null` and every other object. */
  datatype Param =
    | Crumbs(trail: seq<Folder>)
    | SingleFolder(folder: Folder)
    | Library(folders: seq<Folder>)
    | FileQuery(files: seq<Entry>)
    | Navigation(meta: NavMeta)
    | Unrecognised

  /** Navigation metadata: the root page type and an optional wrapped parameter. */
  datatype NavMeta = NavMeta(rootPage: PageType, parameter: Option<Param>)

  /** The view model's state. `playable` is the private playable list,
      `active` the private liveness field, `timerPending` whether the loading
      timer is armed; `navData` and `source` remember the last navigation. */
  datatype State = State(
    items: seq<Item>,
    playable: seq<Media>,
    breadcrumbs: seq<Folder>,
    navData: Option<NavMeta>,
    source: Param,
    isEmpty: bool,
    isLoading: bool,
    active: bool,
    timerPending: bool)

  /** The freshly constructed view model. The constructor activates the
      messenger registration, not the private liveness field, which starts false. */
  function Init(): (s: State)
    ensures s.items == [] && s.playable == [] && s.breadcrumbs == []
    ensures !s.active && !s.timerPending && !s.isLoading && !s.isEmpty
  {
    State([], [], [], None, Unrecognised, false, false, false, false)
  }

  /** Tearing the view down: the page becomes inactive and its items are
      cleared. The playable list, breadcrumbs, flags and timer are left as they are. */
  function Clean(s: State): (r: State)
    ensures !r.active && r.items == []
    ensures r.playable == s.playable && r.breadcrumbs == s.breadcrumbs
    ensures r.navData == s.navData && r.source == s.source
    ensures r.isEmpty == s.isEmpty && r.isLoading == s.isLoading && r.timerPending == s.timerPending
  {
    s.(active := false, items := [])
  }

  /** The loading timer elapsing: if armed, it shows the loading indicator
      and disarms itself (it is one-shot). */
  function FireTimer(s: State): (r: State)
    ensures s.timerPending ==> r.isLoading && !r.timerPending
    ensures !s.timerPending ==> r == s
    ensures r.items == s.items && r.playable == s.playable && r.active == s.active
  {
    if s.timerPending then s.(isLoading := true, timerPending := false) else s
  }

  /** What else happens while a load is suspended at one await point: the
      timer may elapse, and the page may be torn down. */
  datatype Event = Event(timerFires: bool, clean: bool)

  const Quiet := Event(false, false)

  /** The effect of one await point's event on the state. */
  function Interrupt(s: State, e: Event): (r: State)
    ensures e.clean ==> !r.active && r.items == []
    ensures !e.clean ==> r.active == s.active && r.items == s.items
    ensures r.playable == s.playable && r.breadcrumbs == s.breadcrumbs
    ensures r.navData == s.navData && r.source == s.source && r.isEmpty == s.isEmpty
    ensures !s.timerPending ==> !r.timerPending && r.isLoading == s.isLoading
  {
    var t := if e.timerFires then FireTimer(s) else s;
    if e.clean then Clean(t) else t
  }

  /** The end of a folder or query load: the timer is stopped, the loading
      indicator hidden and the empty flag set from the items. */
  function Settle(s: State): (r: State)
    ensures !r.timerPending && !r.isLoading && (r.isEmpty <==> r.items == [])
    ensures r.items == s.items && r.playable == s.playable && r.active == s.active
    ensures r.breadcrumbs == s.breadcrumbs && r.navData == s.navData && r.source == s.source
  {
    s.(timerPending := false, isLoading := false, isEmpty := |s.items| == 0)
  }

  /** The object the page loads for a navigation: the wrapped parameter of
      navigation metadata when there is one, otherwise the parameter itself. */
  function NavTarget(navData: Option<NavMeta>, source: Param): (t: Param)
    ensures navData.Some? && navData.value.parameter.Some? ==> t == navData.value.parameter.value
    ensures navData.None? || navData.value.parameter.None? ==> t == source
  {
    if navData.Some? then navData.value.parameter.GetOr(source) else source
  }

  /** The navigation metadata carried by a parameter, if it is metadata. */
  function AsNavMeta(p: Param): Option<NavMeta>
  {
    if p.Navigation? then Some(p.meta) else None
  }
}
