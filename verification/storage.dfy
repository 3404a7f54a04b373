/** Raw storage entries and the view items the page builds from them. The
    storage APIs, the item factory and media classification are external: a
    folder is a snapshot of its supported children in the order the file
    service yields them, and a file entry records what the media
    classification service resolves for it. */
module Storage {
  import opened Wrappers

  /** A storage folder: an opaque identity and its supported children (folders
      and media files passing the file-type filter), in query order. */
  datatype Folder = Folder(id: nat, children: seq<Entry>)

  /** A resolved media handle (the media view model of a playable file). */
  datatype Media = Media(id: nat)

  /** One raw entry yielded by a folder or file query. `resolved` is the media
      the classification service returns for the file, `None` when it is not
      playable. */
  datatype Entry = FolderEntry(folder: Folder) | FileEntry(id: nat, resolved: Option<Media>)

  /** Media classification: folders are never media; a file is what the
      service resolves it to. */
  function Classify(e: Entry): Option<Media>
  {
    match e
    case FolderEntry(_) => None
    case FileEntry(_, m) => m
  }

  /** A view item is identified with the entry the item factory built it
      from; its media is the entry's classification. */
  type Item = Entry

  /** The entries a list of library folders stands for, in folder order. */
  function FolderEntries(folders: seq<Folder>): (r: seq<Entry>)
    ensures |r| == |folders|
    ensures forall i :: 0 <= i < |r| ==> r[i] == FolderEntry(folders[i])
  {
    seq(|folders|, i requires 0 <= i < |folders| => FolderEntry(folders[i]))
  }

  /** What the page adds to its playable list for one item. */
  function MediaList(it: Item): seq<Media>
  {
    if Classify(it).Some? then [Classify(it).value] else []
  }

  /** The media of the items that have media, in the items' order: the list
      the page keeps in lock-step with its items. */
  function MediaOf(items: seq<Item>): (r: seq<Media>)
    ensures |r| <= |items|
  {
    if items == [] then []
    else MediaOf(items[..|items| - 1]) + MediaList(items[|items| - 1])
  }

  /** The playable list holds the media of every item that has media, and
      nothing else. */
  lemma {:induction false} MediaOfMembers(items: seq<Item>)
    ensures forall i :: 0 <= i < |items| && Classify(items[i]).Some? ==> Classify(items[i]).value in MediaOf(items)
    ensures forall m :: m in MediaOf(items) ==> exists i :: 0 <= i < |items| && Classify(items[i]) == Some(m)
    decreases |items|
  {
    if items != [] {
      var init := items[..|items| - 1];
      MediaOfMembers(init);
      assert forall i :: 0 <= i < |init| ==> init[i] == items[i];
    }
  }

  /** Appending items appends their media: the playable list of a
      concatenation is the concatenation of the playable lists. */
  lemma {:induction false} MediaOfAppend(a: seq<Item>, b: seq<Item>)
    ensures MediaOf(a + b) == MediaOf(a) + MediaOf(b)
    decreases |b|
  {
    if b == [] {
      assert a + b == a;
    } else {
      var b' := b[..|b| - 1];
      assert (a + b)[..|a + b| - 1] == a + b';
      assert (a + b)[|a + b| - 1] == b[|b| - 1];
      MediaOfAppend(a, b');
    }
  }

  /** Adding one item adds its own media, if any. */
  lemma MediaOfSnoc(items: seq<Item>, it: Item)
    ensures MediaOf(items + [it]) == MediaOf(items) + MediaList(it)
  {
    assert (items + [it])[..|items|] == items;
  }
}
