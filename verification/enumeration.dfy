/** The paging loader: folder and file-query sources are drained in batches of
    thirty, each entry appended as a view item, until an empty batch comes back
    or the page is found inactive at the loop head. Library roots with several
    folders are listed one item per folder instead. */
module Enumeration {
  import opened Wrappers
  import opened Storage
  import opened PageState

  /** The number of entries requested per fetch. */
  const BatchSize: nat := 30

  function Min(a: int, b: int): int
  {
    if a <= b then a else b
  }

  /** `IsSuffix(a, b)`: `a` is what is left of `b` after dropping a prefix. */
  predicate IsSuffix<T(==)>(a: seq<T>, b: seq<T>)
  {
    |a| <= |b| && a == b[|b| - |a|..]
  }

  /** The event at the `k`-th await point of a load; none beyond the schedule. */
  function EventAt(sched: seq<Event>, k: nat): Event
  {
    if k < |sched| then sched[k] else Quiet
  }

  /** No tear-down at any await point numbered `lo` up to, not including, `hi`. */
  predicate NoCleansIn(sched: seq<Event>, lo: nat, hi: nat)
  {
    forall i: nat :: lo <= i < hi ==> !EventAt(sched, i).clean
  }

  /** No tear-down at any await point at all. */
  ghost predicate NoCleans(sched: seq<Event>)
  {
    forall i: nat :: !EventAt(sched, i).clean
  }

  /** One fetch of `count = 30` entries at offset `off` from a source whose
      content is `src`: at most thirty entries, exactly the ones that follow
      `off`, and fewer than thirty only at the end of the source. */
  function Batch(src: seq<Entry>, off: nat): (b: seq<Entry>)
    requires off <= |src|
    ensures |b| <= BatchSize
    ensures off + |b| <= |src| && b == src[off .. off + |b|]
    ensures |b| == BatchSize || off + |b| == |src|
  {
    src[off .. Min(off + BatchSize, |src|)]
  }

  /** The result of a paging run: the final state, the number of fetches
      issued and the final fetch index. */
  datatype Run = Run(state: State, fetches: nat, fetchIndex: nat)

  /** Appends a batch of items, and the media of those that have media. */
  function AppendItems(s: State, batch: seq<Item>): State
  {
    s.(items := s.items + batch, playable := s.playable + MediaOf(batch))
  }

  /** Reaching the await of a fetch: the timer is re-armed, then the events
      of the `k`-th await point take effect. */
  function Await(s: State, sched: seq<Event>, k: nat): State
  {
    Interrupt(s.(timerPending := true), EventAt(sched, k))
  }

  /** The paging loop from fetch index `off`, the next await point being the
      `k`-th. At the loop head the liveness field is tested; the timer is
      re-armed; the fetch is awaited (events may arrive); an empty batch ends
      the loop, otherwise the batch is appended, even if the page was torn
      down during the await. */
  function FetchLoop(s: State, src: seq<Entry>, sched: seq<Event>, off: nat, k: nat): (r: Run)
    requires off <= |src|
    ensures off <= r.fetchIndex <= |src|
    ensures r.state.breadcrumbs == s.breadcrumbs && r.state.navData == s.navData
    ensures r.state.source == s.source && r.state.isEmpty == s.isEmpty
    ensures r.state.active ==> s.active
    ensures !s.active ==> r == Run(s, 0, off)
    decreases |src| - off
  {
    if !s.active then Run(s, 0, off)
    else
      var b := Batch(src, off);
      var s1 := Await(s, sched, k);
      if |b| == 0 then Run(s1, 1, off)
      else
        var r := FetchLoop(AppendItems(s1, b), src, sched, off + |b|, k + 1);
        Run(r.state, r.fetches + 1, r.fetchIndex)
  }

  /** One turn of the loop with a non-empty batch: the rest of the run
      continues from the state with that batch appended. */
  lemma FetchLoopUnfold(s: State, src: seq<Entry>, sched: seq<Event>, off: nat, k: nat)
    requires off <= |src| && s.active && |Batch(src, off)| > 0
    ensures var b := Batch(src, off);
      var r2 := FetchLoop(AppendItems(Await(s, sched, k), b), src, sched, off + |b|, k + 1);
      FetchLoop(s, src, sched, off, k) == Run(r2.state, r2.fetches + 1, r2.fetchIndex)
  {
  }

  /** The last turn of the loop: an empty batch ends it after the await. */
  lemma FetchLoopLast(s: State, src: seq<Entry>, sched: seq<Event>, off: nat, k: nat)
    requires off <= |src| && s.active && |Batch(src, off)| == 0
    ensures FetchLoop(s, src, sched, off, k) == Run(Await(s, sched, k), 1, off)
  {
  }

  /** An await point either leaves the items alone or clears them. */
  lemma AwaitKeepsSuffix(s: State, sched: seq<Event>, k: nat)
    ensures IsSuffix(Await(s, sched, k).items, s.items)
    ensures Await(s, sched, k).playable == s.playable
  {
    if EventAt(sched, k).clean {
      assert s.items[|s.items|..] == [];
    } else {
      assert s.items[0..] == s.items;
    }
  }

  /** A suffix of `b + c`, where `b` is a suffix of `a`, is a suffix of `a + c`. */
  lemma SuffixStep<T>(a: seq<T>, b: seq<T>, c: seq<T>, x: seq<T>)
    requires IsSuffix(b, a) && IsSuffix(x, b + c)
    ensures IsSuffix(x, a + c)
  {
    assert (a + c)[|a + c| - |b + c|..] == b + c;
    assert (a + c)[|a + c| - |x|..] == (b + c)[|b + c| - |x|..];
  }

  /** Nothing is consumed when the loop ends at once. */
  lemma NothingConsumed(src: seq<Entry>, off: nat)
    requires off <= |src|
    ensures src[off .. off] == [] && MediaOf(src[off .. off]) == []
  {
  }

  /** Nothing is consumed when the loop ends at once: an inactive page, or an
      empty first batch. */
  lemma FetchLoopTracksEnd(s: State, src: seq<Entry>, sched: seq<Event>, off: nat, k: nat)
    requires off <= |src| && (!s.active || |Batch(src, off)| == 0)
    ensures var r := FetchLoop(s, src, sched, off, k);
      r.fetchIndex == off && r.state.playable == s.playable && IsSuffix(r.state.items, s.items)
  {
    if s.active {
      FetchLoopLast(s, src, sched, off, k);
      AwaitKeepsSuffix(s, sched, k);
    } else {
      assert s.items == s.items[0..];
    }
  }

  lemma PlayableEnd(s: State, src: seq<Entry>, sched: seq<Event>, off: nat, k: nat)
    requires off <= |src| && (!s.active || |Batch(src, off)| == 0)
    ensures var r := FetchLoop(s, src, sched, off, k);
      r.state.playable == s.playable + MediaOf(src[off .. r.fetchIndex])
  {
    FetchLoopTracksEnd(s, src, sched, off, k);
    NothingConsumed(src, off);
    assert s.playable + [] == s.playable;
  }

  lemma ItemsEnd(s: State, src: seq<Entry>, sched: seq<Event>, off: nat, k: nat)
    requires off <= |src| && (!s.active || |Batch(src, off)| == 0)
    ensures var r := FetchLoop(s, src, sched, off, k);
      IsSuffix(r.state.items, s.items + src[off .. r.fetchIndex])
  {
    FetchLoopTracksEnd(s, src, sched, off, k);
    NothingConsumed(src, off);
    assert s.items + [] == s.items;
  }

  /** The entries consumed from `off` are the next batch followed by the rest. */
  lemma ConsumedItems(src: seq<Entry>, off: nat, end: nat)
    requires off <= |src| && off + |Batch(src, off)| <= end <= |src|
    ensures src[off..end] == Batch(src, off) + src[off + |Batch(src, off)|..end]
  {
  }

  /** The media of the entries consumed from `off` are those of the next
      batch followed by those of the rest. */
  lemma ConsumedMedia(src: seq<Entry>, off: nat, end: nat)
    requires off <= |src| && off + |Batch(src, off)| <= end <= |src|
    ensures MediaOf(src[off..end]) == MediaOf(Batch(src, off)) + MediaOf(src[off + |Batch(src, off)|..end])
  {
    ConsumedItems(src, off, end);
    MediaOfAppend(Batch(src, off), src[off + |Batch(src, off)|..end]);
  }

  /** Regrouping a concatenation of three sequences. */
  lemma Regroup<T>(a: seq<T>, b: seq<T>, c: seq<T>, x: seq<T>)
    requires x == (a + b) + c
    ensures x == a + (b + c)
  {
  }

  /** The item bookkeeping of one turn: what is left of `items` after an
      await, plus the batch, plus what the rest of the run appends, ends
      with everything consumed. */
  lemma ItemsStep<T>(items: seq<T>, items1: seq<T>, b: seq<T>, rest: seq<T>, x: seq<T>)
    requires IsSuffix(items1, items) && IsSuffix(x, (items1 + b) + rest)
    ensures IsSuffix(x, items + (b + rest))
  {
    assert (items1 + b) + rest == items1 + (b + rest);
    SuffixStep(items, items1, b + rest, x);
  }

  /** The playable bookkeeping of one turn: the batch's media followed by
      the media the rest of the run adds are the media of everything
      consumed from `off`. */
  lemma PlayableStep(p: seq<Media>, src: seq<Entry>, off: nat, end: nat, x: seq<Media>)
    requires off <= |src| && off + |Batch(src, off)| <= end <= |src|
    requires x == (p + MediaOf(Batch(src, off))) + MediaOf(src[off + |Batch(src, off)| .. end])
    ensures x == p + MediaOf(src[off .. end])
  {
    ConsumedMedia(src, off, end);
    Regroup(p, MediaOf(Batch(src, off)), MediaOf(src[off + |Batch(src, off)| .. end]), x);
  }

  /** One turn of the playable-list argument: if the rest of the run, from
      the state with the first batch appended, adds the media of what it
      consumes, so does the whole run. */
  lemma PlayableTurn(s: State, src: seq<Entry>, sched: seq<Event>, off: nat, k: nat)
    requires off <= |src| && s.active && |Batch(src, off)| > 0
    requires var b := Batch(src, off);
      var s2 := AppendItems(Await(s, sched, k), b);
      var r2 := FetchLoop(s2, src, sched, off + |b|, k + 1);
      r2.state.playable == s2.playable + MediaOf(src[off + |b| .. r2.fetchIndex])
    ensures var r := FetchLoop(s, src, sched, off, k);
      r.state.playable == s.playable + MediaOf(src[off .. r.fetchIndex])
  {
    var b := Batch(src, off);
    var r2 := FetchLoop(AppendItems(Await(s, sched, k), b), src, sched, off + |b|, k + 1);
    FetchLoopUnfold(s, src, sched, off, k);
    PlayableStep(s.playable, src, off, r2.fetchIndex, r2.state.playable);
  }

  /** The item bookkeeping of one turn, on the source: what is left after an
      await, plus the batch, plus what the rest of the run appends, ends with
      everything consumed from `off`. */
  lemma ItemsStepSrc(items: seq<Item>, items1: seq<Item>, src: seq<Entry>, off: nat, end: nat, x: seq<Item>)
    requires off <= |src| && off + |Batch(src, off)| <= end <= |src|
    requires IsSuffix(items1, items)
    requires IsSuffix(x, (items1 + Batch(src, off)) + src[off + |Batch(src, off)| .. end])
    ensures IsSuffix(x, items + src[off .. end])
  {
    ConsumedItems(src, off, end);
    ItemsStep(items, items1, Batch(src, off), src[off + |Batch(src, off)| .. end], x);
  }

  /** One turn of the item argument: if the items at the end of the rest of
      the run end with what it consumed, the items at the end of the whole
      run end with what the whole run consumed. */
  lemma ItemsTurn(s: State, src: seq<Entry>, sched: seq<Event>, off: nat, k: nat)
    requires off <= |src| && s.active && |Batch(src, off)| > 0
    requires var b := Batch(src, off);
      var s2 := AppendItems(Await(s, sched, k), b);
      var r2 := FetchLoop(s2, src, sched, off + |b|, k + 1);
      IsSuffix(r2.state.items, s2.items + src[off + |b| .. r2.fetchIndex])
    ensures var r := FetchLoop(s, src, sched, off, k);
      IsSuffix(r.state.items, s.items + src[off .. r.fetchIndex])
  {
    var b := Batch(src, off);
    var s1 := Await(s, sched, k);
    var r2 := FetchLoop(AppendItems(s1, b), src, sched, off + |b|, k + 1);
    FetchLoopUnfold(s, src, sched, off, k);
    AwaitKeepsSuffix(s, sched, k);
    ItemsStepSrc(s.items, s1.items, src, off, r2.fetchIndex, r2.state.items);
  }

  /** The playable list tracks the items: whatever happens at the await
      points, the loop adds to the playable list exactly the media of the
      entries it consumed, in order. */
  lemma {:induction false} FetchLoopPlayable(s: State, src: seq<Entry>, sched: seq<Event>, off: nat, k: nat)
    requires off <= |src|
    ensures var r := FetchLoop(s, src, sched, off, k);
      r.state.playable == s.playable + MediaOf(src[off .. r.fetchIndex])
    decreases |src| - off
  {
    if !s.active || |Batch(src, off)| == 0 {
      PlayableEnd(s, src, sched, off, k);
    } else {
      var b := Batch(src, off);
      FetchLoopPlayable(AppendItems(Await(s, sched, k), b), src, sched, off + |b|, k + 1);
      PlayableTurn(s, src, sched, off, k);
    }
  }

  /** Whatever happens at the await points, the items end with the entries
      the loop consumed, in order (all of them unless a tear-down cleared
      some). */
  lemma {:induction false} FetchLoopItems(s: State, src: seq<Entry>, sched: seq<Event>, off: nat, k: nat)
    requires off <= |src|
    ensures var r := FetchLoop(s, src, sched, off, k);
      IsSuffix(r.state.items, s.items + src[off .. r.fetchIndex])
    decreases |src| - off
  {
    if !s.active || |Batch(src, off)| == 0 {
      ItemsEnd(s, src, sched, off, k);
    } else {
      var b := Batch(src, off);
      FetchLoopItems(AppendItems(Await(s, sched, k), b), src, sched, off + |b|, k + 1);
      ItemsTurn(s, src, sched, off, k);
    }
  }

  /** Fetch counting: a batch of `len` out of `n` remaining entries is full
      unless it is the last, so it takes one fetch off the count. */
  lemma FetchCountStep(n: nat, len: nat)
    requires 0 < len <= n && len <= 30 && (len == 30 || len == n)
    ensures (n - len + 29) / 30 + 1 == (n + 29) / 30
  {
  }

  /** The batch followed by everything after it is everything from `off`. */
  lemma RestAfterBatch(src: seq<Entry>, off: nat)
    requires off <= |src|
    ensures var b := Batch(src, off);
      src[off..] == b + src[off + |b|..] &&
      MediaOf(src[off..]) == MediaOf(b) + MediaOf(src[off + |b|..])
  {
    var b := Batch(src, off);
    assert src[off..] == b + src[off + |b|..];
    MediaOfAppend(b, src[off + |b|..]);
  }

  /** The last turn of an undisturbed loop: nothing was left to consume. */
  lemma FetchLoopCompleteEnd(s: State, src: seq<Entry>, sched: seq<Event>, off: nat, k: nat)
    requires off <= |src| && s.active && !EventAt(sched, k).clean && |Batch(src, off)| == 0
    ensures var r := FetchLoop(s, src, sched, off, k);
      r.state.active && r.fetchIndex == |src| &&
      r.state.items == s.items + src[off..] &&
      r.state.playable == s.playable + MediaOf(src[off..]) &&
      r.fetches == (|src| - off + 29) / 30 + 1
  {
    FetchLoopLast(s, src, sched, off, k);
    assert src[off..] == [];
    assert s.items + [] == s.items && s.playable + [] == s.playable;
  }

  /** Complete, in order: while the page stays active the loop drains the
      whole source, ends active with every entry appended in yield order and
      their media in the playable list, and issues one fetch per batch of
      thirty plus the final empty one. */
  lemma {:induction false} FetchLoopComplete(s: State, src: seq<Entry>, sched: seq<Event>, off: nat, k: nat)
    requires off <= |src| && s.active && NoCleans(sched)
    ensures var r := FetchLoop(s, src, sched, off, k);
      r.state.active && r.fetchIndex == |src| &&
      r.state.items == s.items + src[off..] &&
      r.state.playable == s.playable + MediaOf(src[off..]) &&
      r.fetches == (|src| - off + 29) / 30 + 1
    decreases |src| - off
  {
    var b := Batch(src, off);
    assert !EventAt(sched, k).clean;
    if |b| == 0 {
      FetchLoopCompleteEnd(s, src, sched, off, k);
    } else {
      var s2 := AppendItems(Await(s, sched, k), b);
      FetchLoopUnfold(s, src, sched, off, k);
      FetchLoopComplete(s2, src, sched, off + |b|, k + 1);
      var r2 := FetchLoop(s2, src, sched, off + |b|, k + 1);
      RestAfterBatch(src, off);
      Regroup(s.items, b, src[off + |b|..], r2.state.items);
      Regroup(s.playable, MediaOf(b), MediaOf(src[off + |b|..]), r2.state.playable);
      FetchCountStep(|src| - off, |b|);
    }
  }

  /** A tear-down at the very next await: one fetch, and only its batch shown. */
  lemma CleanAtAwait(s: State, src: seq<Entry>, sched: seq<Event>, off: nat, k: nat)
    requires off <= |src| && s.active && EventAt(sched, k).clean
    ensures var r := FetchLoop(s, src, sched, off, k);
      r.fetches == 1 && !r.state.active && r.state.items == Batch(src, off)
  {
    var b := Batch(src, off);
    if |b| == 0 {
      FetchLoopLast(s, src, sched, off, k);
    } else {
      FetchLoopUnfold(s, src, sched, off, k);
      assert [] + b == b;
    }
  }

  /** The offset of the `j`-th fetch from `off` is that of the `(j - 1)`-th
      fetch from the end of the first batch. */
  lemma NextMid(n: nat, off: nat, len: nat, j: nat)
    requires off < n && 0 < len <= 30 && off + len <= n && (len == 30 || off + len == n)
    requires 0 < j && off + j * 30 < n + 30
    ensures off + len + (j - 1) * 30 < n + 30
    ensures Min(off + len + (j - 1) * 30, n) == Min(off + j * 30, n)
  {
  }

  /** The arithmetic and schedule facts for moving from the `j`-th fetch
      after `off` to the `(j - 1)`-th fetch after the first batch. */
  lemma CleanShift(src: seq<Entry>, sched: seq<Event>, off: nat, k: nat, j: nat)
    requires off <= |src| && 0 < j && off + j * 30 < |src| + 30
    requires NoCleansIn(sched, k, k + j)
    ensures off < |src| && !EventAt(sched, k).clean
    ensures NoCleansIn(sched, k + 1, k + 1 + (j - 1))
    ensures off + |Batch(src, off)| + (j - 1) * 30 < |src| + 30
  {
    FirstOffset(|src|, off, j);
    NextMid(|src|, off, |Batch(src, off)|, j);
  }

  /** The `j`-th fetch still lies within the source only if the first does. */
  lemma FirstOffset(n: nat, off: nat, j: nat)
    requires 0 < j && off + j * 30 < n + 30
    ensures off < n
  {
  }

  /** One turn of the tear-down argument: a first undisturbed fetch, then
      what the rest of the run does from the next batch offset. */
  lemma CleanTurn(s: State, src: seq<Entry>, sched: seq<Event>, off: nat, k: nat, j: nat)
    requires off < |src| && s.active && 0 < j
    requires var b := Batch(src, off);
      var s2 := AppendItems(Await(s, sched, k), b);
      var r2 := FetchLoop(s2, src, sched, off + |b|, k + 1);
      r2.fetches == j && !r2.state.active &&
      r2.state.items == Batch(src, Min(off + |b| + (j - 1) * 30, |src|))
    requires off + j * 30 < |src| + 30
    ensures var r := FetchLoop(s, src, sched, off, k);
      r.fetches == j + 1 && !r.state.active &&
      r.state.items == Batch(src, Min(off + j * 30, |src|))
  {
    var b := Batch(src, off);
    FetchLoopUnfold(s, src, sched, off, k);
    NextMid(|src|, off, |b|, j);
  }

  /** Liveness is checked only at the loop head: if the page is torn down at
      the `(k + j)`-th await point, after `j` undisturbed fetches, exactly one
      more fetch has been issued, none follows it, and the batch already
      awaited is still appended to the (cleared) items. */
  lemma {:induction false} CleanStopsFetching(s: State, src: seq<Entry>, sched: seq<Event>, off: nat, k: nat, j: nat)
    requires off <= |src| && s.active
    requires off + j * 30 < |src| + 30
    requires NoCleansIn(sched, k, k + j) && EventAt(sched, k + j).clean
    ensures var r := FetchLoop(s, src, sched, off, k);
      r.fetches == j + 1 && !r.state.active &&
      r.state.items == Batch(src, Min(off + j * 30, |src|))
    decreases j, 1
  {
    if j == 0 {
      CleanAtAwait(s, src, sched, off, k);
    } else {
      CleanStopsLater(s, src, sched, off, k, j);
    }
  }

  /** The case of `CleanStopsFetching` with at least one undisturbed fetch
      before the tear-down. */
  lemma {:induction false} CleanStopsLater(s: State, src: seq<Entry>, sched: seq<Event>, off: nat, k: nat, j: nat)
    requires off <= |src| && s.active && 0 < j
    requires off + j * 30 < |src| + 30
    requires NoCleansIn(sched, k, k + j) && EventAt(sched, k + j).clean
    ensures var r := FetchLoop(s, src, sched, off, k);
      r.fetches == j + 1 && !r.state.active &&
      r.state.items == Batch(src, Min(off + j * 30, |src|))
    decreases j, 0
  {
    var b := Batch(src, off);
    CleanShift(src, sched, off, k, j);
    CleanStopsFetching(AppendItems(Await(s, sched, k), b), src, sched, off + |b|, k + 1, j - 1);
    CleanTurn(s, src, sched, off, k, j);
  }

  /** A folder or file-query load: the items and the playable list are
      cleared, the paging loop runs from index 0, and the flags are settled,
      whether or not the page was torn down meanwhile. */
  function LoadSource(s: State, src: seq<Entry>, sched: seq<Event>): (r: Run)
    ensures !r.state.timerPending && !r.state.isLoading && (r.state.isEmpty <==> r.state.items == [])
    ensures r.fetchIndex <= |src|
    ensures r.state.breadcrumbs == s.breadcrumbs && r.state.navData == s.navData && r.state.source == s.source
    ensures r.state.active ==> s.active
    ensures !s.active ==> r.fetches == 0 && r.state.items == [] && r.state.playable == []
  {
    var run := FetchLoop(s.(items := [], playable := []), src, sched, 0, 0);
    Run(Settle(run.state), run.fetches, run.fetchIndex)
  }

  /** Whatever happens during a load, the playable list is exactly the media
      of the entries fetched so far, in order, and the items are those
      entries, or what is left of them after a tear-down. */
  lemma LoadSourceTracks(s: State, src: seq<Entry>, sched: seq<Event>)
    ensures var r := LoadSource(s, src, sched);
      r.state.playable == MediaOf(src[..r.fetchIndex]) && IsSuffix(r.state.items, src[..r.fetchIndex])
  {
    var s0 := s.(items := [], playable := []);
    FetchLoopPlayable(s0, src, sched, 0, 0);
    FetchLoopItems(s0, src, sched, 0, 0);
    var run := FetchLoop(s0, src, sched, 0, 0);
    assert src[0 .. run.fetchIndex] == src[..run.fetchIndex];
  }

  /** An undisturbed load of an active page shows exactly the source's entries
      in yield order with their media as the playable list, and settles the
      flags. */
  lemma LoadSourceComplete(s: State, src: seq<Entry>, sched: seq<Event>)
    requires s.active && NoCleans(sched)
    ensures LoadSource(s, src, sched).state ==
      s.(items := src, playable := MediaOf(src), isEmpty := |src| == 0, isLoading := false, timerPending := false)
  {
    var s0 := s.(items := [], playable := []);
    FetchLoopComplete(s0, src, sched, 0, 0);
    FromStart(src);
    SettledLoad(s, FetchLoop(s0, src, sched, 0, 0).state, src);
  }

  /** An undisturbed load of an active page takes one fetch per batch of
      thirty entries, plus the final empty one. */
  lemma LoadSourceFetches(s: State, src: seq<Entry>, sched: seq<Event>)
    requires s.active && NoCleans(sched)
    ensures LoadSource(s, src, sched).fetches == (|src| + 29) / 30 + 1
  {
    FetchLoopComplete(s.(items := [], playable := []), src, sched, 0, 0);
  }

  /** Loading from index 0 into emptied lists yields the whole source. */
  lemma FromStart(src: seq<Entry>)
    ensures [] + src[0..] == src && [] + MediaOf(src[0..]) == MediaOf(src)
  {
    assert src[0..] == src;
  }

  /** A state that differs from `s` only in its items and playable list
      settles to `s` with those and the flags replaced. */
  lemma SettledLoad(s: State, x: State, src: seq<Entry>)
    requires x.items == src && x.playable == MediaOf(src) && x.active == s.active
    requires x.breadcrumbs == s.breadcrumbs && x.navData == s.navData && x.source == s.source
    ensures Settle(x) == s.(items := src, playable := MediaOf(src), isEmpty := |src| == 0,
                            isLoading := false, timerPending := false)
  {
  }

  /** A forty-five entry folder: three fetches (thirty, fifteen, then the
      empty one that ends the loop), forty-five items, not empty, not loading. */
  lemma FortyFiveEntries(s: State, src: seq<Entry>, sched: seq<Event>)
    requires s.active && NoCleans(sched) && |src| == 45
    ensures var r := LoadSource(s, src, sched);
      r.fetches == 3 && |r.state.items| == 45 && !r.state.isEmpty && !r.state.isLoading
  {
    LoadSourceComplete(s, src, sched);
    LoadSourceFetches(s, src, sched);
  }

  /** The library listing: one item per folder, each followed by the await
      of its caption update, with no liveness check between them. */
  function LibraryLoop(s: State, folders: seq<Folder>, i: nat, sched: seq<Event>): (r: State)
    requires i <= |folders|
    ensures r.playable == s.playable && r.breadcrumbs == s.breadcrumbs
    ensures r.navData == s.navData && r.source == s.source && r.isEmpty == s.isEmpty
    ensures r.active ==> s.active
    ensures !s.timerPending ==> !r.timerPending && r.isLoading == s.isLoading
    decreases |folders| - i
  {
    if i == |folders| then s
    else
      var added := s.(items := s.items + [FolderEntry(folders[i])]);
      LibraryLoop(Interrupt(added, EventAt(sched, i)), folders, i + 1, sched)
  }

  /** Undisturbed, the library listing appends one item per remaining
      folder, in folder order. */
  lemma {:induction false} LibraryLoopComplete(s: State, folders: seq<Folder>, i: nat, sched: seq<Event>)
    requires i <= |folders| && NoCleansIn(sched, i, |folders|)
    ensures var r := LibraryLoop(s, folders, i, sched);
      r.items == s.items + FolderEntries(folders)[i..] && r.active == s.active
    decreases |folders| - i
  {
    var fe := FolderEntries(folders);
    if i == |folders| {
      assert fe[i..] == [];
      assert s.items + [] == s.items;
    } else {
      assert !EventAt(sched, i).clean;
      var added := s.(items := s.items + [FolderEntry(folders[i])]);
      LibraryLoopComplete(Interrupt(added, EventAt(sched, i)), folders, i + 1, sched);
      assert fe[i..] == [fe[i]] + fe[i + 1..];
      Regroup(s.items, [fe[i]], fe[i + 1..], LibraryLoop(s, folders, i, sched).items);
    }
  }

  /** The library listing does not check liveness: a tear-down at the caption
      await of folder `j` clears the items, and the folders after `j` are
      still listed. */
  lemma {:induction false} LibraryIgnoresClean(s: State, folders: seq<Folder>, i: nat, j: nat, sched: seq<Event>)
    requires i <= j < |folders|
    requires EventAt(sched, j).clean && NoCleansIn(sched, j + 1, |folders|)
    ensures var r := LibraryLoop(s, folders, i, sched);
      !r.active && r.items == FolderEntries(folders)[j + 1..]
    decreases j - i
  {
    var added := s.(items := s.items + [FolderEntry(folders[i])]);
    var next := Interrupt(added, EventAt(sched, i));
    if i == j {
      LibraryLoopComplete(next, folders, i + 1, sched);
      assert next.items == [];
      assert [] + FolderEntries(folders)[j + 1..] == FolderEntries(folders)[j + 1..];
    } else {
      LibraryIgnoresClean(next, folders, i + 1, j, sched);
    }
  }

  /** A storage library: no folders only marks the page empty (the items are
      left as they are); one folder becomes the breadcrumb trail and is loaded
      as a folder; several are listed one item per folder, the playable list
      left as it is, and the empty flag set from the items. */
  function LoadLibrary(s: State, folders: seq<Folder>, sched: seq<Event>): (r: State)
    ensures |folders| == 0 ==> r == s.(isEmpty := true)
    ensures |folders| == 1 ==> r.breadcrumbs == folders && !r.isLoading && !r.timerPending
    ensures |folders| >= 2 ==> r.playable == s.playable && r.breadcrumbs == s.breadcrumbs
    ensures |folders| >= 1 ==> (r.isEmpty <==> r.items == [])
    ensures r.navData == s.navData && r.source == s.source
    ensures r.active ==> s.active
    ensures !s.timerPending ==> !r.timerPending
  {
    if |folders| == 0 then s.(isEmpty := true)
    else if |folders| == 1 then
      LoadSource(s.(breadcrumbs := [folders[0]]), folders[0].children, sched).state
    else
      var listed := LibraryLoop(s.(items := []), folders, 0, sched);
      listed.(isEmpty := |listed.items| == 0)
  }

  /** An undisturbed library load of an active page: one folder shows that
      folder's content; several show exactly one item per folder, in folder
      order, and the page is not empty. */
  lemma LoadLibraryComplete(s: State, folders: seq<Folder>, sched: seq<Event>)
    requires s.active && NoCleans(sched) && |folders| >= 1
    ensures var r := LoadLibrary(s, folders, sched);
      r.active &&
      (|folders| == 1 ==> r.items == folders[0].children) &&
      (|folders| >= 2 ==> r.items == FolderEntries(folders) && !r.isEmpty)
  {
    if |folders| == 1 {
      LoadSourceComplete(s.(breadcrumbs := [folders[0]]), folders[0].children, sched);
    } else {
      LibraryLoopComplete(s.(items := []), folders, 0, sched);
      assert FolderEntries(folders)[0..] == FolderEntries(folders);
    }
  }

  /** Appending one item: the item, then its media if it has any. */
  function AppendItem(s: State, item: Item): (r: State)
    ensures r == AppendItems(s, [item])
  {
    MediaOfSnoc([], item);
    var withItem := s.(items := s.items + [item]);
    var media := Classify(item);
    if media.Some? then withItem.(playable := withItem.playable + [media.value]) else withItem
  }

  /** Appending the `j`-th entry after the first `j` is appending the first
      `j + 1`. */
  lemma AppendItemsStep(s: State, batch: seq<Item>, j: nat)
    requires j < |batch|
    ensures AppendItems(AppendItems(s, batch[..j]), [batch[j]]) == AppendItems(s, batch[..j + 1])
  {
    assert batch[..j + 1] == batch[..j] + [batch[j]];
    MediaOfAppend(batch[..j], [batch[j]]);
  }

  /** One batch appended item by item: each entry becomes an item and, when
      it has media, its media is added to the playable list right after. */
  method AppendBatch(s: State, batch: seq<Entry>) returns (r: State)
    ensures r.items == s.items + batch && r.playable == s.playable + MediaOf(batch)
    ensures r == AppendItems(s, batch)
  {
    r := s;
    for j := 0 to |batch|
      invariant r == AppendItems(s, batch[..j])
    {
      AppendItemsStep(s, batch, j);
      r := AppendItem(r, batch[j]);
    }
    assert batch[..|batch|] == batch;
  }

  /** The playable list and the items are in lock-step with the first `off`
      entries of the source: the playable list is exactly their media, and
      the items end with them (all of them unless a tear-down cleared some). */
  predicate LockStep(c: State, src: seq<Entry>, off: nat)
    requires off <= |src|
  {
    c.playable == MediaOf(src[..off]) && IsSuffix(c.items, src[..off])
  }

  /** The entries up to the end of the next batch are those up to `off`
      followed by the batch. */
  lemma PrefixAfterBatch(src: seq<Entry>, off: nat)
    requires off <= |src|
    ensures src[..off + |Batch(src, off)|] == src[..off] + Batch(src, off)
  {
  }

  /** A suffix stays a suffix when the same sequence is appended to both. */
  lemma SuffixAppend<T>(a: seq<T>, b: seq<T>, c: seq<T>)
    requires IsSuffix(a, b)
    ensures IsSuffix(a + c, b + c)
  {
    assert (a + c)[0..] == a + c;
    SuffixStep(b, a, c, a + c);
  }

  /** An await point keeps the lock-step: it never touches the playable list
      and can only clear the items. */
  lemma LockStepAwait(c: State, src: seq<Entry>, sched: seq<Event>, off: nat, k: nat)
    requires off <= |src| && LockStep(c, src, off)
    ensures LockStep(Await(c, sched, k), src, off)
  {
    AwaitKeepsSuffix(c, sched, k);
  }

  lemma LockStepPlayable(p: seq<Media>, src: seq<Entry>, off: nat)
    requires off <= |src| && p == MediaOf(src[..off])
    ensures p + MediaOf(Batch(src, off)) == MediaOf(src[..off + |Batch(src, off)|])
  {
    PrefixAfterBatch(src, off);
    MediaOfAppend(src[..off], Batch(src, off));
  }

  lemma LockStepItems(items: seq<Item>, src: seq<Entry>, off: nat)
    requires off <= |src| && IsSuffix(items, src[..off])
    ensures IsSuffix(items + Batch(src, off), src[..off + |Batch(src, off)|])
  {
    PrefixAfterBatch(src, off);
    SuffixAppend(items, src[..off], Batch(src, off));
  }

  /** One turn of the loop keeps the lock-step: after the await and the
      appended batch, the lists are in lock-step with the entries up to the
      end of that batch. */
  lemma LockStepTurn(c: State, src: seq<Entry>, sched: seq<Event>, off: nat, k: nat)
    requires off <= |src| && LockStep(c, src, off)
    ensures LockStep(AppendItems(Await(c, sched, k), Batch(src, off)), src, off + |Batch(src, off)|)
  {
    var c1 := Await(c, sched, k);
    LockStepAwait(c, src, sched, off, k);
    LockStepPlayable(c1.playable, src, off);
    LockStepItems(c1.items, src, off);
  }

  /** The loader's loop invariant at fetch index `off`, before the `k`-th
      await: the lists are in lock-step with the entries fetched so far, and
      the reference run from here, after the `k` fetches already issued,
      gives the whole load `whole`. */
  ghost predicate Remaining(c: State, src: seq<Entry>, sched: seq<Event>, off: nat, k: nat, whole: Run)
  {
    off <= |src| && LockStep(c, src, off) &&
    var r := FetchLoop(c, src, sched, off, k);
    whole == Run(r.state, k + r.fetches, r.fetchIndex)
  }

  /** A turn with a non-empty batch keeps the invariant. */
  lemma LoopTurn(c: State, src: seq<Entry>, sched: seq<Event>, off: nat, k: nat, whole: Run)
    requires Remaining(c, src, sched, off, k, whole) && c.active && |Batch(src, off)| > 0
    ensures Remaining(AppendItems(Await(c, sched, k), Batch(src, off)), src, sched,
                      off + |Batch(src, off)|, k + 1, whole)
  {
    FetchLoopUnfold(c, src, sched, off, k);
    LockStepTurn(c, src, sched, off, k);
  }

  /** The last turn ends the whole load after its await. */
  lemma LoopLast(c: State, src: seq<Entry>, sched: seq<Event>, off: nat, k: nat, whole: Run)
    requires Remaining(c, src, sched, off, k, whole) && c.active && |Batch(src, off)| == 0
    ensures whole == Run(Await(c, sched, k), k + 1, off) && off <= |src|
    ensures LockStep(Await(c, sched, k), src, off)
  {
    FetchLoopLast(c, src, sched, off, k);
    LockStepAwait(c, src, sched, off, k);
  }

  /** Found inactive at the loop head, the load is over. */
  lemma LoopExit(c: State, src: seq<Entry>, sched: seq<Event>, off: nat, k: nat, whole: Run)
    requires Remaining(c, src, sched, off, k, whole) && !c.active
    ensures whole == Run(c, k, off) && off <= |src| && LockStep(c, src, off)
  {
  }

  /** The imperative loader (clear, page in batches, append, settle): it
      computes exactly the functional model's load, so it shares that load's
      tracking, completeness and fetch count; between batches the playable
      list and the items are in lock-step with the entries fetched so far. */
  method FetchEntries(s: State, src: seq<Entry>, sched: seq<Event>) returns (r: State, fetches: nat, fetchIndex: nat)
    ensures Run(r, fetches, fetchIndex) == LoadSource(s, src, sched)
    ensures !r.isLoading && !r.timerPending && (r.isEmpty <==> r.items == [])
    ensures fetchIndex <= |src| && LockStep(r, src, fetchIndex)
  {
    var cur := s.(items := [], playable := []);
    assert src[..0] == [];
    ghost var whole := FetchLoop(cur, src, sched, 0, 0);
    var off: nat := 0;
    var k: nat := 0;
    var done := false;
    while !done
      invariant !done ==> Remaining(cur, src, sched, off, k, whole)
      invariant done ==> whole == Run(cur, k, off) && off <= |src| && LockStep(cur, src, off)
      decreases |src| - off, if done then 0 else 1
    {
      if !cur.active {
        LoopExit(cur, src, sched, off, k, whole);
        done := true;
      } else {
        var batch := Batch(src, off);
        if |batch| == 0 {
          LoopLast(cur, src, sched, off, k, whole);
          cur := Await(cur, sched, k);
          k := k + 1;
          done := true;
        } else {
          LoopTurn(cur, src, sched, off, k, whole);
          cur := AppendBatch(Await(cur, sched, k), batch);
          off := off + |batch|;
          k := k + 1;
        }
      }
    }
    r := Settle(cur);
    fetches := k;
    fetchIndex := off;
  }
}
