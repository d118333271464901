/**
 * The video feed of `src/components/VideoPlayer.tsx`: the selection-to-index
 * lookup and scroll target, the debounced scroll-to-index report, the
 * play/pause loop over the video elements, the media choice per item and the
 * star rating string.
 *
 * Pixels are natural numbers and the item height (the container's
 * `clientHeight`) is positive. The 100 ms debounce timer is modelled by
 * events: `Scroll(top)` is a scroll event that leaves the container at
 * offset `top`, `Quiet` is a 100 ms period without scroll events.
 */
module VideoPlayer {
  import opened Common
  import opened Types

  // ---------------------------------------------------------------------
  // Index arithmetic
  // ---------------------------------------------------------------------

  /** `locations.findIndex(loc => loc.id === id)`: the first position carrying the id, or -1. */
  function FindIndex(locs: seq<LocationInfo>, id: string): (i: int)
    ensures -1 <= i < |locs|
    ensures 0 <= i ==> locs[i].id == id && forall j :: 0 <= j < i ==> locs[j].id != id
    ensures i == -1 <==> forall j :: 0 <= j < |locs| ==> locs[j].id != id
  {
    if locs == [] then -1
    else if locs[0].id == id then 0
    else
      var k := FindIndex(locs[1..], id);
      if k == -1 then -1 else k + 1
  }

  /** `scrollToIndex`: the offset that puts item `index` at the top of the viewport. */
  function ScrollTarget(index: nat, height: nat): (top: nat)
    ensures height > 0 ==> top % height == 0 && top / height == index
  {
    if height > 0 then DivideExact(index, height); index * height
    else index * height
  }

  /** A multiple of `height` divides back to its factor with no remainder. */
  lemma DivideExact(index: nat, height: nat)
    requires height > 0
    ensures (index * height) % height == 0 && (index * height) / height == index
  {
    var t := index * height;
    var q := t / height;
    assert t == q * height + t % height && 0 <= t % height < height;
    assert q * height < (index + 1) * height by {
      assert (index + 1) * height == t + height;
    }
    MultiplyCancel(q, index + 1, height);
    assert index * height < (q + 1) * height by {
      assert (q + 1) * height == q * height + height;
    }
    MultiplyCancel(index, q + 1, height);
  }

  /**
   * `Math.round(scrollTop / clientHeight)` on a non-negative offset: the
   * item whose top is nearest the offset, a tie going to the later item.
   * The result is not clamped to the list.
   */
  function SettledIndex(scrollTop: nat, height: nat): (k: nat)
    requires height > 0
    ensures 2 * k * height <= 2 * scrollTop + height < 2 * k * height + 2 * height
  {
    (2 * scrollTop + height) / (2 * height)
  }

  /** Scrolling to an item and settling there reports that item again, whatever the list length. */
  lemma SettleAtTarget(index: nat, height: nat)
    requires height > 0
    ensures SettledIndex(ScrollTarget(index, height), height) == index
  {
    var k := SettledIndex(ScrollTarget(index, height), height);
    assert k * height < (index + 1) * height by {
      assert 2 * (k * height) <= 2 * (index * height) + height;
      assert (index + 1) * height == index * height + height;
    }
    MultiplyCancel(k, index + 1, height);
    assert index * height < (k + 1) * height by {
      assert 2 * (index * height) + height < 2 * (k * height) + 2 * height;
      assert (k + 1) * height == k * height + height;
    }
    MultiplyCancel(index, k + 1, height);
  }

  lemma MultiplyCancel(a: nat, b: nat, c: nat)
    requires a * c < b * c
    ensures a < b
  {
  }

  // ---------------------------------------------------------------------
  // The debounced scroll report
  // ---------------------------------------------------------------------

  datatype ScrollEvent = Scroll(top: nat) | Quiet

  /**
   * The indices reported for a sequence of events. A report happens exactly
   * at a quiet period that directly follows a scroll event (an earlier
   * pending timer was cancelled by that event), and it reads the offset that
   * event left.
   */
  function Emissions(events: seq<ScrollEvent>, height: nat): (reports: seq<nat>)
    requires height > 0
    ensures |reports| <= |events| / 2
    decreases |events|
  {
    if |events| < 2 then []
    else
      var n := |events|;
      Emissions(events[..n - 1], height) +
        (if events[n - 1].Quiet? && events[n - 2].Scroll? then [SettledIndex(events[n - 2].top, height)] else [])
  }

  function Scrolls(tops: seq<nat>): (r: seq<ScrollEvent>)
    ensures |r| == |tops| && forall i :: 0 <= i < |tops| ==> r[i] == Scroll(tops[i])
  {
    seq(|tops|, i requires 0 <= i < |tops| => Scroll(tops[i]))
  }

  /** Scroll events alone report nothing. */
  lemma {:induction false} ScrollsReportNothing(prefix: seq<ScrollEvent>, tops: seq<nat>, height: nat)
    requires height > 0
    ensures Emissions(prefix + Scrolls(tops), height) == Emissions(prefix, height)
    decreases |tops|
  {
    if tops != [] {
      var shorter := tops[..|tops| - 1];
      ScrollsReportNothing(prefix, shorter, height);
      var events := prefix + Scrolls(tops);
      assert events[..|events| - 1] == prefix + Scrolls(shorter);
      assert events[|events| - 1] == Scroll(tops[|tops| - 1]);
    } else {
      assert prefix + Scrolls(tops) == prefix;
    }
  }

  /**
   * A burst of scroll events followed by a quiet period reports once, the
   * index of the offset left by the LAST event of the burst.
   */
  lemma LastScrollWins(prefix: seq<ScrollEvent>, tops: seq<nat>, height: nat)
    requires height > 0 && tops != []
    ensures Emissions(prefix + Scrolls(tops) + [Quiet], height) ==
            Emissions(prefix, height) + [SettledIndex(tops[|tops| - 1], height)]
  {
    ScrollsReportNothing(prefix, tops, height);
    var events := prefix + Scrolls(tops) + [Quiet];
    assert events[..|events| - 1] == prefix + Scrolls(tops);
    assert events[|events| - 2] == Scroll(tops[|tops| - 1]);
  }

  /** An index is reported on every settle, even when it did not change. */
  lemma RepeatsUnchangedIndex(top: nat, height: nat)
    requires height > 0
    ensures Emissions([Scroll(top), Quiet, Scroll(top), Quiet], height) ==
            [SettledIndex(top, height), SettledIndex(top, height)]
  {
    var once := [Scroll(top), Quiet];
    assert once[..1] == [Scroll(top)];
    assert Emissions(once, height) == [SettledIndex(top, height)];
    var twice := once + [Scroll(top), Quiet];
    assert twice[..3] == once + [Scroll(top)];
    assert twice[..3][..2] == once;
    assert Emissions(twice[..3], height) == Emissions(once, height);
    assert twice == [Scroll(top), Quiet, Scroll(top), Quiet];
  }

  /** The scroll container: its offset, its item height and the pending debounce timer (`scrollTimeout`). */
  class FeedContainer {
    var scrollTop: nat
    const clientHeight: nat
    var pending: bool
    ghost var events: seq<ScrollEvent>
    ghost var reported: seq<nat>

    ghost predicate Valid()
      reads this
    {
      && clientHeight > 0
      && reported == Emissions(events, clientHeight)
      && (pending <==> |events| > 0 && events[|events| - 1].Scroll?)
      && (pending ==> scrollTop == events[|events| - 1].top)
    }

    constructor (height: nat)
      requires height > 0
      ensures Valid() && clientHeight == height
      ensures scrollTop == 0 && !pending && events == [] && reported == []
    {
      scrollTop := 0;
      clientHeight := height;
      pending := false;
      events := [];
      reported := [];
    }

    /** `handleScroll`: the offset moves, the pending timer is cancelled and a new one scheduled. */
    method OnScroll(top: nat)
      requires Valid()
      modifies this
      ensures Valid()
      ensures scrollTop == top && pending
      ensures events == old(events) + [Scroll(top)] && reported == old(reported)
    {
      scrollTop := top;
      pending := true;
      events := events + [Scroll(top)];
      assert events[..|events| - 1] == old(events);
    }

    /** 100 ms pass without a scroll event: a pending timer fires and reports the rounded index of the current offset. */
    method OnQuiet() returns (index: Option<nat>)
      requires Valid()
      modifies this
      ensures Valid() && !pending && scrollTop == old(scrollTop)
      ensures index.Some? <==> old(pending)
      ensures old(pending) ==> index.value == SettledIndex(old(scrollTop), clientHeight)
      ensures events == old(events) + [Quiet]
      ensures reported == old(reported) + (if index.Some? then [index.value] else [])
    {
      index := None;
      if pending {
        index := Some(SettledIndex(scrollTop, clientHeight));
        pending := false;
      }
      events := events + [Quiet];
      assert events[..|events| - 1] == old(events);
      reported := reported + (if index.Some? then [index.value] else []);
    }

    /** `scrollToIndex`, with the smooth scroll collapsed to the scroll event that ends at the target. */
    method ScrollToIndex(index: nat)
      requires Valid()
      modifies this
      ensures Valid()
      ensures scrollTop == ScrollTarget(index, clientHeight) && pending
      ensures events == old(events) + [Scroll(ScrollTarget(index, clientHeight))] && reported == old(reported)
    {
      OnScroll(ScrollTarget(index, clientHeight));
    }

    /** The effect on `selectedLocation`: scroll to the first item with its id; no match (-1) scrolls nowhere. */
    method FollowSelection(locs: seq<LocationInfo>, selected: Option<LocationInfo>)
      requires Valid()
      modifies this
      ensures Valid()
      ensures selected.Some? && FindIndex(locs, selected.value.id) >= 0 ==>
        scrollTop == ScrollTarget(FindIndex(locs, selected.value.id), clientHeight) &&
        events == old(events) + [Scroll(scrollTop)] && reported == old(reported) && pending
      ensures selected.None? || FindIndex(locs, selected.value.id) == -1 ==>
        scrollTop == old(scrollTop) && pending == old(pending) &&
        events == old(events) && reported == old(reported)
    {
      if selected.Some? {
        var index := FindIndex(locs, selected.value.id);
        if index != -1 {
          ScrollToIndex(index);
        }
      }
    }
  }

  // ---------------------------------------------------------------------
  // Playback
  // ---------------------------------------------------------------------

  class VideoElement {
    var playing: bool

    constructor ()
      ensures !playing
    {
      playing := false;
    }

    method Play()
      modifies this
      ensures playing
    {
      playing := true;
    }

    method Pause()
      modifies this
      ensures !playing
    {
      playing := false;
    }
  }

  /**
   * The effect on `currentIndex`: every registered video element plays if
   * its index is the current one and is paused otherwise, so at most one
   * plays, and only the one at the current index. The index is used as
   * given: out of range, no video plays.
   */
  method SyncPlayback(locs: seq<LocationInfo>, videos: seq<VideoElement?>, currentIndex: int)
    requires forall i :: 0 <= i < |videos| && videos[i] != null ==> i < |locs| && MediaOf(locs[i]).Video?
    requires forall i, j :: 0 <= i < j < |videos| && videos[i] != null ==> videos[i] != videos[j]
    modifies set v | v in videos && v != null
    ensures forall i :: 0 <= i < |videos| && videos[i] != null ==> videos[i].playing == (i == currentIndex)
    ensures forall i, j :: 0 <= i < j < |videos| && videos[i] != null && videos[j] != null ==>
      !(videos[i].playing && videos[j].playing)
    ensures forall i :: 0 <= i < |videos| && videos[i] != null && videos[i].playing ==> MediaOf(locs[i]).Video?
  {
    for i := 0 to |videos|
      invariant forall j :: 0 <= j < i && videos[j] != null ==> videos[j].playing == (j == currentIndex)
    {
      var video := videos[i];
      if video != null {
        if i == currentIndex {
          video.Play();
        } else {
          video.Pause();
        }
      }
    }
  }

  // ---------------------------------------------------------------------
  // Rendering of one item
  // ---------------------------------------------------------------------

  /** What the item shows. Only `Video` renders a `<video>` element and registers it for playback. */
  datatype Media = YouTube(videoId: string) | Video(url: string) | Image(url: string) | Placeholder

  /** A truthy YouTube id wins, then a truthy video URL, then a truthy image URL, else the placeholder. */
  function MediaOf(loc: LocationInfo): (m: Media)
    ensures m.YouTube? <==> Truthy(loc.youtubeVideoId)
    ensures m.Video? <==> !Truthy(loc.youtubeVideoId) && Truthy(loc.videoUrl)
    ensures m.Image? <==> !Truthy(loc.youtubeVideoId) && !Truthy(loc.videoUrl) && Truthy(loc.imageUrl)
    ensures m.YouTube? ==> Some(m.videoId) == loc.youtubeVideoId
    ensures m.Video? ==> Some(m.url) == loc.videoUrl
    ensures m.Image? ==> Some(m.url) == loc.imageUrl
  {
    if Truthy(loc.youtubeVideoId) then YouTube(loc.youtubeVideoId.value)
    else if Truthy(loc.videoUrl) then Video(loc.videoUrl.value)
    else if Truthy(loc.imageUrl) then Image(loc.imageUrl.value)
    else Placeholder
  }

  const FilledStar := '\U{2605}'
  const EmptyStar := '\U{2606}'

  /** `c.repeat(n)` for a non-negative count. */
  function Repeat(c: char, n: nat): (s: string)
    ensures |s| == n && forall i :: 0 <= i < n ==> s[i] == c
  {
    if n == 0 then "" else [c] + Repeat(c, n - 1)
  }

  /**
   * `'★'.repeat(floor(rating)) + '☆'.repeat(5 - floor(rating))`. `repeat`
   * throws a RangeError on a negative count, so the string exists only for
   * ratings in [0, 6); then it has exactly five stars, the first
   * floor(rating) of them filled.
   */
  function StarString(rating: real): (r: Option<string>)
    ensures r.Some? <==> 0.0 <= rating < 6.0
    ensures r.Some? ==> |r.value| == 5
    ensures r.Some? ==> forall i :: 0 <= i < 5 ==> (r.value[i] == FilledStar <==> i < rating.Floor)
    ensures r.Some? ==> forall i :: 0 <= i < 5 ==> r.value[i] in {FilledStar, EmptyStar}
  {
    var filled := rating.Floor;
    if 0 <= filled <= 5 then Some(Repeat(FilledStar, filled) + Repeat(EmptyStar, 5 - filled)) else None
  }
}
