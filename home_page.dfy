/**
 * The home page of `src/pages/HomePage.tsx`: it owns the selected location
 * and the current video index, hands the selection to both the feed and the
 * map, and takes the index only from the feed's reports.
 */
module HomePage {
  import opened Common
  import opened Types
  import opened Token
  import opened ApiClient
  import opened AuthContext
  import opened LocationContext
  import opened VideoPlayer
  import opened MapView

  /** While the locations load, only the loading screen renders. */
  datatype HomeScreen = LoadingLocations | FeedAndMap

  function View(locationsLoading: bool): (screen: HomeScreen)
    ensures screen == FeedAndMap <==> !locationsLoading
  {
    if locationsLoading then LoadingLocations else FeedAndMap
  }

  /**
   * The page over the location provider's first load: the loading screen
   * while it runs, feed and map once it has ended, whether the fetch
   * succeeded or not.
   */
  method ViewFollowsLoading(fetched: Result<seq<LocationInfo>, Rejection>) returns (before: HomeScreen, after: HomeScreen)
    ensures before == LoadingLocations && after == FeedAndMap
  {
    var provider := new LocationProvider();
    before := View(provider.isLoading);
    provider.LoadLocations(fetched);
    after := View(provider.isLoading);
  }

  class HomePageState {
    var selectedLocation: Option<LocationInfo>
    var currentVideoIndex: int

    constructor ()
      ensures selectedLocation == None && currentVideoIndex == 0
    {
      selectedLocation := None;
      currentVideoIndex := 0;
    }

    /** `handleLocationSelect`: sets the selection only; the index is left to the feed. */
    method HandleLocationSelect(loc: LocationInfo)
      modifies this`selectedLocation
      ensures selectedLocation == Some(loc)
    {
      selectedLocation := Some(loc);
    }

    /** The feed's `onIndexChange` is the state setter itself: the only writer of `currentVideoIndex`. */
    method OnIndexChange(index: int)
      modifies this`currentVideoIndex
      ensures currentVideoIndex == index
    {
      currentVideoIndex := index;
    }

    /** `handleLogout`: the context's logout runs only after the user confirms; its rejection is not caught. */
    method HandleLogout(confirmed: bool, auth: AuthProvider, store: TokenStorage, server: Request -> Reply<()>, refresh: RefreshOutcome)
      returns (result: Result<(), Rejection>, redirect: Option<string>)
      modifies auth, store
      ensures !confirmed ==> unchanged(auth, store) && result == Ok(()) && redirect == None
      ensures confirmed ==> auth.user == None && store.State() == Cleared && auth.isLoading == old(auth.isLoading)
      ensures confirmed ==>
        var x := Dispatch(old(store.State()), NewRequest(AuthApi.LogoutUrl), server, refresh);
        result == x.result && redirect == x.redirect
    {
      result, redirect := Ok(()), None;
      if confirmed {
        result, redirect := auth.Logout(store, server, refresh);
      }
    }

    /**
     * A click on a place marker: the map forwards the marker's location and
     * the page selects it. The feed's selection effect runs only when the
     * selection changed: setting the state to the value it already holds
     * re-renders nothing, so re-clicking the selected marker scrolls nowhere
     * (value equality stands for the object identity React compares).
     */
    method OnMarkerClick(marker: Marker, locs: seq<LocationInfo>, feed: FeedContainer)
      requires feed.Valid()
      modifies this`selectedLocation, feed
      ensures feed.Valid() && selectedLocation == Some(marker.location)
      ensures old(selectedLocation) == Some(marker.location) ==>
        feed.scrollTop == old(feed.scrollTop) && feed.pending == old(feed.pending) && feed.events == old(feed.events)
      ensures old(selectedLocation) != Some(marker.location) ==>
        var k := FindIndex(locs, marker.location.id);
        (k >= 0 ==> feed.scrollTop == ScrollTarget(k, feed.clientHeight) && feed.pending &&
                    feed.events == old(feed.events) + [Scroll(feed.scrollTop)]) &&
        (k == -1 ==> feed.scrollTop == old(feed.scrollTop) && feed.pending == old(feed.pending) &&
                     feed.events == old(feed.events))
      ensures feed.reported == old(feed.reported)
    {
      var changed := selectedLocation != Some(MarkerClick(marker));
      HandleLocationSelect(MarkerClick(marker));
      if changed {
        feed.FollowSelection(locs, selectedLocation);
      }
    }

    /** A quiet period on the feed: a pending report becomes the current index; otherwise the index stays. */
    method OnFeedQuiet(feed: FeedContainer)
      requires feed.Valid()
      modifies this`currentVideoIndex, feed
      ensures feed.Valid() && feed.events == old(feed.events) + [Quiet]
      ensures feed.scrollTop == old(feed.scrollTop) && !feed.pending
      ensures old(feed.pending) ==> currentVideoIndex == SettledIndex(old(feed.scrollTop), feed.clientHeight)
      ensures !old(feed.pending) ==> currentVideoIndex == old(currentVideoIndex)
    {
      var index := feed.OnQuiet();
      if index.Some? {
        OnIndexChange(index.value);
      }
    }
  }

  /** With unique ids the location at position `k` is found at `k`. */
  lemma FindsOwnPosition(locs: seq<LocationInfo>, k: nat)
    requires UniqueIds(locs) && k < |locs|
    ensures FindIndex(locs, locs[k].id) == k
  {
  }

  /**
   * Selecting the location at position `k` makes the feed scroll to it; when
   * the scrolling stops, whatever offsets the smooth scroll passed through,
   * the feed reports `k`: the selection and the index agree.
   */
  lemma SelectionSettlesOnIndex(locs: seq<LocationInfo>, k: nat, height: nat, prefix: seq<ScrollEvent>, passing: seq<nat>)
    requires UniqueIds(locs) && k < |locs| && height > 0
    ensures var target := ScrollTarget(FindIndex(locs, locs[k].id), height);
      Emissions(prefix + Scrolls(passing + [target]) + [Quiet], height) == Emissions(prefix, height) + [k]
  {
    FindsOwnPosition(locs, k);
    LastScrollWins(prefix, passing + [ScrollTarget(k, height)], height);
    SettleAtTarget(k, height);
  }

  /**
   * Feed and map agree on a selection: the marker clicked at position `k`
   * is the location at `k`, the map centres on it, and it is the only
   * highlighted marker.
   */
  lemma MapAgreesWithSelection(locs: seq<LocationInfo>, k: nat, userLocation: Option<LatLng>)
    requires UniqueIds(locs) && k < |locs|
    ensures var selected := Some(MarkerClick(PlaceMarkers(locs, None)[k]));
      selected == Some(locs[k]) &&
      MapCenter(selected, userLocation) == PositionOf(locs[k]) &&
      forall i :: 0 <= i < |locs| ==> (PlaceMarkers(locs, selected)[i].bouncing <==> i == k)
  {
  }
}
