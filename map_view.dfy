/**
 * The map of `src/components/MapView.tsx`: where it is centred, what the
 * geolocation lookup leaves as the user location, and the place markers
 * with their highlight and click forwarding. Coordinates are kept as exact
 * values; nothing here computes with them.
 */
module MapView {
  import opened Common
  import opened Types

  /** The fallback coordinate used when no better centre is known. */
  const DefaultCenter := LatLng(60.1699, 24.9384)

  /** What the browser's geolocation lookup does. */
  datatype Geolocation = Unsupported | Failed | Located(position: LatLng)

  /** `userLocation` once the lookup has answered: the position, or the default when the API is missing or fails. */
  function UserLocationAfter(g: Geolocation): (position: LatLng)
    ensures g.Located? ==> position == g.position
    ensures !g.Located? ==> position == DefaultCenter
  {
    match g
    case Located(p) => p
    case Unsupported => DefaultCenter
    case Failed => DefaultCenter
  }

  function PositionOf(loc: LocationInfo): LatLng {
    LatLng(loc.lat, loc.lng)
  }

  /** `mapCenter`: the selected location, else the user location, else the default. */
  function MapCenter(selected: Option<LocationInfo>, userLocation: Option<LatLng>): (center: LatLng)
    ensures selected.Some? ==> center == LatLng(selected.value.lat, selected.value.lng)
    ensures selected.None? && userLocation.Some? ==> center == userLocation.value
    ensures selected.None? && userLocation.None? ==> center == DefaultCenter
  {
    if selected.Some? then PositionOf(selected.value)
    else if userLocation.Some? then userLocation.value
    else DefaultCenter
  }

  /** The two marker looks: red 40x40 and bouncing for the selection, blue 32x32 otherwise. */
  datatype Icon = SelectedIcon | PlainIcon

  datatype Marker = Marker(location: LocationInfo, position: LatLng, icon: Icon, bouncing: bool)

  /** `selectedLocation?.id === location.id`: false when nothing is selected. */
  predicate IsSelected(selected: Option<LocationInfo>, loc: LocationInfo) {
    selected.Some? && selected.value.id == loc.id
  }

  function PlaceMarker(loc: LocationInfo, selected: Option<LocationInfo>): Marker {
    var chosen := IsSelected(selected, loc);
    Marker(loc, PositionOf(loc), if chosen then SelectedIcon else PlainIcon, chosen)
  }

  /**
   * `locations.map(...)`: exactly one marker per location, in order, at its
   * coordinates; clicking marker `i` forwards location `i`; a marker is
   * highlighted (selected icon, bouncing) iff its id is the selected id.
   */
  function PlaceMarkers(locs: seq<LocationInfo>, selected: Option<LocationInfo>): (markers: seq<Marker>)
    ensures |markers| == |locs|
    ensures forall i :: 0 <= i < |locs| ==>
      var m := markers[i];
      MarkerClick(m) == locs[i] && m.position == LatLng(locs[i].lat, locs[i].lng) &&
      (m.icon == SelectedIcon <==> IsSelected(selected, locs[i])) && (m.bouncing <==> IsSelected(selected, locs[i]))
  {
    seq(|locs|, i requires 0 <= i < |locs| => PlaceMarker(locs[i], selected))
  }

  /** The marker's click handler forwards the location it was rendered for. */
  function MarkerClick(m: Marker): (loc: LocationInfo)
    ensures loc == m.location
  {
    m.location
  }

  /** Before any selection the map centres on the user location the lookup produced, which is the default when the lookup is unavailable or fails. */
  lemma CenterWithoutSelection(g: Geolocation)
    ensures MapCenter(None, Some(UserLocationAfter(g))) == if g.Located? then g.position else DefaultCenter
    ensures MapCenter(None, None) == DefaultCenter
  {
  }

  /** With unique ids at most one marker is highlighted. */
  lemma AtMostOneHighlighted(locs: seq<LocationInfo>, selected: Option<LocationInfo>)
    requires UniqueIds(locs)
    ensures forall i, j ::
      (0 <= i < |locs| && 0 <= j < |locs| &&
       PlaceMarkers(locs, selected)[i].bouncing && PlaceMarkers(locs, selected)[j].bouncing) ==> i == j
  {
  }
}
