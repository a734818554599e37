/** The map component: one marker per data item, marker colour and icon by type and
    status, the bounding box of a set of coordinates for "fit all markers", and the region
    and user-location state set by the location handlers. The Leaflet page and the scripts
    injected into the web view are not modelled; the operations return what they would draw. */
module OpenStreetMapWebView {
  import opened Common

  /** An item given to the map: a report or a task tagged with its `type` and `coordinate`. */
  datatype MapItem = MapItem(
    itemType: string, id: string, title: string, description: string,
    status: string, coordinate: Coordinate)

  /** A map region: its centre and its extent in degrees. */
  datatype Region = Region(latitude: real, longitude: real, latitudeDelta: real, longitudeDelta: real)

  /** The region used when the parent gives none: central Manila. */
  const DefaultRegion := Region(14.5995, 120.9842, 0.02, 0.02)

  /** The zoom level used to centre the map on the user. */
  const UserZoom := 15

  const ReportStatuses: set<string> := {"pending", "approved", "converted_to_task"}
  const TaskStatuses: set<string> := {"active", "upcoming", "completed"}

  /** `getMarkerColor`: reports and everything else have their own table, each with gray
      for a status it does not know. */
  function MarkerColor(itemType: string, status: string): (c: Color)
    ensures itemType == "report" ==>
              (status == "pending" <==> c == Warning)
              && (status == "approved" <==> c == Success)
              && (status == "converted_to_task" <==> c == Info)
    ensures itemType != "report" ==>
              (status == "active" <==> c == Primary)
              && (status == "upcoming" <==> c == Accent)
              && (status == "completed" <==> c == Success)
    ensures c == Gray <==> status !in (if itemType == "report" then ReportStatuses else TaskStatuses)
  {
    if itemType == "report" then
      match status
      case "pending" => Warning
      case "approved" => Success
      case "converted_to_task" => Info
      case _ => Gray
    else
      match status
      case "active" => Primary
      case "upcoming" => Accent
      case "completed" => Success
      case _ => Gray
  }

  /** `getMarkerIcon`: a document for reports, a construction icon for everything else. */
  function MarkerIcon(itemType: string): (icon: string)
    ensures icon == "document-text" <==> itemType == "report"
    ensures icon == "construct" <==> itemType != "report"
  {
    if itemType == "report" then "document-text" else "construct"
  }

  /** A Leaflet marker: its index, position and popup contents (title, kind and status). */
  datatype Marker = Marker(index: nat, coordinate: Coordinate, title: string, kind: string, status: string)

  /** The markers of `createMapHTML`, one per data item. */
  function Markers(data: seq<MapItem>): (ms: seq<Marker>)
    ensures |ms| == |data|
    ensures forall i :: 0 <= i < |data| ==>
              ms[i].index == i && ms[i].coordinate == data[i].coordinate
              && ms[i].title == data[i].title && ms[i].status == data[i].status
              && (ms[i].kind == "Report" <==> data[i].itemType == "report")
              && (ms[i].kind == "Task" <==> data[i].itemType != "report")
  {
    seq(|data|, i requires 0 <= i < |data| =>
      Marker(i, data[i].coordinate, data[i].title,
             if data[i].itemType == "report" then "Report" else "Task", data[i].status))
  }

  /** Concatenating the data concatenates the markers, with the second part's indices shifted. */
  lemma MarkersAppend(a: seq<MapItem>, b: seq<MapItem>)
    ensures |Markers(a + b)| == |a| + |b|
    ensures Markers(a + b)[..|a|] == Markers(a)
    ensures forall j :: 0 <= j < |b| ==>
              Markers(a + b)[|a| + j] == Markers(b)[j].(index := |a| + j)
  {
    var m := Markers(a + b);
    assert forall i :: 0 <= i < |a| ==> (a + b)[i] == a[i];
    assert forall j :: 0 <= j < |b| ==> (a + b)[|a| + j] == b[j];
  }

  /** The `[minLat, minLon, maxLat, maxLon]` accumulator of the bounds fold. */
  datatype Bounds = Bounds(minLat: real, minLon: real, maxLat: real, maxLon: real)

  /** The fold's seed, `[90, 180, -90, -180]`: the empty box beyond the valid ranges. */
  const InitialBounds := Bounds(90.0, 180.0, -90.0, -180.0)

  function Min(a: real, b: real): real { if a <= b then a else b }
  function Max(a: real, b: real): real { if a >= b then a else b }

  /** One step of the fold: widen the box to take in `c`. */
  function Widen(b: Bounds, c: Coordinate): (r: Bounds)
    ensures r.minLat <= b.minLat && r.minLat <= c.latitude
    ensures r.minLat == b.minLat || r.minLat == c.latitude
    ensures r.minLon <= b.minLon && r.minLon <= c.longitude
    ensures r.minLon == b.minLon || r.minLon == c.longitude
    ensures r.maxLat >= b.maxLat && r.maxLat >= c.latitude
    ensures r.maxLat == b.maxLat || r.maxLat == c.latitude
    ensures r.maxLon >= b.maxLon && r.maxLon >= c.longitude
    ensures r.maxLon == b.maxLon || r.maxLon == c.longitude
  {
    Bounds(Min(b.minLat, c.latitude), Min(b.minLon, c.longitude),
           Max(b.maxLat, c.latitude), Max(b.maxLon, c.longitude))
  }

  /** The result of `coordinates.reduce(widen, [90, 180, -90, -180])`. Every coordinate lies
      in the box, and each bound is either the seed's or some coordinate's. */
  function BoundsOf(cs: seq<Coordinate>): (r: Bounds)
    ensures forall i :: 0 <= i < |cs| ==>
              r.minLat <= cs[i].latitude <= r.maxLat && r.minLon <= cs[i].longitude <= r.maxLon
    ensures r.minLat <= 90.0 && r.minLon <= 180.0 && r.maxLat >= -90.0 && r.maxLon >= -180.0
    ensures r.minLat == 90.0 || exists i :: 0 <= i < |cs| && cs[i].latitude == r.minLat
    ensures r.minLon == 180.0 || exists i :: 0 <= i < |cs| && cs[i].longitude == r.minLon
    ensures r.maxLat == -90.0 || exists i :: 0 <= i < |cs| && cs[i].latitude == r.maxLat
    ensures r.maxLon == -180.0 || exists i :: 0 <= i < |cs| && cs[i].longitude == r.maxLon
    decreases |cs|
  {
    if cs == [] then InitialBounds
    else
      var front := cs[..|cs| - 1];
      var last := cs[|cs| - 1];
      var b := BoundsOf(front);
      assert forall i :: 0 <= i < |front| ==> cs[i] == front[i];
      Widen(b, last)
  }

  /** A coordinate within the valid ranges of latitude and longitude. */
  predicate InRange(c: Coordinate) {
    -90.0 <= c.latitude <= 90.0 && -180.0 <= c.longitude <= 180.0
  }

  /** For a non-empty set of valid coordinates, each bound is attained by some coordinate:
      the box is the smallest that holds them all. */
  lemma BoundsAttained(cs: seq<Coordinate>)
    requires cs != [] && forall i :: 0 <= i < |cs| ==> InRange(cs[i])
    ensures exists i :: 0 <= i < |cs| && cs[i].latitude == BoundsOf(cs).minLat
    ensures exists i :: 0 <= i < |cs| && cs[i].longitude == BoundsOf(cs).minLon
    ensures exists i :: 0 <= i < |cs| && cs[i].latitude == BoundsOf(cs).maxLat
    ensures exists i :: 0 <= i < |cs| && cs[i].longitude == BoundsOf(cs).maxLon
  {
    var r := BoundsOf(cs);
    assert r.minLat <= cs[0].latitude <= r.maxLat && r.minLon <= cs[0].longitude <= r.maxLon;
    if r.minLat == 90.0 { assert cs[0].latitude == r.minLat; }
    if r.minLon == 180.0 { assert cs[0].longitude == r.minLon; }
    if r.maxLat == -90.0 { assert cs[0].latitude == r.maxLat; }
    if r.maxLon == -180.0 { assert cs[0].longitude == r.maxLon; }
  }

  /** A single valid point collapses the box onto it. */
  lemma SinglePointBounds(c: Coordinate)
    requires InRange(c)
    ensures BoundsOf([c]) == Bounds(c.latitude, c.longitude, c.latitude, c.longitude)
  {
    assert [c][..0] == [];
  }

  /** The fold as the source runs it: writes the four slots of an accumulator array,
      one coordinate after the other. */
  method ReduceBounds(cs: seq<Coordinate>) returns (bounds: array<real>)
    ensures fresh(bounds) && bounds.Length == 4
    ensures Bounds(bounds[0], bounds[1], bounds[2], bounds[3]) == BoundsOf(cs)
  {
    bounds := new real[4];
    bounds[0], bounds[1], bounds[2], bounds[3] := 90.0, 180.0, -90.0, -180.0;
    var k := 0;
    while k < |cs|
      invariant 0 <= k <= |cs|
      invariant Bounds(bounds[0], bounds[1], bounds[2], bounds[3]) == BoundsOf(cs[..k])
    {
      WidenPrefix(cs, k);
      bounds[0] := Min(bounds[0], cs[k].latitude);
      bounds[1] := Min(bounds[1], cs[k].longitude);
      bounds[2] := Max(bounds[2], cs[k].latitude);
      bounds[3] := Max(bounds[3], cs[k].longitude);
      k := k + 1;
    }
    assert cs[..|cs|] == cs;
  }

  /** Folding one more coordinate widens the box of the prefix. */
  lemma WidenPrefix(cs: seq<Coordinate>, k: nat)
    requires k < |cs|
    ensures BoundsOf(cs[..k + 1]) == Widen(BoundsOf(cs[..k]), cs[k])
  {
    assert cs[..k + 1][..k] == cs[..k];
  }

  /** `fitToCoordinates`: a fit is issued only when the web view exists and there is at
      least one coordinate, and it is to the bounds of the coordinates. */
  function FitToCoordinates(viewReady: bool, cs: seq<Coordinate>): (r: Option<Bounds>)
    ensures r.Some? <==> viewReady && |cs| > 0
    ensures r.Some? ==> r.value == BoundsOf(cs)
  {
    if viewReady && |cs| > 0 then Some(BoundsOf(cs)) else None
  }

  /** The coordinates of the data items, `data.map(item => item.coordinate)`. */
  function Coordinates(data: seq<MapItem>): (cs: seq<Coordinate>)
    ensures |cs| == |data| && forall i :: 0 <= i < |data| ==> cs[i] == data[i].coordinate
  {
    seq(|data|, i requires 0 <= i < |data| => data[i].coordinate)
  }

  /** `fitAllMarkers`: the same fit, over the data items' coordinates. */
  function FitAllMarkers(viewReady: bool, data: seq<MapItem>): (r: Option<Bounds>)
    ensures r.Some? <==> viewReady && |data| > 0
    ensures r.Some? ==> forall i :: 0 <= i < |data| ==>
              r.value.minLat <= data[i].coordinate.latitude <= r.value.maxLat
              && r.value.minLon <= data[i].coordinate.longitude <= r.value.maxLon
  {
    FitToCoordinates(viewReady, Coordinates(data))
  }

  /** The "fit all markers" button is disabled exactly when there is no data. */
  function FitButtonDisabled(data: seq<MapItem>): (disabled: bool)
    ensures disabled <==> data == []
  {
    |data| == 0
  }

  /** The "locate me" button is disabled exactly while location permission is missing. */
  function LocateButtonDisabled(hasLocationPermission: bool): (disabled: bool)
    ensures disabled <==> !hasLocationPermission
  {
    !hasLocationPermission
  }

  /** The region after a location fix: recentred on the user only when there is no data. */
  function RecenteredRegion(region: Region, data: seq<MapItem>, fix: Coordinate): (r: Region)
    ensures data != [] ==> r == region
    ensures data == [] ==> r.latitude == fix.latitude && r.longitude == fix.longitude
    ensures data == [] ==> r.latitudeDelta == 0.02 && r.longitudeDelta == 0.02
  {
    if |data| == 0 then Region(fix.latitude, fix.longitude, 0.02, 0.02) else region
  }

  /** `centerOnUserLocation`: where the map is centred, and at which zoom, if anywhere. */
  function CenterTarget(userLocation: Option<Coordinate>, viewReady: bool): (r: Option<(Coordinate, int)>)
    ensures r.Some? <==> userLocation.Some? && viewReady
    ensures r.Some? ==> r.value == (userLocation.value, UserZoom)
  {
    if userLocation.Some? && viewReady then Some((userLocation.value, UserZoom)) else None
  }

  /** The component's state: the data it was given, whether its web view exists, and the
      region, user location and permission the handlers set. */
  class MapView {
    const data: seq<MapItem>
    const viewReady: bool
    var region: Region
    var userLocation: Option<Coordinate>
    var hasLocationPermission: bool

    constructor (data: seq<MapItem>, initialRegion: Option<Region>, viewReady: bool)
      ensures this.data == data && this.viewReady == viewReady
      ensures region == if initialRegion.Some? then initialRegion.value else DefaultRegion
      ensures userLocation.None? && !hasLocationPermission
    {
      this.data := data;
      this.viewReady := viewReady;
      region := if initialRegion.Some? then initialRegion.value else DefaultRegion;
      userLocation := None;
      hasLocationPermission := false;
    }

    /** `getCurrentLocation`, with the platform's fix (None when it fails). */
    method GetCurrentLocation(fix: Option<Coordinate>)
      modifies this
      ensures fix.None? ==> userLocation == old(userLocation) && region == old(region)
      ensures fix.Some? ==> userLocation == fix && region == RecenteredRegion(old(region), data, fix.value)
      ensures hasLocationPermission == old(hasLocationPermission)
    {
      if fix.Some? {
        userLocation := fix;
        if |data| == 0 {
          region := Region(fix.value.latitude, fix.value.longitude, 0.02, 0.02);
        }
      }
    }

    /** `requestLocationPermission`: a grant records the permission and asks for a fix. */
    method RequestLocationPermission(granted: bool, fix: Option<Coordinate>)
      modifies this
      ensures hasLocationPermission == (old(hasLocationPermission) || granted)
      ensures !granted ==> userLocation == old(userLocation) && region == old(region)
      ensures granted && fix.None? ==> userLocation == old(userLocation) && region == old(region)
      ensures granted && fix.Some? ==>
                userLocation == fix && region == RecenteredRegion(old(region), data, fix.value)
    {
      if granted {
        hasLocationPermission := true;
        GetCurrentLocation(fix);
      }
    }

    /** A press of the "locate me" button: nothing while disabled, else `centerOnUserLocation`. */
    method CenterOnUserLocation() returns (r: Option<(Coordinate, int)>)
      ensures r == if LocateButtonDisabled(hasLocationPermission) then None
                   else CenterTarget(userLocation, viewReady)
    {
      if !hasLocationPermission {
        return None;
      }
      r := CenterTarget(userLocation, viewReady);
    }

    /** A press of the "fit all markers" button: the bounds it fits to, if any. */
    method FitAll() returns (r: Option<Bounds>)
      ensures r == FitAllMarkers(viewReady, data)
      ensures r.Some? ==> r.value == BoundsOf(Coordinates(data))
    {
      if FitButtonDisabled(data) || !viewReady {
        return None;
      }
      var b := ReduceBounds(Coordinates(data));
      r := Some(Bounds(b[0], b[1], b[2], b[3]));
    }

    /** `animateToRegion`, called by the parent screen: the region shown, if the view exists. */
    method AnimateToRegion(target: Region) returns (r: Option<Region>)
      ensures r == if viewReady then Some(target) else None
    {
      r := if viewReady then Some(target) else None;
    }
  }
}
