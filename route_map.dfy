/** The vector-map variant of the route view: it turns the stored routes back
    into `[lng, lat]` line features, marks the selected one, places the vehicle
    marker, and runs the same click and animation rules as the route planner. */
module RouteMap {
  import opened Common
  import opened RoutePlanner

  /** `coords.map(([lat, lng]) => [lng, lat])`. */
  function ToLngLat(coords: seq<Coord>): (r: seq<Coord>)
    ensures |r| == |coords|
    ensures forall i :: 0 <= i < |r| ==> r[i] == (coords[i].1, coords[i].0)
  {
    if coords == [] then []
    else [(coords[0].1, coords[0].0)] + ToLngLat(coords[1..])
  }

  /** The map's swap undoes the planner's: the features carry the routing
      service's geometry unchanged. */
  lemma {:induction false} SwapRoundTrip(coordinates: seq<Coord>)
    ensures ToLngLat(ToLatLng(coordinates)) == coordinates
    ensures ToLatLng(ToLngLat(coordinates)) == coordinates
    decreases |coordinates|
  {
    if coordinates != [] {
      SwapRoundTrip(coordinates[1..]);
      var c := coordinates;
      assert ToLatLng(c) == [(c[0].1, c[0].0)] + ToLatLng(c[1..]);
      assert ToLatLng(c)[1..] == ToLatLng(c[1..]);
      assert ToLngLat(c)[1..] == ToLngLat(c[1..]);
      assert c == [c[0]] + c[1..];
    }
  }

  /** One GeoJSON line feature. */
  datatype Feature = Feature(coordinates: seq<Coord>, index: int, isSelected: bool)

  /** `routeLayers`: one feature per route, the selected one flagged. */
  function RouteLayers(routes: seq<Route>, selectedRouteIndex: int): (r: seq<Feature>)
    ensures |r| == |routes|
    ensures forall i :: 0 <= i < |r| ==>
      r[i].index == i && r[i].coordinates == ToLngLat(routes[i].coords)
    ensures forall i :: 0 <= i < |r| ==> (r[i].isSelected <==> i == selectedRouteIndex)
  {
    seq(|routes|, i requires 0 <= i < |routes| =>
      Feature(ToLngLat(routes[i].coords), i, i == selectedRouteIndex))
  }

  /** Exactly one feature is selected when the index names a route, and none
      otherwise. */
  lemma SelectedFeatureUnique(routes: seq<Route>, sel: int)
    ensures 0 <= sel < |routes| ==> (exists i :: 0 <= i < |routes| && RouteLayers(routes, sel)[i].isSelected)
    ensures forall i, j ::
      (0 <= i < |routes| && 0 <= j < |routes| &&
       RouteLayers(routes, sel)[i].isSelected && RouteLayers(routes, sel)[j].isSelected) ==> i == j
    ensures !(0 <= sel < |routes|) ==> forall i :: 0 <= i < |routes| ==> !RouteLayers(routes, sel)[i].isSelected
  {
    if 0 <= sel < |routes| {
      assert RouteLayers(routes, sel)[sel].isSelected;
    }
  }

  /** The vehicle marker's place. */
  datatype LngLat = LngLat(lng: real, lat: real)

  /** `vehiclePosition`: nothing without routes or when either index is off
      the end; otherwise the stored point read back as longitude and latitude. */
  function VehiclePosition(routes: seq<Route>, sel: int, vehicleIndex: int): (r: Option<LngLat>)
    ensures r.Some? <==> 0 <= sel < |routes| && 0 <= vehicleIndex < |routes[sel].coords|
    ensures r.Some? ==>
      r.value == LngLat(routes[sel].coords[vehicleIndex].1, routes[sel].coords[vehicleIndex].0)
  {
    if |routes| > 0 && 0 <= sel < |routes| && 0 <= vehicleIndex < |routes[sel].coords| then
      var point := routes[sel].coords[vehicleIndex];
      Some(LngLat(point.1, point.0))
    else None
  }

  /** On processed routes the marker stands on the routing service's own
      point: its longitude is the first number of the original pair. */
  lemma VehicleOnServicePoint(raw: seq<RawRoute>, sel: int, vehicleIndex: int)
    requires 0 <= sel < |raw| && 0 <= vehicleIndex < |raw[sel].coordinates|
    ensures VehiclePosition(ProcessRoutes(raw), sel, vehicleIndex) ==
      Some(LngLat(raw[sel].coordinates[vehicleIndex].0, raw[sel].coordinates[vehicleIndex].1))
  {
  }

  /** The component's own animation state and the start and end points it
      sets through its parent's setters. */
  class MapView {
    var start: Option<Location>
    var end: Option<Location>
    var vehicleIndex: int

    constructor (start: Option<Location>, end: Option<Location>)
      ensures this.start == start && this.end == end && vehicleIndex == 0
    {
      this.start, this.end, vehicleIndex := start, end, 0;
    }

    /** `handleMapClick`. */
    method HandleMapClick(p: Location)
      modifies this`start, this`end
      ensures (start, end) == Pick(old(start), old(end), p)
    {
      if start.None? {
        start := Some(p);
      } else if end.None? {
        end := Some(p);
      }
    }

    /** The effect run when the routes or the selection change: the vehicle
        goes back to the first point, unless there are no routes. */
    method RoutesChanged(routes: seq<Route>)
      modifies this`vehicleIndex
      ensures vehicleIndex == if routes == [] then old(vehicleIndex) else 0
    {
      if |routes| == 0 {
        return;
      }
      vehicleIndex := 0;
    }

    /** One tick of the animation interval on the selected route. */
    method StepAnimation(routes: seq<Route>, sel: int)
      requires 0 <= sel < |routes|
      modifies this`vehicleIndex
      ensures vehicleIndex == AnimationStep(old(vehicleIndex), |routes[sel].coords|)
      ensures 0 <= old(vehicleIndex) <= LastIndex(|routes[sel].coords|) ==>
        0 <= vehicleIndex <= LastIndex(|routes[sel].coords|)
    {
      var max := |routes[sel].coords| - 1;
      vehicleIndex := if vehicleIndex < max then vehicleIndex + 1 else vehicleIndex;
    }
  }
}
