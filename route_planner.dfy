/** The route planner page: picking a start and an end point on the map,
    fetching routes from the routing service (its answer is an input here),
    resetting, choosing one of the routes, and the vehicle animation along the
    chosen route. */
module RoutePlanner {
  import opened Common

  /** A two-element coordinate array. The routing service sends `[lng, lat]`;
      the page keeps `[lat, lng]`. */
  type Coord = (real, real)

  /** A route as the page keeps it: its points as `[lat, lng]`. */
  datatype Route = Route(coords: seq<Coord>)

  /** A route as the routing service sends it: its geometry as `[lng, lat]`. */
  datatype RawRoute = RawRoute(coordinates: seq<Coord>)

  /** The routing service's answer: a body whose `routes` field may be
      missing, or a failed request. */
  datatype FetchReply = Fetched(routes: Option<seq<RawRoute>>) | FetchFailed

  const SelectBoth := "Please select start and destination on the map"
  const NoRoutes := "No routes found"
  const FetchError := "Failed to fetch route"

  /** The map click rule: the first click sets the start, the second the
      end, and later clicks are ignored. */
  function Pick(start: Option<Location>, end: Option<Location>, p: Location): (r: (Option<Location>, Option<Location>))
    ensures start.None? ==> r == (Some(p), end)
    ensures start.Some? && end.None? ==> r == (start, Some(p))
    ensures start.Some? && end.Some? ==> r == (start, end)
  {
    if start.None? then (Some(p), end)
    else if end.None? then (start, Some(p))
    else (start, end)
  }

  /** From an empty map, two clicks fix both points and a third changes nothing. */
  lemma ThreeClicks(p: Location, q: Location, x: Location)
    ensures var (s1, e1) := Pick(None, None, p);
            var (s2, e2) := Pick(s1, e1, q);
            (s2, e2) == (Some(p), Some(q)) && Pick(s2, e2, x) == (s2, e2)
  {
  }

  /** `coordinates.map(([lng, lat]) => [lat, lng])`. */
  function ToLatLng(coordinates: seq<Coord>): (r: seq<Coord>)
    ensures |r| == |coordinates|
    ensures forall i :: 0 <= i < |r| ==> r[i] == (coordinates[i].1, coordinates[i].0)
  {
    if coordinates == [] then []
    else [(coordinates[0].1, coordinates[0].0)] + ToLatLng(coordinates[1..])
  }

  /** The routes kept from a non-empty answer, one per route, in order. */
  function ProcessRoutes(raw: seq<RawRoute>): (r: seq<Route>)
    ensures |r| == |raw|
    ensures forall i :: 0 <= i < |raw| ==> r[i].coords == ToLatLng(raw[i].coordinates)
  {
    seq(|raw|, i requires 0 <= i < |raw| => Route(ToLatLng(raw[i].coordinates)))
  }

  /** One step of the animation interval: `prev < max ? prev + 1 : prev` with
      `max` the last index of the route's points. */
  function AnimationStep(prev: int, count: nat): (r: int)
    ensures prev <= r <= prev + 1
    ensures r == prev + 1 <==> prev < count - 1
  {
    var max := count - 1;
    if prev < max then prev + 1 else prev
  }

  /** `n` animation steps. */
  function Steps(prev: int, count: nat, n: nat): int
    decreases n
  {
    if n == 0 then prev else Steps(AnimationStep(prev, count), count, n - 1)
  }

  /** Started at 0, the vehicle advances one point per step and then stays on
      the last point (on the first point of an empty route). */
  lemma {:induction false} StepsSaturate(count: nat, n: nat, start: nat)
    requires start <= LastIndex(count)
    ensures Steps(start, count, n) == if start + n < LastIndex(count) then start + n else LastIndex(count)
    decreases n
  {
    if n > 0 {
      StepsSaturate(count, n - 1, AnimationStep(start, count));
    }
  }

  /** The last point's index, or 0 for a route without points. */
  function LastIndex(count: nat): nat {
    if count == 0 then 0 else count - 1
  }

  /** The page's state. */
  class Planner {
    var start: Option<Location>
    var end: Option<Location>
    var routes: seq<Route>
    var selectedRouteIndex: int
    var routeType: Option<string>
    var vehicleIndex: int

    /** What the handlers keep true: an end point only after a start point, a
        chosen route that exists, and a vehicle on the chosen route. */
    ghost predicate Valid()
      reads this
    {
      && (end.Some? ==> start.Some?)
      && 0 <= selectedRouteIndex
      && 0 <= vehicleIndex
      && (routes != [] ==>
            selectedRouteIndex < |routes| && vehicleIndex <= LastIndex(|routes[selectedRouteIndex].coords|))
    }

    constructor ()
      ensures Valid()
      ensures start.None? && end.None? && routes == [] && selectedRouteIndex == 0
      ensures routeType.None? && vehicleIndex == 0
    {
      start, end, routes := None, None, [];
      selectedRouteIndex, routeType, vehicleIndex := 0, None, 0;
    }

    /** The map click handler. */
    method Click(p: Location)
      requires Valid()
      modifies this
      ensures Valid()
      ensures (start, end) == Pick(old(start), old(end), p)
      ensures routes == old(routes) && selectedRouteIndex == old(selectedRouteIndex)
      ensures routeType == old(routeType) && vehicleIndex == old(vehicleIndex)
    {
      if start.None? {
        start := Some(p);
      } else if end.None? {
        end := Some(p);
      }
    }

    /** The "Reset Map" button. */
    method Reset()
      requires Valid()
      modifies this
      ensures Valid()
      ensures start.None? && end.None? && routes == []
      ensures selectedRouteIndex == old(selectedRouteIndex) && routeType == old(routeType)
      ensures vehicleIndex == old(vehicleIndex)
    {
      start := None;
      end := None;
      routes := [];
    }

    /** `fetchRoutes(type)`. Without both points nothing changes; otherwise the
        route type is recorded and a non-empty answer replaces the routes,
        selects the first one and restarts the animation. */
    method FetchRoutes(kind: string, reply: FetchReply) returns (alert: Option<string>)
      requires Valid()
      modifies this
      ensures Valid()
      ensures start == old(start) && end == old(end)
      ensures old(start).None? || old(end).None? ==> alert == Some(SelectBoth) && unchanged(this)
      ensures old(start).Some? && old(end).Some? ==> routeType == Some(kind)
      ensures old(start).Some? && old(end).Some? && reply.FetchFailed? ==>
        alert == Some(FetchError) && routes == old(routes) && selectedRouteIndex == old(selectedRouteIndex)
        && vehicleIndex == old(vehicleIndex)
      ensures old(start).Some? && old(end).Some? && reply.Fetched? && (reply.routes.None? || reply.routes.value == []) ==>
        alert == Some(NoRoutes) && routes == old(routes) && selectedRouteIndex == old(selectedRouteIndex)
        && vehicleIndex == old(vehicleIndex)
      ensures old(start).Some? && old(end).Some? && reply.Fetched? && reply.routes.Some? && reply.routes.value != [] ==>
        alert.None? && routes == ProcessRoutes(reply.routes.value) && selectedRouteIndex == 0 && vehicleIndex == 0
    {
      if start.None? || end.None? {
        return Some(SelectBoth);
      }
      routeType := Some(kind);
      match reply
      case FetchFailed =>
        alert := Some(FetchError);
      case Fetched(raw) =>
        if raw.None? || |raw.value| == 0 {
          alert := Some(NoRoutes);
        } else {
          alert := None;
          routes := ProcessRoutes(raw.value);
          selectedRouteIndex := 0;
          // the animation effect runs again for the new routes
          vehicleIndex := 0;
        }
    }

    /** A click on the card of route `index`. Selecting the route already
        selected does not restart the animation. */
    method SelectRoute(index: int)
      requires Valid() && 0 <= index < |routes|
      modifies this
      ensures Valid()
      ensures selectedRouteIndex == index
      ensures vehicleIndex == if index == old(selectedRouteIndex) then old(vehicleIndex) else 0
      ensures start == old(start) && end == old(end) && routes == old(routes) && routeType == old(routeType)
    {
      if index != selectedRouteIndex {
        selectedRouteIndex := index;
        vehicleIndex := 0;
      }
    }

    /** One tick of the 200 ms animation interval, which runs only while
        there are routes. */
    method StepAnimation()
      requires Valid() && routes != []
      modifies this
      ensures Valid()
      ensures start == old(start) && end == old(end) && routes == old(routes)
      ensures selectedRouteIndex == old(selectedRouteIndex) && routeType == old(routeType)
      ensures vehicleIndex == AnimationStep(old(vehicleIndex), |routes[selectedRouteIndex].coords|)
    {
      var max := |routes[selectedRouteIndex].coords| - 1;
      vehicleIndex := if vehicleIndex < max then vehicleIndex + 1 else vehicleIndex;
    }
  }
}
