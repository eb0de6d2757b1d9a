// The maps tool: geocoding through a per-process cache, a fixed table of local places and the
// Nominatim service; routing through OSRM with a straight-line estimate as fallback; and the
// nearest-resource search that routes to every known unit of a kind and keeps the quickest.
// The services are oracles keyed by their query; the estimate's square root is one too.
module Maps {
  import opened Wrappers
  import opened Strings

  /** A geocoded place, as the found dict carries it. */
  datatype Place = Place(name: string, lat: real, lng: real, displayName: string, source: string)

  /** `lookup_location`'s answer: status "found" with the place, or status "not_found". */
  datatype Lookup = Found(place: Place) | NotFound(name: string)

  /** What Nominatim does for one query: a first hit, an empty list, or a failure (non-200 status
      or an exception). */
  datatype Geocode = GeoHit(lat: real, lng: real, displayName: string) | GeoEmpty | GeoFailed

  /** What OSRM does for one pair: a route with duration in seconds and distance in metres, or
      anything else (a failure, a code other than "Ok", no routes). */
  datatype RouteApi = RouteOk(seconds: real, metres: real) | RouteFailed

  datatype Route =
    | Routed(origin: string, destination: string, distanceKm: real, durationMins: int, traffic: string, source: string)
    | RouteError(message: string)

  /** The outside world: Nominatim by query, OSRM by place names, and the square root the
      fallback estimate takes. */
  datatype World = World(geo: string -> Geocode, osrm: (string, string) -> RouteApi, hypot: (real, real) -> real)

  /** The fixed table of local places: latitude, longitude and display name. */
  const Fallback: map<string, (real, real, string)> := map[
    "maddilapalem" := (17.729, 83.317, "Maddilapalem, Visakhapatnam"),
    "gajuwaka" := (17.690, 83.210, "Gajuwaka, Visakhapatnam"),
    "mvp colony" := (17.740, 83.330, "MVP Colony, Visakhapatnam"),
    "jagadamba" := (17.710, 83.300, "Jagadamba Centre, Visakhapatnam"),
    "rushikonda" := (17.780, 83.380, "Rushikonda, Visakhapatnam"),
    "fire station hq" := (17.730, 83.318, "Fire Station HQ, Visakhapatnam"),
    "general hospital" := (17.742, 83.332, "General Hospital, Visakhapatnam")
  ]

  /** The units of each kind `find_nearest_resource` knows. */
  const Resources: map<string, seq<string>> := map[
    "fire_station" := ["Fire Station HQ", "Gajuwaka Fire Station"],
    "hospital" := ["General Hospital", "Apollo Hospital Ramnagar"],
    "utility_hub" := ["Maddilapalem Substation", "Gajuwaka Power Grid"]
  ]

  /** The cache key: the query lower-cased and stripped. */
  function Key(query: string): string {
    Strip(Lower(query))
  }

  /** `int(x)`: truncation toward zero. */
  function Trunc(x: real): (n: int)
    ensures x >= 0.0 ==> n == x.Floor
    ensures x < 0.0 ==> n == -((-x).Floor)
  {
    if x >= 0.0 then x.Floor else -((-x).Floor)
  }

  /** `lookup_location` as a function of the cache: the answer and the cache it leaves. The cache
      is consulted first, then the local table, then Nominatim; only found places are cached. */
  function LookupIn(cache: map<string, Place>, query: string, geo: Geocode): (r: (Lookup, map<string, Place>))
    ensures Key(query) in cache ==> r == (Found(cache[Key(query)]), cache)
    ensures Key(query) !in cache && Key(query) in Fallback ==>
      r.0.Found? && r.0.place.source == "internal_db" && r.0.place.name == query
      && r.0.place.lat == Fallback[Key(query)].0 && r.0.place.lng == Fallback[Key(query)].1
    ensures r.0.NotFound? <==> Key(query) !in cache && Key(query) !in Fallback && !geo.GeoHit?
    ensures r.0.NotFound? ==> r.1 == cache && r.0.name == query
    ensures r.0.Found? ==> r.1 == cache[Key(query) := r.0.place]
  {
    var key := Key(query);
    if key in cache then (Found(cache[key]), cache)
    else if key in Fallback then
      var place := Place(query, Fallback[key].0, Fallback[key].1, Fallback[key].2, "internal_db");
      (Found(place), cache[key := place])
    else match geo
      case GeoHit(lat, lng, display) =>
        var place := Place(query, lat, lng, display, "osm_nominatim");
        (Found(place), cache[key := place])
      case _ => (NotFound(query), cache)
  }

  /** The straight-line estimate: 111 km per degree of latitude, 0.9 of that per degree of
      longitude at this latitude, driven at 40 km/h. */
  function Estimate(origin: string, destination: string, o: Place, d: Place, hypot: (real, real) -> real): Route {
    var dLat := (d.lat - o.lat) * 111.0;
    var dLon := (d.lng - o.lng) * 111.0 * 0.9;
    var km := hypot(dLat, dLon);
    Routed(origin, destination, km, Trunc(km / 40.0 * 60.0), "Estimated (Fallback)", "fallback_estimation")
  }

  /** `get_route` given the two lookups: an error unless both were found, else the OSRM route,
      else the estimate. */
  function RouteFor(origin: string, destination: string, o: Lookup, d: Lookup, w: World): (r: Route)
    ensures r.RouteError? <==> o.NotFound? || d.NotFound?
    ensures r.RouteError? ==> r.message == "Could not resolve origin or destination"
    ensures r.Routed? ==> r.origin == origin && r.destination == destination
  {
    if o.NotFound? || d.NotFound? then RouteError("Could not resolve origin or destination")
    else match w.osrm(origin, destination)
      case RouteOk(seconds, metres) =>
        Routed(origin, destination, metres / 1000.0, Trunc(seconds / 60.0), "Live (OSRM)", "osrm")
      case RouteFailed => Estimate(origin, destination, o.place, d.place, w.hypot)
  }

  /** `get_route` as a function of the cache: both ends are looked up (and cached) before the
      guard, so the cache grows even when the route is an error. */
  function RouteStep(cache: map<string, Place>, origin: string, destination: string, w: World): (r: (Route, map<string, Place>))
    ensures r.0.Routed? ==> r.0.origin == origin && r.0.destination == destination
  {
    var (o, c1) := LookupIn(cache, origin, w.geo(origin));
    var (d, c2) := LookupIn(c1, destination, w.geo(destination));
    (RouteFor(origin, destination, o, d, w), c2)
  }

  /** The unit `find_nearest_resource` reports. */
  datatype Nearest = Nearest(resourceType: string, unit: string, distanceKm: real, etaMins: int)

  /** The position the search keeps: a routed candidate with the smallest duration, the first one
      among equals (the comparison is strict). */
  ghost predicate FirstQuickest(routes: seq<Route>, i: int) {
    0 <= i < |routes| && routes[i].Routed?
    && (forall j :: 0 <= j < |routes| && routes[j].Routed? ==> routes[i].durationMins <= routes[j].durationMins)
    && (forall j :: 0 <= j < i && routes[j].Routed? ==> routes[i].durationMins < routes[j].durationMins)
  }

  /** `resources_db.get(resource_type, [])`. */
  function Candidates(resourceType: string): seq<string> {
    if resourceType in Resources then Resources[resourceType] else []
  }

  /** The routes `find_nearest_resource` asks for, one `get_route(location, candidate)` per
      candidate in order, and the cache they leave: each call looks up the location (found in the
      cache after the first time) and then the candidate. */
  function RoutesFrom(cache: map<string, Place>, location: string, candidates: seq<string>, w: World)
    : (r: (seq<Route>, map<string, Place>))
    ensures |r.0| == |candidates|
    decreases |candidates|
  {
    if |candidates| == 0 then ([], cache)
    else
      var (routes, c) := RoutesFrom(cache, location, candidates[..|candidates| - 1], w);
      var (route, next) := RouteStep(c, location, candidates[|candidates| - 1], w);
      (routes + [route], next)
  }

  /** One more candidate extends the routes and moves the cache on by one `get_route`. */
  lemma RoutesFromSnoc(cache: map<string, Place>, location: string, candidates: seq<string>, i: nat, w: World,
                       routes: seq<Route>, c: map<string, Place>, route: Route, next: map<string, Place>)
    requires i < |candidates|
    requires (routes, c) == RoutesFrom(cache, location, candidates[..i], w)
    requires (route, next) == RouteStep(c, location, candidates[i], w)
    ensures (routes + [route], next) == RoutesFrom(cache, location, candidates[..i + 1], w)
  {
    assert candidates[..i + 1][..i] == candidates[..i];
  }

  /** One round of the search: a routed candidate strictly quicker than the one kept (or the
      first routed one) takes its place. */
  lemma QuickestStep(prev: seq<Route>, route: Route, best: Option<nat>, next: Option<nat>)
    requires best.None? <==> forall j :: 0 <= j < |prev| ==> prev[j].RouteError?
    requires best.Some? ==> FirstQuickest(prev, best.value)
    requires next == if route.Routed? && (best.None? || route.durationMins < prev[best.value].durationMins)
      then Some(|prev|) else best
    ensures next.None? <==> forall j :: 0 <= j < |prev| + 1 ==> (prev + [route])[j].RouteError?
    ensures next.Some? ==> FirstQuickest(prev + [route], next.value)
  {
    var routes := prev + [route];
    assert forall j :: 0 <= j < |prev| ==> routes[j] == prev[j];
    assert routes[|prev|] == route;
  }

  class RealMapsTool {
    var cache: map<string, Place>

    constructor ()
      ensures cache == map[]
    {
      cache := map[];
    }

    /** `lookup_location`. */
    method LookupLocation(query: string, w: World) returns (r: Lookup)
      modifies this
      ensures (r, cache) == LookupIn(old(cache), query, w.geo(query))
    {
      var key := Strip(Lower(query));
      if key in cache {
        return Found(cache[key]);
      }
      if key in Fallback {
        var place := Place(query, Fallback[key].0, Fallback[key].1, Fallback[key].2, "internal_db");
        cache := cache[key := place];
        return Found(place);
      }
      var answer := w.geo(query);
      if answer.GeoHit? {
        var place := Place(query, answer.lat, answer.lng, answer.displayName, "osm_nominatim");
        cache := cache[key := place];
        return Found(place);
      }
      return NotFound(query);
    }

    /** `get_route`: both ends are looked up (and cached) before the guard. */
    method GetRoute(origin: string, destination: string, w: World) returns (r: Route)
      modifies this
      ensures (r, cache) == RouteStep(old(cache), origin, destination, w)
    {
      var o := LookupLocation(origin, w);
      var d := LookupLocation(destination, w);
      if o.NotFound? || d.NotFound? {
        return RouteError("Could not resolve origin or destination");
      }
      var api := w.osrm(origin, destination);
      if api.RouteOk? {
        return Routed(origin, destination, api.metres / 1000.0, Trunc(api.seconds / 60.0), "Live (OSRM)", "osrm");
      }
      return Estimate(origin, destination, o.place, d.place, w.hypot);
    }

    /** The loop of `find_nearest_resource`: a route to each candidate in order, keeping the
        position of the first quickest. */
    method RouteEach(location: string, candidates: seq<string>, w: World) returns (routes: seq<Route>, best: Option<nat>)
      modifies this
      ensures (routes, cache) == RoutesFrom(old(cache), location, candidates, w)
      ensures best.None? <==> forall j :: 0 <= j < |routes| ==> routes[j].RouteError?
      ensures best.Some? ==> FirstQuickest(routes, best.value)
    {
      routes, best := [], None;
      var i := 0;
      while i < |candidates|
        invariant 0 <= i <= |candidates|
        invariant (routes, cache) == RoutesFrom(old(cache), location, candidates[..i], w)
        invariant best.None? <==> forall j :: 0 <= j < i ==> routes[j].RouteError?
        invariant best.Some? ==> FirstQuickest(routes, best.value)
      {
        ghost var before := cache;
        var route := GetRoute(location, candidates[i], w);
        RoutesFromSnoc(old(cache), location, candidates, i, w, routes, before, route, cache);
        var next := best;
        if route.Routed? && (best.None? || route.durationMins < routes[best.value].durationMins) {
          next := Some(i);
        }
        QuickestStep(routes, route, best, next);
        routes, best := routes + [route], next;
        i := i + 1;
      }
      assert candidates[..i] == candidates;
    }

    /** `find_nearest_resource`: resolves the location, then routes to every candidate of the
        type in order and keeps the first quickest. */
    method FindNearestResource(resourceType: string, location: string, w: World)
      returns (r: Result<Nearest, string>, routes: seq<Route>)
      modifies this
      ensures var (here, c1) := LookupIn(old(cache), location, w.geo(location));
        if here.NotFound? then
          r == Err("Could not resolve location " + location) && routes == [] && cache == c1
        else if |Candidates(resourceType)| == 0 then
          r == Err("No resources of type " + resourceType + " known") && routes == [] && cache == c1
        else
          (routes, cache) == RoutesFrom(c1, location, Candidates(resourceType), w)
          && (r.Ok? <==> exists j :: 0 <= j < |routes| && routes[j].Routed?)
          && (r.Err? ==> r.error == "Could not calculate routes to resources")
          && (r.Ok? ==> exists i :: (FirstQuickest(routes, i)
                && r.value == Nearest(resourceType, Candidates(resourceType)[i], routes[i].distanceKm, routes[i].durationMins)))
    {
      routes := [];
      var here := LookupLocation(location, w);
      if here.NotFound? {
        return Err("Could not resolve location " + location), routes;
      }
      var candidates := Candidates(resourceType);
      if |candidates| == 0 {
        return Err("No resources of type " + resourceType + " known"), routes;
      }
      var best;
      routes, best := RouteEach(location, candidates, w);
      if best.None? {
        return Err("Could not calculate routes to resources"), routes;
      }
      var k := best.value;
      r := Ok(Nearest(resourceType, candidates[k], routes[k].distanceKm, routes[k].durationMins));
    }
  }
}
