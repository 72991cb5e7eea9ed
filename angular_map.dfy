/** The Angular `AzureMapComponent`: its public fields, its data source (an
    ordered buffer of shapes), and the handlers that rebuild or replace that
    buffer. The routing and search services are asynchronous: a call is
    recorded as an issued request, and its answer arrives later through one
    of the Deliver methods, in whatever order the environment chooses. The
    component keeps no request sequence numbers, so neither does the model. */
module AngularMap {
  import opened Geo
  import opened Text
  import LocationStore

  /** The component's state, field by field. */
  datatype ComponentState = ComponentState(
    hasMap: bool,                       // `map` is non-null
    hasDataSource: bool,                // `dataSource` is non-null
    subscribed: bool,                   // destination subscription taken
    clicksWired: bool,                  // the two click handlers registered
    locating: bool,                     // a geolocation request or watch is live
    currentLocation: Option<Loc>,
    destinationLocation: Option<Loc>,
    routeInfo: Option<RouteInfo>,
    searchQuery: string,
    searchResults: seq<SearchResult>,
    shapes: seq<Shape>,                 // the data source, in insertion order
    routeRequests: seq<RouteRequest>,   // every POST /route issued, in order
    searchRequests: seq<string>,        // every POST /search query, in order
    pendingRoutes: nat,                 // route answers not yet delivered
    pendingSearches: nat)               // search answers not yet delivered

  function InitialState(): ComponentState {
    ComponentState(false, false, false, false, false, None, None, None, "", [], [], [], [], 0, 0)
  }

  /** The map can be drawn on: `map` and `dataSource` both set. */
  predicate Drawable(s: ComponentState) { s.hasMap && s.hasDataSource }

  /** The 'current' marker and its accuracy circle, when a location is known. */
  function CurrentShapes(current: Option<Loc>): seq<Shape> {
    if current.Some? then [Current(Position(current.value)), Accuracy(Position(current.value))] else []
  }

  function DestinationShapes(destination: Option<Loc>): seq<Shape> {
    if destination.Some? then [Destination(Position(destination.value))] else []
  }

  /** The buffer `updateMap` builds. */
  function MapShapes(current: Option<Loc>, destination: Option<Loc>, results: seq<SearchResult>): seq<Shape> {
    CurrentShapes(current) + DestinationShapes(destination) + SearchMarkers(results)
  }

  /** The buffer a successful route answer rebuilds: the 'current' marker
      without its accuracy circle, the destination, the route line; search
      markers are not put back. */
  function RoutedShapes(current: Option<Loc>, destination: Option<Loc>, points: seq<Coordinates>): seq<Shape> {
    (if current.Some? then [Current(Position(current.value))] else [])
      + DestinationShapes(destination) + [RouteLine(PathOf(points))]
  }

  /** The body `RoutingService.getRoute(end)` posts: `end` is [lat, lng]. */
  function RoutingServiceBody(end: Pair): RouteRequest {
    RequestTo(Coordinates(end.0, end.1))
  }

  /** The request `calculateRoute` causes. It calls `getRoute(start, end)`,
      but the service has a single parameter, so only `start` reaches it. */
  function RouteRequestFor(current: Loc, destination: Loc): RouteRequest {
    var start := (current.lat, current.lng);
    var end := (destination.lat, destination.lng);
    RoutingServiceBody(start)
  }

  /** The route request `calculateRoute` issues from state `s`, if any. */
  function RouteCall(s: ComponentState): seq<RouteRequest> {
    if s.currentLocation.Some? && s.destinationLocation.Some? && s.hasDataSource
    then [RouteRequestFor(s.currentLocation.value, s.destinationLocation.value)]
    else []
  }

  function CalculateRouteStep(s: ComponentState): ComponentState {
    s.(routeRequests := s.routeRequests + RouteCall(s), pendingRoutes := s.pendingRoutes + |RouteCall(s)|)
  }

  /** `updateMap`: nothing without a map and a data source; otherwise the
      buffer is rebuilt, and a route is requested when both points are set. */
  function UpdateMapStep(s: ComponentState): ComponentState {
    if !Drawable(s) then s
    else CalculateRouteStep(s).(shapes := MapShapes(s.currentLocation, s.destinationLocation, s.searchResults))
  }

  /** A route answer arriving. */
  function RouteAnswerStep(s: ComponentState, response: RouteResponse): ComponentState
    requires s.pendingRoutes > 0
  {
    var s' := s.(pendingRoutes := s.pendingRoutes - 1);
    if response.status == Success && response.route.Some? then
      var r := response.route.value;
      s'.(routeInfo := Some(RouteInfo(r.distance, r.duration)),
          shapes := RoutedShapes(s.currentLocation, s.destinationLocation, r.points))
    else s'
  }

  /** A route request failing (the observable's `error`): only logged. */
  function RouteErrorStep(s: ComponentState): ComponentState
    requires s.pendingRoutes > 0
  {
    s.(pendingRoutes := s.pendingRoutes - 1)
  }

  /** `onSearch`: a blank query does nothing; otherwise the search is sent
      and the map is redrawn at once, before any answer. */
  function SearchStep(s: ComponentState): ComponentState {
    if IsBlank(s.searchQuery) then s
    else UpdateMapStep(s.(searchRequests := s.searchRequests + [s.searchQuery],
                          pendingSearches := s.pendingSearches + 1))
  }

  /** A search answer arriving: only a success carrying results replaces
      them, wholesale; the map is not redrawn. */
  function SearchAnswerStep(s: ComponentState, response: SearchResponse): ComponentState
    requires s.pendingSearches > 0
  {
    var s' := s.(pendingSearches := s.pendingSearches - 1);
    if response.status == Success && response.results.Some? then s'.(searchResults := response.results.value) else s'
  }

  function SearchErrorStep(s: ComponentState): ComponentState
    requires s.pendingSearches > 0
  {
    s.(pendingSearches := s.pendingSearches - 1)
  }

  /** The destination subscription: null is ignored; a location becomes the
      destination and the map is redrawn. */
  function DestinationStep(s: ComponentState, d: Option<Loc>): ComponentState {
    if d.None? then s else UpdateMapStep(s.(destinationLocation := d))
  }

  /** A geolocation fix (the first one or a watched one): it becomes the
      current location and, with a map, the map is redrawn. */
  function PositionStep(s: ComponentState, l: Loc): ComponentState {
    var s' := s.(currentLocation := Some(l));
    if s.hasMap then UpdateMapStep(s') else s'
  }

  class MapComponent {
    const locations: LocationStore.LocationService
    var hasMap: bool
    var hasDataSource: bool
    var subscribed: bool
    var clicksWired: bool
    var locating: bool
    var currentLocation: Option<Loc>
    var destinationLocation: Option<Loc>
    var routeInfo: Option<RouteInfo>
    var searchQuery: string
    var searchResults: seq<SearchResult>
    var shapes: seq<Shape>
    var routeRequests: seq<RouteRequest>
    var searchRequests: seq<string>
    var pendingRoutes: nat
    var pendingSearches: nat

    ghost function State(): ComponentState
      reads this
    {
      ComponentState(hasMap, hasDataSource, subscribed, clicksWired, locating, currentLocation,
        destinationLocation, routeInfo, searchQuery, searchResults, shapes, routeRequests,
        searchRequests, pendingRoutes, pendingSearches)
    }

    constructor (locations: LocationStore.LocationService)
      ensures this.locations == locations && State() == InitialState()
    {
      this.locations := locations;
      hasMap, hasDataSource, subscribed, clicksWired, locating := false, false, false, false, false;
      currentLocation, destinationLocation, routeInfo := None, None, None;
      searchQuery, searchResults, shapes := "", [], [];
      routeRequests, searchRequests, pendingRoutes, pendingSearches := [], [], 0, 0;
    }

    method CalculateRoute()
      modifies this
      ensures State() == CalculateRouteStep(old(State()))
    {
      if currentLocation.None? || destinationLocation.None? || !hasDataSource { return; }
      var start := (currentLocation.value.lat, currentLocation.value.lng);
      routeRequests := routeRequests + [RoutingServiceBody(start)];
      pendingRoutes := pendingRoutes + 1;
    }

    method UpdateMap()
      modifies this
      ensures State() == UpdateMapStep(old(State()))
    {
      if !hasMap || !hasDataSource { return; }
      shapes := [];
      if currentLocation.Some? {
        shapes := shapes + [Current(Position(currentLocation.value))];
        shapes := shapes + [Accuracy(Position(currentLocation.value))];
      }
      if destinationLocation.Some? {
        shapes := shapes + [Destination(Position(destinationLocation.value))];
        if currentLocation.Some? { CalculateRoute(); }
      }
      assert shapes == CurrentShapes(currentLocation) + DestinationShapes(destinationLocation);
      AddSearchMarkers();
    }

    /** The `for` loop of `updateMap`: one marker per result, appended. */
    method AddSearchMarkers()
      modifies this
      ensures State() == old(State()).(shapes := old(shapes) + SearchMarkers(searchResults))
    {
      ghost var prefix := shapes;
      var i := 0;
      while i < |searchResults|
        invariant 0 <= i <= |searchResults|
        invariant shapes == prefix + SearchMarkers(searchResults[..i])
        invariant State() == old(State()).(shapes := shapes)
      {
        var r := searchResults[i];
        assert SearchMarkers(searchResults[..i + 1]) == SearchMarkers(searchResults[..i]) + [Search(r.id, PositionOf(r.coordinates))];
        shapes := shapes + [Search(r.id, PositionOf(r.coordinates))];
        i := i + 1;
      }
      assert searchResults[..i] == searchResults;
    }

    /** The SDK script has loaded: the map is created and the initial
        search runs (before the map is ready, so nothing is drawn). */
    method InitializeMap()
      requires !hasMap
      modifies this
      ensures State() == SearchStep(old(State()).(hasMap := true, searchQuery := DefaultQuery))
    {
      hasMap := true;
      searchQuery := DefaultQuery;
      OnSearch();
    }

    /** The map's 'ready' event: the data source is created, geolocation is
        asked for when the browser has it, the destination subscription is
        taken (the subject replays the destination it holds) and the click
        handler is registered, twice. */
    method OnMapReady(geolocationSupported: bool)
      requires hasMap && !hasDataSource
      modifies this
      ensures State() == DestinationStep(
        old(State()).(hasDataSource := true, shapes := [], locating := geolocationSupported,
                      subscribed := true, clicksWired := true),
        locations.destination)
    {
      WireReady(geolocationSupported);
      OnDestination(locations.destination);
    }

    /** The data source, the geolocation request, the subscription and the
        click handlers; none of them draws anything by itself. */
    method WireReady(geolocationSupported: bool)
      modifies this
      ensures State() == old(State()).(hasDataSource := true, shapes := [], locating := geolocationSupported,
                                       subscribed := true, clicksWired := true)
    {
      hasDataSource, shapes, locating, subscribed, clicksWired := true, [], geolocationSupported, true, true;
    }

    /** The destination subscription's callback. */
    method OnDestination(d: Option<Loc>)
      modifies this
      ensures State() == DestinationStep(old(State()), d)
    {
      if d.Some? {
        destinationLocation := d;
        UpdateMap();
      }
    }

    /** A geolocation success (the first fix or a watched one). The location
        service is told after the component has redrawn. */
    method OnPosition(l: Loc)
      requires locating
      modifies this, locations
      ensures State() == PositionStep(old(State()), l)
      ensures locations.current == Some(l)
      ensures locations.destination == old(locations.destination)
      ensures locations.routePoints == old(locations.routePoints)
      ensures locations.emitted == old(locations.emitted) + [LocationStore.CurrentEmitted(l)]
    {
      currentLocation := Some(l);
      if hasMap { UpdateMap(); }
      locations.UpdateLocation(l);
    }

    /** `setDestination` on the location service; the subscription, once
        taken, runs synchronously inside it. */
    method SendDestination(l: Loc)
      modifies this, locations
      ensures State() == if old(subscribed) then DestinationStep(old(State()), Some(l)) else old(State())
      ensures locations.destination == Some(l) && locations.current == old(locations.current)
      ensures locations.routePoints == LocationStore.RoutePointsAfter(old(locations.current), l, old(locations.routePoints))
      ensures locations.emitted == old(locations.emitted) + LocationStore.SetDestinationEmissions(old(locations.current), l)
    {
      locations.SetDestination(l);
      if subscribed { OnDestination(Some(l)); }
    }

    /** A map click: both registered handlers run, each sending
        {lat: position[1], lng: position[0]} when the event has a position. */
    method OnMapClick(position: Option<Pair>)
      requires clicksWired && subscribed
      modifies this, locations
      ensures position.None? ==> State() == old(State()) && locations.emitted == old(locations.emitted)
      ensures position.Some? ==>
        var l := Loc(position.value.1, position.value.0);
        && State() == DestinationStep(DestinationStep(old(State()), Some(l)), Some(l))
        && locations.destination == Some(l)
        && locations.emitted == old(locations.emitted)
             + LocationStore.SetDestinationEmissions(old(locations.current), l)
             + LocationStore.SetDestinationEmissions(old(locations.current), l)
    {
      if position.Some? {
        SendDestination(Loc(position.value.1, position.value.0));
      }
      if position.Some? {
        SendDestination(Loc(position.value.1, position.value.0));
      }
    }

    /** Choosing a search result: its coordinates become the destination. */
    method SelectSearchResult(r: SearchResult)
      modifies this, locations
      ensures State() == if old(subscribed) then DestinationStep(old(State()), Some(LocOf(r.coordinates))) else old(State())
      ensures locations.destination == Some(LocOf(r.coordinates))
      ensures locations.emitted == old(locations.emitted) + LocationStore.SetDestinationEmissions(old(locations.current), LocOf(r.coordinates))
    {
      SendDestination(Loc(r.coordinates.latitude, r.coordinates.longitude));
    }

    /** The search box's two-way binding. */
    method EditQuery(q: string)
      modifies this
      ensures State() == old(State()).(searchQuery := q)
    {
      searchQuery := q;
    }

    method OnSearch()
      modifies this
      ensures State() == SearchStep(old(State()))
    {
      if IsBlank(searchQuery) { return; }
      searchRequests := searchRequests + [searchQuery];
      pendingSearches := pendingSearches + 1;
      UpdateMap();
    }

    method DeliverRouteAnswer(response: RouteResponse)
      requires pendingRoutes > 0
      modifies this
      ensures State() == RouteAnswerStep(old(State()), response)
    {
      pendingRoutes := pendingRoutes - 1;
      if response.status == Success && response.route.Some? {
        var r := response.route.value;
        routeInfo := Some(RouteInfo(r.distance, r.duration));
        DrawRoute(r.points);
      }
    }

    /** The success branch's redraw: clear, [current]?, [destination]?, line. */
    method DrawRoute(points: seq<Coordinates>)
      modifies this
      ensures State() == old(State()).(shapes := RoutedShapes(currentLocation, destinationLocation, points))
    {
      var line := PathOf(points);
      shapes := [];
      if currentLocation.Some? { shapes := shapes + [Current(Position(currentLocation.value))]; }
      if destinationLocation.Some? { shapes := shapes + [Destination(Position(destinationLocation.value))]; }
      shapes := shapes + [RouteLine(line)];
    }

    method DeliverRouteError()
      requires pendingRoutes > 0
      modifies this
      ensures State() == RouteErrorStep(old(State()))
    {
      pendingRoutes := pendingRoutes - 1;
    }

    method DeliverSearchAnswer(response: SearchResponse)
      requires pendingSearches > 0
      modifies this
      ensures State() == SearchAnswerStep(old(State()), response)
    {
      pendingSearches := pendingSearches - 1;
      if response.status == Success && response.results.Some? {
        searchResults := response.results.value;
      }
    }

    method DeliverSearchError()
      requires pendingSearches > 0
      modifies this
      ensures State() == SearchErrorStep(old(State()))
    {
      pendingSearches := pendingSearches - 1;
    }
  }

  // ---- Properties of the component's steps ----

  /** `updateMap` changes nothing without a map or a data source; otherwise
      it puts exactly the buffer `MapShapes` describes, and other fields
      stay as they were. */
  lemma UpdateMapLayout(s: ComponentState)
    ensures !Drawable(s) ==> UpdateMapStep(s) == s
    ensures Drawable(s) ==> UpdateMapStep(s).shapes == MapShapes(s.currentLocation, s.destinationLocation, s.searchResults)
    ensures UpdateMapStep(s).searchResults == s.searchResults
         && UpdateMapStep(s).routeInfo == s.routeInfo
         && UpdateMapStep(s).currentLocation == s.currentLocation
         && UpdateMapStep(s).destinationLocation == s.destinationLocation
  {
  }

  /** That buffer is [current, accuracy]?, [destination]?, then one search
      marker per result in order, and nothing else. */
  lemma MapShapesLayout(current: Option<Loc>, destination: Option<Loc>, results: seq<SearchResult>)
    ensures
      var k := (if current.Some? then 2 else 0) + (if destination.Some? then 1 else 0);
      var r := MapShapes(current, destination, results);
      && |r| == k + |results|
      && (current.Some? ==> r[0] == Current(Position(current.value)) && r[1] == Accuracy(Position(current.value)))
      && (destination.Some? ==> r[k - 1] == Destination(Position(destination.value)))
      && (forall i :: 0 <= i < |results| ==> r[k + i] == Search(results[i].id, PositionOf(results[i].coordinates)))
      && CountSearch(r) == |results|
  {
    var pre := CurrentShapes(current) + DestinationShapes(destination);
    CountSearchAppend(pre, SearchMarkers(results));
    SearchMarkersCount(results);
    assert CountSearch(pre) == 0 by {
      CountSearchAppend(CurrentShapes(current), DestinationShapes(destination));
    }
  }

  /** `updateMap` requests a route exactly when it can draw and both the
      current location and the destination are set, and then exactly one. */
  lemma UpdateMapRequestsRoute(s: ComponentState)
    ensures |UpdateMapStep(s).routeRequests| == |s.routeRequests| + 1
            <==> Drawable(s) && s.currentLocation.Some? && s.destinationLocation.Some?
    ensures |UpdateMapStep(s).routeRequests| <= |s.routeRequests| + 1
    ensures s.routeRequests <= UpdateMapStep(s).routeRequests
    ensures UpdateMapStep(s).pendingRoutes - s.pendingRoutes == |UpdateMapStep(s).routeRequests| - |s.routeRequests|
  {
  }

  /** The routing call carries only the current location: the request is
      the same whatever the destination, and names the current location as
      its destination. */
  lemma RouteRequestIgnoresDestination(c: Loc, d1: Loc, d2: Loc)
    ensures RouteRequestFor(c, d1) == RouteRequestFor(c, d2)
    ensures RouteRequestFor(c, d1).destination == Some(Coordinates(c.lat, c.lng))
  {
  }

  /** A successful route answer drops the search markers and the accuracy
      circle, keeps [current]?, [destination]? and ends with the route, each
      point as [longitude, latitude] in answer order. */
  lemma RouteAnswerLayout(s: ComponentState, response: RouteResponse)
    requires s.pendingRoutes > 0
    requires response.status == Success && response.route.Some?
    ensures
      var r := RouteAnswerStep(s, response);
      && r.routeInfo == Some(RouteInfo(response.route.value.distance, response.route.value.duration))
      && r.shapes == RoutedShapes(s.currentLocation, s.destinationLocation, response.route.value.points)
      && r.searchResults == s.searchResults
  {
  }

  /** That buffer holds no search marker and no accuracy circle: it is
      [current]?, [destination]?, and the route as its last shape. */
  lemma RoutedShapesLayout(current: Option<Loc>, destination: Option<Loc>, points: seq<Coordinates>)
    ensures
      var r := RoutedShapes(current, destination, points);
      && CountSearch(r) == 0
      && (forall i :: 0 <= i < |r| ==> !r[i].Accuracy?)
      && |r| == (if current.Some? then 1 else 0) + (if destination.Some? then 1 else 0) + 1
      && r[|r| - 1] == RouteLine(PathOf(points))
  {
    var a := if current.Some? then [Current(Position(current.value))] else [];
    var b := DestinationShapes(destination);
    CountSearchAppend(a + b, [RouteLine(PathOf(points))]);
    CountSearchAppend(a, b);
  }

  /** Anything but a success carrying a route leaves the route panel and the
      buffer as they were. */
  lemma RouteFailureKeepsMap(s: ComponentState, response: RouteResponse)
    requires s.pendingRoutes > 0
    requires !(response.status == Success && response.route.Some?)
    ensures RouteAnswerStep(s, response).shapes == s.shapes
    ensures RouteAnswerStep(s, response).routeInfo == s.routeInfo
    ensures RouteErrorStep(s).shapes == s.shapes && RouteErrorStep(s).routeInfo == s.routeInfo
  {
  }

  /** Without request sequencing the last answer delivered wins, whichever
      request it belongs to. */
  lemma LastRouteAnswerWins(s: ComponentState, newer: RouteResponse, older: RouteResponse)
    requires s.pendingRoutes >= 2
    requires older.status == Success && older.route.Some?
    ensures RouteAnswerStep(RouteAnswerStep(s, newer), older).routeInfo
            == Some(RouteInfo(older.route.value.distance, older.route.value.duration))
    ensures RouteAnswerStep(RouteAnswerStep(s, newer), older).shapes
            == RoutedShapes(s.currentLocation, s.destinationLocation, older.route.value.points)
  {
  }

  /** A blank query sends nothing and draws nothing; any other query sends
      exactly that query once and redraws right away. */
  lemma SearchSendsQuery(s: ComponentState)
    ensures IsBlank(s.searchQuery) ==> SearchStep(s) == s
    ensures !IsBlank(s.searchQuery) ==>
      && SearchStep(s).searchRequests == s.searchRequests + [s.searchQuery]
      && SearchStep(s).pendingSearches == s.pendingSearches + 1
      && SearchStep(s).searchResults == s.searchResults
      && (Drawable(s) ==> SearchStep(s).shapes == MapShapes(s.currentLocation, s.destinationLocation, s.searchResults))
  {
  }

  /** Search answers replace the results wholesale but are drawn only by
      the next redraw: the buffer is untouched by the answer itself. */
  lemma SearchAnswerNotDrawn(s: ComponentState, response: SearchResponse)
    requires s.pendingSearches > 0
    ensures SearchAnswerStep(s, response).shapes == s.shapes
    ensures SearchAnswerStep(s, response).searchResults
            == if response.status == Success && response.results.Some? then response.results.value else s.searchResults
    ensures SearchErrorStep(s).searchResults == s.searchResults
  {
  }

  /** The destination subscription ignores null; a location is taken as the
      destination and redrawn. */
  lemma DestinationUpdates(s: ComponentState, d: Option<Loc>)
    ensures d.None? ==> DestinationStep(s, d) == s
    ensures d.Some? ==> DestinationStep(s, d).destinationLocation == d
                        && DestinationStep(s, d) == UpdateMapStep(s.(destinationLocation := d))
  {
  }

  /** Because the click handler is registered twice, one click with a known
      current location issues two identical route requests; the buffer ends
      as one redraw would leave it. */
  lemma DoubleClickRequestsTwice(s: ComponentState, l: Loc)
    requires Drawable(s) && s.currentLocation.Some?
    ensures
      var once := DestinationStep(s, Some(l));
      var twice := DestinationStep(once, Some(l));
      var req := RouteRequestFor(s.currentLocation.value, l);
      && twice.routeRequests == s.routeRequests + [req, req]
      && twice.pendingRoutes == s.pendingRoutes + 2
      && twice.shapes == once.shapes
      && twice.destinationLocation == Some(l)
  {
  }
}
