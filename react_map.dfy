/** The plain-React map view (`AzureMapReact` in AzureMap.js). Its React
    state, its refs (the map, the data source, the subscription) and the
    data source's shape buffer are fields of one object.

    A state setter given a new object bumps a version counter of that
    dependency; `Commit` is React committing a render: it runs the
    `updateMap` effect when one of its three dependencies changed since the
    effect last ran. Setters called in one handler are batched into one
    commit. Everything `updateMap` and `calculateRoute` read is current at
    the commit; only the 'ready' handler keeps the first render's search
    query.

    The routing and search collaborators are either remote (the answer
    comes later, through a Deliver method) or the synchronous mocks of
    MapPage.js (the answer comes inside the call). Calls into the location
    service are recorded; with the mock it only logs them. */
module ReactMap {
  import opened Geo
  import opened Text
  import MockPage

  datatype Service = Remote | Mock

  /** A call made on the location service prop. */
  datatype LocationCall = UpdateLocation(current: Loc) | SetDestination(destination: Loc)

  /** The versions of the `updateMap` effect's dependencies:
      currentLocation, destinationLocation, searchResults. */
  datatype Deps = Deps(current: nat, destination: nat, results: nat)

  datatype ViewState = ViewState(
    hasMap: bool,                           // `mapInstance.current` set
    hasDataSource: bool,                    // `dataSourceRef.current` set
    subscribed: bool,                       // destination subscription taken
    clicksWired: bool,                      // map click handler registered
    currentLocation: Option<Loc>,
    destinationLocation: Option<Loc>,
    routeInfo: Option<RouteInfo>,
    searchQuery: string,
    searchResults: Option<seq<SearchResult>>, // None: `res.results` was undefined
    shapes: seq<Shape>,                     // the data source, in insertion order
    routeRequests: seq<(Pair, Pair)>,       // every `getRoute(start, end)`, in order
    searchRequests: seq<string>,            // every `searchLocation({query})`, in order
    locationCalls: seq<LocationCall>,       // every call on the location service
    pendingRoutes: nat,
    pendingSearches: nat,
    deps: Deps,                             // current dependency versions
    drawn: Deps,                            // versions the effect last ran with
    crashed: bool)                          // rendering or `updateMap` threw

  /** After the first commit: the container exists, so the map is created;
      the effect's first run returns at once, there being no data source. */
  function MountedState(): ViewState {
    ViewState(true, false, false, false, None, None, None, DefaultQuery, Some([]),
      [], [], [], [], 0, 0, Deps(0, 0, 0), Deps(0, 0, 0), false)
  }

  predicate Drawable(s: ViewState) { s.hasMap && s.hasDataSource }

  /** The 'current' and 'destination' points `updateMap` adds first. */
  function PointShapes(current: Option<Loc>, destination: Option<Loc>): seq<Shape> {
    (if current.Some? then [Current(Position(current.value))] else [])
      + (if destination.Some? then [Destination(Position(destination.value))] else [])
  }

  /** The route observable's `next`: a success carrying a route sets the
      route panel and appends the line to the live data source. */
  function RouteNext(s: ViewState, response: RouteResponse): ViewState {
    if response.status == Success && response.route.Some? then
      var r := response.route.value;
      s.(routeInfo := Some(RouteInfo(r.distance, r.duration)), shapes := s.shapes + [RouteLine(PathOf(r.points))])
    else s
  }

  /** `calculateRoute`: nothing unless current, destination and data source
      are all set; otherwise both endpoints are sent as [lng, lat]. */
  function RouteStep(s: ViewState, routing: Service): ViewState {
    if !(s.currentLocation.Some? && s.destinationLocation.Some? && s.hasDataSource) then s
    else
      var start := Position(s.currentLocation.value);
      var end := Position(s.destinationLocation.value);
      var s' := s.(routeRequests := s.routeRequests + [(start, end)]);
      if routing == Mock then RouteNext(s', MockPage.MockRoute(start, end))
      else s'.(pendingRoutes := s'.pendingRoutes + 1)
  }

  /** `updateMap`: nothing without map and data source; otherwise the buffer
      is cleared, the points are added, the route is asked for when a
      destination is set, and one marker per result follows. */
  function UpdateMapStep(s: ViewState, routing: Service): ViewState {
    if !Drawable(s) then s
    else
      var s1 := s.(shapes := PointShapes(s.currentLocation, s.destinationLocation));
      MarkersStep(if s.destinationLocation.Some? then RouteStep(s1, routing) else s1)
  }

  /** The `forEach` closing `updateMap`: it throws on undefined results. */
  function MarkersStep(s: ViewState): ViewState {
    if s.searchResults.None? then s.(crashed := true)
    else s.(shapes := s.shapes + SearchMarkers(s.searchResults.value))
  }

  /** A commit: undefined results make the render throw; otherwise the
      effect runs when a dependency changed since its last run. */
  function CommitStep(s: ViewState, routing: Service): ViewState {
    if s.searchResults.None? then s.(crashed := true)
    else if s.deps == s.drawn then s
    else UpdateMapStep(s.(drawn := s.deps), routing)
  }

  /** The search observable's `next`: a success status replaces the results
      with whatever `res.results` is. */
  function SearchNext(s: ViewState, response: SearchResponse): ViewState {
    if response.status == Success then
      s.(searchResults := response.results, deps := s.deps.(results := s.deps.results + 1))
    else s
  }

  /** `onSearch` with the query of the render it belongs to. */
  function SearchStep(s: ViewState, search: Service, query: string): ViewState {
    if IsBlank(query) then s
    else
      var s' := s.(searchRequests := s.searchRequests + [query]);
      if search == Mock then SearchNext(s', MockPage.MockSearch(query))
      else s'.(pendingSearches := s'.pendingSearches + 1)
  }

  /** The map's 'ready' handler, given the two random locations: a fresh
      data source, both locations stored and handed to the location
      service, the click handler and subscription wired, and the first
      render's `onSearch` run. */
  function ReadyStep(s: ViewState, search: Service, start: Loc, end: Loc): ViewState {
    SearchStep(ReadyWiring(s, start, end), search, DefaultQuery)
  }

  /** The part of the 'ready' handler before `onSearch`. */
  function ReadyWiring(s: ViewState, start: Loc, end: Loc): ViewState {
    ViewState(s.hasMap, true, true, true, Some(start), Some(end), s.routeInfo, s.searchQuery,
      s.searchResults, [], s.routeRequests, s.searchRequests,
      s.locationCalls + [UpdateLocation(start), SetDestination(end)], s.pendingRoutes, s.pendingSearches,
      Deps(s.deps.current + 1, s.deps.destination + 1, s.deps.results), s.drawn, s.crashed)
  }

  /** The map click handler: {lat: position[1], lng: position[0]} is sent
      to the location service when the event has a position. */
  function ClickStep(s: ViewState, position: Option<Pair>): ViewState {
    if position.Some? then s.(locationCalls := s.locationCalls + [SetDestination(Loc(position.value.1, position.value.0))])
    else s
  }

  function SelectStep(s: ViewState, r: SearchResult): ViewState {
    s.(locationCalls := s.locationCalls + [SetDestination(LocOf(r.coordinates))])
  }

  /** The destination subscription: null is ignored. */
  function NotifiedStep(s: ViewState, d: Option<Loc>): ViewState {
    if d.None? then s
    else s.(destinationLocation := d, deps := s.deps.(destination := s.deps.destination + 1))
  }

  function RouteAnswerStep(s: ViewState, response: RouteResponse): ViewState
    requires s.pendingRoutes > 0
  {
    RouteNext(s.(pendingRoutes := s.pendingRoutes - 1), response)
  }

  function SearchAnswerStep(s: ViewState, response: SearchResponse): ViewState
    requires s.pendingSearches > 0
  {
    SearchNext(s.(pendingSearches := s.pendingSearches - 1), response)
  }

  class MapView {
    const routing: Service
    const search: Service
    var hasMap: bool
    var hasDataSource: bool
    var subscribed: bool
    var clicksWired: bool
    var currentLocation: Option<Loc>
    var destinationLocation: Option<Loc>
    var routeInfo: Option<RouteInfo>
    var searchQuery: string
    var searchResults: Option<seq<SearchResult>>
    var shapes: seq<Shape>
    var routeRequests: seq<(Pair, Pair)>
    var searchRequests: seq<string>
    var locationCalls: seq<LocationCall>
    var pendingRoutes: nat
    var pendingSearches: nat
    var deps: Deps
    var drawn: Deps
    var crashed: bool

    ghost function State(): ViewState
      reads this
    {
      ViewState(hasMap, hasDataSource, subscribed, clicksWired, currentLocation, destinationLocation,
        routeInfo, searchQuery, searchResults, shapes, routeRequests, searchRequests, locationCalls,
        pendingRoutes, pendingSearches, deps, drawn, crashed)
    }

    /** Mounting: first render, map creation, the effect's first run. */
    constructor (routing: Service, search: Service)
      ensures this.routing == routing && this.search == search
      ensures State() == MountedState()
    {
      this.routing, this.search := routing, search;
      hasMap, hasDataSource, subscribed, clicksWired := true, false, false, false;
      currentLocation, destinationLocation, routeInfo := None, None, None;
      searchQuery, searchResults, shapes := DefaultQuery, Some([]), [];
      routeRequests, searchRequests, locationCalls := [], [], [];
      pendingRoutes, pendingSearches := 0, 0;
      deps, drawn, crashed := Deps(0, 0, 0), Deps(0, 0, 0), false;
    }

    method OnRouteNext(response: RouteResponse)
      modifies this
      ensures State() == RouteNext(old(State()), response)
    {
      if response.status == Success && response.route.Some? {
        var r := response.route.value;
        routeInfo := Some(RouteInfo(r.distance, r.duration));
        shapes := shapes + [RouteLine(PathOf(r.points))];
      }
    }

    method CalculateRoute()
      modifies this
      ensures State() == RouteStep(old(State()), routing)
    {
      if currentLocation.None? || destinationLocation.None? || !hasDataSource { return; }
      var start := Position(currentLocation.value);
      var end := Position(destinationLocation.value);
      routeRequests := routeRequests + [(start, end)];
      if routing == Mock {
        OnRouteNext(MockPage.MockRoute(start, end));
      } else {
        pendingRoutes := pendingRoutes + 1;
      }
    }

    method UpdateMap()
      modifies this
      ensures State() == UpdateMapStep(old(State()), routing)
    {
      if !hasMap || !hasDataSource { return; }
      DrawPoints();
      if destinationLocation.Some? {
        CalculateRoute();
      }
      if searchResults.None? {
        crashed := true;
        return;
      }
      AddSearchMarkers();
    }

    /** The `clear` and the two point shapes of `updateMap`. */
    method DrawPoints()
      modifies this
      ensures State() == old(State()).(shapes := PointShapes(currentLocation, destinationLocation))
    {
      shapes := [];
      if currentLocation.Some? {
        shapes := shapes + [Current(Position(currentLocation.value))];
      }
      if destinationLocation.Some? {
        shapes := shapes + [Destination(Position(destinationLocation.value))];
      }
    }

    /** The `forEach` of `updateMap`: one marker per result, appended. */
    method AddSearchMarkers()
      requires searchResults.Some?
      modifies this
      ensures State() == MarkersStep(old(State()))
    {
      var results := searchResults.value;
      ghost var prefix := shapes;
      var i := 0;
      while i < |results|
        invariant 0 <= i <= |results|
        invariant shapes == prefix + SearchMarkers(results[..i])
        invariant State() == old(State()).(shapes := shapes)
      {
        var r := results[i];
        assert SearchMarkers(results[..i + 1]) == SearchMarkers(results[..i]) + [Search(r.id, PositionOf(r.coordinates))];
        shapes := shapes + [Search(r.id, PositionOf(r.coordinates))];
        i := i + 1;
      }
      assert results[..i] == results;
    }

    method Commit()
      modifies this
      ensures State() == CommitStep(old(State()), routing)
    {
      if searchResults.None? {
        crashed := true;
        return;
      }
      if deps == drawn { return; }
      drawn := deps;
      UpdateMap();
    }

    method OnSearchNext(response: SearchResponse)
      modifies this
      ensures State() == SearchNext(old(State()), response)
    {
      if response.status == Success {
        searchResults := response.results;
        deps := deps.(results := deps.results + 1);
      }
    }

    /** `onSearch` of the render whose query is `query`. */
    method RunSearch(query: string)
      modifies this
      ensures State() == SearchStep(old(State()), search, query)
    {
      if IsBlank(query) { return; }
      searchRequests := searchRequests + [query];
      if search == Mock {
        OnSearchNext(MockPage.MockSearch(query));
      } else {
        pendingSearches := pendingSearches + 1;
      }
    }

    /** The 'ready' event, with the two random locations it draws. */
    method OnMapReady(start: Loc, end: Loc)
      requires hasMap && !hasDataSource
      modifies this
      ensures State() == ReadyStep(old(State()), search, start, end)
    {
      CreateDataSource();
      StoreLocations(start, end);
      WireHandlers();
      RunSearch(DefaultQuery);
    }

    /** A fresh, empty data source. */
    method CreateDataSource()
      modifies this
      ensures State() == old(State()).(hasDataSource := true, shapes := [])
    {
      hasDataSource, shapes := true, [];
    }

    /** The click handler and the destination subscription. */
    method WireHandlers()
      modifies this
      ensures State() == old(State()).(clicksWired := true, subscribed := true)
    {
      clicksWired, subscribed := true, true;
    }

    /** The two random locations: kept as state and handed to the location service. */
    method StoreLocations(start: Loc, end: Loc)
      modifies this
      ensures State() == old(State()).(currentLocation := Some(start), destinationLocation := Some(end),
        deps := Deps(old(deps).current + 1, old(deps).destination + 1, old(deps).results),
        locationCalls := old(locationCalls) + [UpdateLocation(start), SetDestination(end)])
    {
      currentLocation, destinationLocation := Some(start), Some(end);
      deps := Deps(deps.current + 1, deps.destination + 1, deps.results);
      locationCalls := locationCalls + [UpdateLocation(start), SetDestination(end)];
    }

    method OnMapClick(position: Option<Pair>)
      requires clicksWired
      modifies this
      ensures State() == ClickStep(old(State()), position)
    {
      if position.Some? {
        locationCalls := locationCalls + [SetDestination(Loc(position.value.1, position.value.0))];
      }
    }

    method SelectSearchResult(r: SearchResult)
      modifies this
      ensures State() == SelectStep(old(State()), r)
    {
      locationCalls := locationCalls + [SetDestination(Loc(r.coordinates.latitude, r.coordinates.longitude))];
    }

    method OnDestinationNotified(d: Option<Loc>)
      requires subscribed
      modifies this
      ensures State() == NotifiedStep(old(State()), d)
    {
      if d.Some? {
        destinationLocation := d;
        deps := deps.(destination := deps.destination + 1);
      }
    }

    /** The input's `onChange`: the query is not an effect dependency. */
    method EditQuery(q: string)
      modifies this
      ensures State() == old(State()).(searchQuery := q)
    {
      searchQuery := q;
    }

    /** The search button: `onSearch` of the latest render. */
    method OnSearchButton()
      modifies this
      ensures State() == SearchStep(old(State()), search, old(searchQuery))
    {
      RunSearch(searchQuery);
    }

    method DeliverRouteAnswer(response: RouteResponse)
      requires pendingRoutes > 0
      modifies this
      ensures State() == RouteAnswerStep(old(State()), response)
    {
      pendingRoutes := pendingRoutes - 1;
      OnRouteNext(response);
    }

    /** The route observable's `error`: only logged. */
    method DeliverRouteError()
      requires pendingRoutes > 0
      modifies this
      ensures State() == old(State()).(pendingRoutes := old(pendingRoutes) - 1)
    {
      pendingRoutes := pendingRoutes - 1;
    }

    method DeliverSearchAnswer(response: SearchResponse)
      requires pendingSearches > 0
      modifies this
      ensures State() == SearchAnswerStep(old(State()), response)
    {
      pendingSearches := pendingSearches - 1;
      OnSearchNext(response);
    }

    method DeliverSearchError()
      requires pendingSearches > 0
      modifies this
      ensures State() == old(State()).(pendingSearches := old(pendingSearches) - 1)
    {
      pendingSearches := pendingSearches - 1;
    }
  }

  // ---- Properties of the view's steps ----

  /** `updateMap` changes nothing without map and data source. With them
      and a remote router it rebuilds the buffer as [current]?,
      [destination]?, then the search markers, and makes exactly one route
      request, for [lng, lat] endpoints, when both points are set. */
  lemma UpdateMapRemote(s: ViewState)
    ensures !Drawable(s) ==> UpdateMapStep(s, Remote) == s && UpdateMapStep(s, Mock) == s
    ensures Drawable(s) && s.searchResults.Some? ==>
      var r := UpdateMapStep(s, Remote);
      var routed := s.currentLocation.Some? && s.destinationLocation.Some?;
      && r.shapes == PointShapes(s.currentLocation, s.destinationLocation) + SearchMarkers(s.searchResults.value)
      && r.crashed == s.crashed
      && r.routeRequests == s.routeRequests
           + (if routed then [(Position(s.currentLocation.value), Position(s.destinationLocation.value))] else [])
      && r.pendingRoutes == s.pendingRoutes + (if routed then 1 else 0)
  {
    if Drawable(s) && s.searchResults.Some? {
      var s1 := s.(shapes := PointShapes(s.currentLocation, s.destinationLocation));
      var s2 := if s.destinationLocation.Some? then RouteStep(s1, Remote) else s1;
      assert s2.shapes == s1.shapes && s2.searchResults == s.searchResults && s2.crashed == s.crashed;
    }
  }

  /** That buffer holds [current]?, [destination]?, then one 'search'
      marker per result, in result order, and nothing else. */
  lemma PointsThenMarkers(current: Option<Loc>, destination: Option<Loc>, results: seq<SearchResult>)
    ensures
      var k := (if current.Some? then 1 else 0) + (if destination.Some? then 1 else 0);
      var r := PointShapes(current, destination) + SearchMarkers(results);
      && |r| == k + |results|
      && (current.Some? ==> r[0] == Current(Position(current.value)))
      && (destination.Some? ==> r[k - 1] == Destination(Position(destination.value)))
      && (forall i :: 0 <= i < |results| ==> r[k + i] == Search(results[i].id, PositionOf(results[i].coordinates)))
      && CountSearch(r) == |results|
  {
    var pre := PointShapes(current, destination);
    CountSearchAppend(pre, SearchMarkers(results));
    SearchMarkersCount(results);
    assert CountSearch(pre) == 0 by {
      var a := if current.Some? then [Current(Position(current.value))] else [];
      var b := if destination.Some? then [Destination(Position(destination.value))] else [];
      CountSearchAppend(a, b);
    }
  }

  /** With the synchronous mock router the route line lands inside
      `updateMap`: after the destination and before the search markers,
      running from the current location to the destination, and the panel
      shows 1500 and 300. */
  lemma MockRouteLandsBeforeMarkers(s: ViewState)
    requires Drawable(s) && s.searchResults.Some?
    requires s.currentLocation.Some? && s.destinationLocation.Some?
    ensures
      var p := Position(s.currentLocation.value);
      var q := Position(s.destinationLocation.value);
      var r := UpdateMapStep(s, Mock);
      && r.shapes == [Current(p), Destination(q), RouteLine([p, q])] + SearchMarkers(s.searchResults.value)
      && r.routeInfo == Some(RouteInfo(1500.0, 300.0))
      && r.routeRequests == s.routeRequests + [(p, q)]
      && r.pendingRoutes == s.pendingRoutes
  {
    MockPage.MockRouteShape(Position(s.currentLocation.value), Position(s.destinationLocation.value));
  }

  /** A route answer never clears the buffer: a success appends one line,
      each point as [longitude, latitude], and sets the panel; anything
      else leaves both as they were. */
  lemma RouteAnswerAppends(s: ViewState, response: RouteResponse)
    requires s.pendingRoutes > 0
    ensures response.status == Success && response.route.Some? ==>
      var r := RouteAnswerStep(s, response);
      var pts := response.route.value.points;
      && |r.shapes| == |s.shapes| + 1
      && r.shapes[..|s.shapes|] == s.shapes
      && r.shapes[|s.shapes|].RouteLine?
      && |r.shapes[|s.shapes|].path| == |pts|
      && (forall i :: 0 <= i < |pts| ==> r.shapes[|s.shapes|].path[i] == (pts[i].longitude, pts[i].latitude))
      && r.routeInfo == Some(RouteInfo(response.route.value.distance, response.route.value.duration))
    ensures !(response.status == Success && response.route.Some?) ==>
      RouteAnswerStep(s, response).shapes == s.shapes && RouteAnswerStep(s, response).routeInfo == s.routeInfo
  {
    if response.status == Success && response.route.Some? {
      var r := RouteAnswerStep(s, response);
      assert r.shapes == s.shapes + [RouteLine(PathOf(response.route.value.points))];
      assert r.shapes[..|s.shapes|] == s.shapes;
    }
  }

  /** A commit runs `updateMap` exactly when a dependency changed since
      its last run, and afterwards the effect is up to date. */
  lemma CommitRunsChangedEffect(s: ViewState, routing: Service)
    requires s.searchResults.Some?
    ensures s.deps == s.drawn ==> CommitStep(s, routing) == s
    ensures s.deps != s.drawn ==>
      CommitStep(s, routing) == UpdateMapStep(s.(drawn := s.deps), routing)
    ensures CommitStep(s, routing).drawn == s.deps && CommitStep(s, routing).deps == s.deps
  {
  }

  /** A new result set re-requests the route: with both points set and the
      map drawn up to date, a successful search answer followed by a commit
      sends one more route request for the same endpoints and draws one
      marker per new result; a failed answer leads to no request. */
  lemma NewResultsRequestRoute(s: ViewState, response: SearchResponse)
    requires Drawable(s) && s.pendingSearches > 0 && s.deps == s.drawn && s.searchResults.Some?
    requires s.currentLocation.Some? && s.destinationLocation.Some?
    ensures response.status == Success && response.results.Some? ==>
      var t := CommitStep(SearchAnswerStep(s, response), Remote);
      && t.routeRequests == s.routeRequests + [(Position(s.currentLocation.value), Position(s.destinationLocation.value))]
      && CountSearch(t.shapes) == |response.results.value|
    ensures response.status != Success ==>
      CommitStep(SearchAnswerStep(s, response), Remote) == SearchAnswerStep(s, response)
      && SearchAnswerStep(s, response).routeRequests == s.routeRequests
  {
    if response.status == Success && response.results.Some? {
      var u := SearchAnswerStep(s, response);
      assert u.deps != u.drawn;
      UpdateMapRemote(u.(drawn := u.deps));
      PointsThenMarkers(s.currentLocation, s.destinationLocation, response.results.value);
    }
  }

  /** `onSearch`: a blank query does nothing; any other query is sent once.
      A remote answer is awaited with the results untouched; the mock
      answers at once with its one result. */
  lemma SearchSendsQuery(s: ViewState, query: string)
    ensures IsBlank(query) ==> SearchStep(s, Remote, query) == s && SearchStep(s, Mock, query) == s
    ensures !IsBlank(query) ==>
      && SearchStep(s, Remote, query).searchRequests == s.searchRequests + [query]
      && SearchStep(s, Remote, query).pendingSearches == s.pendingSearches + 1
      && SearchStep(s, Remote, query).searchResults == s.searchResults
      && SearchStep(s, Remote, query).shapes == s.shapes
      && SearchStep(s, Mock, query).searchRequests == s.searchRequests + [query]
      && SearchStep(s, Mock, query).searchResults == Some([MockPage.MockResult])
      && SearchStep(s, Mock, query).pendingSearches == s.pendingSearches
  {
  }

  /** A success status replaces the results with `res.results` whatever it
      is, also when it is missing, after which the next render throws; any
      other status, and an error, leave them unchanged. */
  lemma SearchAnswerReplaces(s: ViewState, response: SearchResponse, routing: Service)
    requires s.pendingSearches > 0
    ensures response.status == Success ==> SearchAnswerStep(s, response).searchResults == response.results
    ensures response.status == Success && response.results.None? ==>
      CommitStep(SearchAnswerStep(s, response), routing).crashed
    ensures response.status != Success ==>
      SearchAnswerStep(s, response).searchResults == s.searchResults
      && SearchAnswerStep(s, response).deps == s.deps
  {
  }

  /** The destination subscription ignores null and takes anything else as
      the destination; a chosen result and a map click with a position are
      forwarded as {lat, lng} and change nothing else. */
  lemma DestinationForwarding(s: ViewState, d: Loc, r: SearchResult, position: Pair)
    ensures NotifiedStep(s, None) == s
    ensures NotifiedStep(s, Some(d)).destinationLocation == Some(d)
         && NotifiedStep(s, Some(d)).deps.destination == s.deps.destination + 1
    ensures SelectStep(s, r) == s.(locationCalls := s.locationCalls
              + [SetDestination(Loc(r.coordinates.latitude, r.coordinates.longitude))])
    ensures ClickStep(s, Some(position)) == s.(locationCalls := s.locationCalls
              + [SetDestination(Loc(position.1, position.0))])
    ensures ClickStep(s, None) == s
  {
  }

  /** The 'ready' handler always searches the first render's query, whatever
      has been typed since, and stores both random locations. */
  lemma ReadySearchesDefaultQuery(s: ViewState, start: Loc, end: Loc)
    ensures
      var r := ReadyStep(s, Remote, start, end);
      && r.searchRequests == s.searchRequests + [DefaultQuery]
      && r.searchQuery == s.searchQuery
      && r.currentLocation == Some(start) && r.destinationLocation == Some(end)
      && r.locationCalls == s.locationCalls + [UpdateLocation(start), SetDestination(end)]
      && r.shapes == [] && r.deps != s.deps
  {
    DefaultQueryNotBlank();
  }
}
