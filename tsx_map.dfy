/** The TS-React map view (`AzureMap` in AzureMap.tsx). React state and
    refs are fields; the refs (map, data source, initial marker, click
    handler) are kept together in one record.

    Every function the component defines is a closure over the render it
    was created in. `Render` is what such a closure reads of React state;
    refs are always read live. `Commit` is React committing a render: it
    takes that render's snapshot and runs, in declaration order, every
    effect one of whose dependencies changed since it last ran. A request
    made by `handleSearch` or `calculateRoute` keeps the snapshot of the
    render it came from, and its answer is handled with that snapshot, in
    whatever order the environment delivers answers. Both HTTP services
    turn a transport failure into a status 'error' answer, so every
    request ends with an answer. */
module TsxMap {
  import opened Geo
  import opened Text

  /** The fixed "current location" of `getCurrentLocation`, also where the
      initial marker sits. */
  const FixedLocation: Loc := Loc(10.801300, 106.650378)

  /** The refs: map, data source, initial marker, and whether the click
      handler is registered. */
  datatype Refs = Refs(mapInstance: bool, dataSource: bool, initialMarker: bool, clicks: bool)

  /** What a render's closures read of React state. */
  datatype Render = Render(current: Option<Loc>, destination: Option<Loc>, ready: bool, query: string)

  /** Versions of the two object-valued effect dependencies: a setter given
      a new object always changes them. */
  datatype Versions = Versions(current: nat, destination: nat)

  /** The values of all effect dependencies (booleans compare by value). */
  datatype Deps = Deps(sdkLoaded: bool, ready: bool, current: nat, destination: nat)

  /** Requests issued and those still awaiting their answers, each with the
      render whose closure made it. */
  datatype Calls = Calls(routes: seq<RouteRequest>, searches: seq<string>,
                         pendingRoutes: seq<Render>, pendingSearches: seq<Render>)

  datatype ViewState = ViewState(
    refs: Refs,
    sdkLoaded: bool,
    isMapReady: bool,
    currentLocation: Option<Loc>,
    destinationLocation: Option<Loc>,
    routeInfo: Option<RouteInfo>,
    searchQuery: string,
    searchResults: seq<SearchResult>,
    versions: Versions,
    drawn: Deps,                // dependency values at the last commit
    shapes: seq<Shape>,         // the data source, in insertion order
    calls: Calls)

  function DepsOf(s: ViewState): Deps {
    Deps(s.sdkLoaded, s.isMapReady, s.versions.current, s.versions.destination)
  }

  function RenderOf(s: ViewState): Render {
    Render(s.currentLocation, s.destinationLocation, s.isMapReady, s.searchQuery)
  }

  /** After mounting: the SDK effect has found the script tag already there
      (`scriptPresent`, which sets `sdkLoaded`) or has injected it. */
  function MountedState(scriptPresent: bool): ViewState {
    ViewState(Refs(false, false, false, false), scriptPresent, false, None, None, None, DefaultQuery, [],
      Versions(0, 0), Deps(false, false, 0, 0), [], Calls([], [], [], []))
  }

  /** The body `RoutingService.getRoute(end)` posts: end[0] is the latitude. */
  function RoutingBody(end: Pair): RouteRequest {
    RequestTo(Coordinates(end.0, end.1))
  }

  /** What each service answers when the HTTP request fails. */
  const RouteFallback: RouteResponse := RouteResponse("error", None, Some("Failed to calculate route"))
  const SearchFallback: SearchResponse := SearchResponse("error", None, Some("Failed to search location"))

  /** `addMarkers` of render `r`: the destination marker, appended. */
  function AddMarkersStep(s: ViewState, r: Render): ViewState {
    if s.refs.dataSource && r.ready && r.destination.Some?
    then s.(shapes := s.shapes + [Destination(Position(r.destination.value))])
    else s
  }

  /** `updateMap` of render `r`: clear, the initial marker if it exists,
      then `addMarkers`. Its `current` argument only moves the camera and
      its `destination` argument is not read, so neither is a parameter. */
  function UpdateMapStep(s: ViewState, r: Render): ViewState {
    if !(s.refs.mapInstance && s.refs.dataSource && r.ready) then s
    else AddMarkersStep(s.(shapes := if s.refs.initialMarker then [Initial(Position(FixedLocation))] else []), r)
  }

  /** `calculateRoute` of render `r`: only the destination, as [lat, lng],
      is sent. */
  function CalculateRouteStep(s: ViewState, r: Render): ViewState {
    if !(r.current.Some? && r.destination.Some? && s.refs.dataSource && r.ready) then s
    else
      var end := (r.destination.value.lat, r.destination.value.lng);
      s.(calls := s.calls.(routes := s.calls.routes + [RoutingBody(end)],
                           pendingRoutes := s.calls.pendingRoutes + [r]))
  }

  /** `handleSearch` of render `r`: no call for a blank query or an unready map. */
  function HandleSearchStep(s: ViewState, r: Render): ViewState {
    if IsBlank(r.query) || !r.ready then s
    else s.(calls := s.calls.(searches := s.calls.searches + [r.query],
                              pendingSearches := s.calls.pendingSearches + [r]))
  }

  /** `getCurrentLocation` of render `r`. */
  function LocateStep(s: ViewState, r: Render): ViewState {
    UpdateMapStep(s.(currentLocation := Some(FixedLocation),
                     versions := s.versions.(current := s.versions.current + 1)), r)
  }

  /** The map-creation effect [sdkLoaded]. `sdkLoaded` is the same in the
      render and in the live state, a commit never setting it. */
  function SdkEffect(s: ViewState): ViewState {
    if s.sdkLoaded && !s.refs.mapInstance then s.(refs := s.refs.(mapInstance := true)) else s
  }

  /** The setup effect [isMapReady]: a new data source, the click handler,
      and `getCurrentLocation`. */
  function ReadyEffect(s: ViewState, r: Render): ViewState {
    if !(r.ready && s.refs.mapInstance) then s
    else LocateStep(s.(refs := s.refs.(dataSource := true, clicks := true), shapes := []), r)
  }

  /** The initial-marker effect [isMapReady]. */
  function InitialMarkerEffect(s: ViewState, r: Render): ViewState {
    if !(r.ready && s.refs.dataSource) then s
    else s.(refs := s.refs.(initialMarker := true), shapes := s.shapes + [Initial(Position(FixedLocation))])
  }

  /** The search effect [isMapReady, currentLocation]. */
  function SearchEffect(s: ViewState, r: Render): ViewState {
    if r.ready && r.current.Some? then HandleSearchStep(s, r) else s
  }

  /** The route effect [destinationLocation, isMapReady]. */
  function RouteEffect(s: ViewState, r: Render): ViewState {
    if r.destination.Some? && r.ready then CalculateRouteStep(s, r) else s
  }

  /** A commit: the effects whose dependencies changed, in order, all with
      the snapshot of the render being committed. */
  function CommitStep(s: ViewState): ViewState {
    var r := RenderOf(s);
    var was := s.drawn;
    var now := DepsOf(s);
    var s1 := s.(drawn := now);
    var s2 := if was.sdkLoaded != now.sdkLoaded then SdkEffect(s1) else s1;
    var s3 := if was.ready != now.ready then InitialMarkerEffect(ReadyEffect(s2, r), r) else s2;
    var s4 := if was.ready != now.ready || was.current != now.current then SearchEffect(s3, r) else s3;
    if was.ready != now.ready || was.destination != now.destination then RouteEffect(s4, r) else s4
  }

  function Without<T>(xs: seq<T>, k: nat): (ys: seq<T>)
    requires k < |xs|
    ensures |ys| == |xs| - 1
  {
    xs[..k] + xs[k + 1..]
  }

  /** The answer to pending route request `k`: a success appends the line
      and then runs that render's `addMarkers`, never clearing. */
  function RouteAnswerStep(s: ViewState, k: nat, response: RouteResponse): ViewState
    requires k < |s.calls.pendingRoutes|
  {
    var r := s.calls.pendingRoutes[k];
    var s' := s.(calls := s.calls.(pendingRoutes := Without(s.calls.pendingRoutes, k)));
    if response.status == Success && response.route.Some? then
      var d := response.route.value;
      AddMarkersStep(s'.(routeInfo := Some(RouteInfo(d.distance, d.duration)),
                         shapes := s'.shapes + [RouteLine(PathOf(d.points))]), r)
    else s'
  }

  /** The answer to pending search `k`: success with results replaces them
      and runs that render's `updateMap`. */
  function SearchAnswerStep(s: ViewState, k: nat, response: SearchResponse): ViewState
    requires k < |s.calls.pendingSearches|
  {
    var r := s.calls.pendingSearches[k];
    var s' := s.(calls := s.calls.(pendingSearches := Without(s.calls.pendingSearches, k)));
    if response.status == Success && response.results.Some? then
      UpdateMapStep(s'.(searchResults := response.results.value), r)
    else s'
  }

  function SetDestinationStep(s: ViewState, d: Loc): ViewState {
    s.(destinationLocation := Some(d), versions := s.versions.(destination := s.versions.destination + 1))
  }

  /** The map click handler: {lat: position[1], lng: position[0]}. */
  function ClickStep(s: ViewState, position: Option<Pair>): ViewState {
    if position.Some? then SetDestinationStep(s, Loc(position.value.1, position.value.0)) else s
  }

  /** A click on a search result: its coordinates. */
  function SelectStep(s: ViewState, result: SearchResult): ViewState {
    SetDestinationStep(s, LocOf(result.coordinates))
  }

  class MapView {
    var refs: Refs
    var sdkLoaded: bool
    var isMapReady: bool
    var currentLocation: Option<Loc>
    var destinationLocation: Option<Loc>
    var routeInfo: Option<RouteInfo>
    var searchQuery: string
    var searchResults: seq<SearchResult>
    var versions: Versions
    var drawn: Deps
    var shapes: seq<Shape>
    var calls: Calls

    ghost function State(): ViewState
      reads this
    {
      ViewState(refs, sdkLoaded, isMapReady, currentLocation, destinationLocation, routeInfo,
        searchQuery, searchResults, versions, drawn, shapes, calls)
    }

    constructor (scriptPresent: bool)
      ensures State() == MountedState(scriptPresent)
    {
      refs, sdkLoaded, isMapReady := Refs(false, false, false, false), scriptPresent, false;
      currentLocation, destinationLocation, routeInfo := None, None, None;
      searchQuery, searchResults := DefaultQuery, [];
      versions, drawn := Versions(0, 0), Deps(false, false, 0, 0);
      shapes, calls := [], Calls([], [], [], []);
    }

    /** The injected script's `onload`. */
    method OnScriptLoad()
      modifies this
      ensures State() == old(State()).(sdkLoaded := true)
    {
      sdkLoaded := true;
    }

    /** The map's 'ready' event. */
    method OnMapReady()
      requires refs.mapInstance
      modifies this
      ensures State() == old(State()).(isMapReady := true)
    {
      isMapReady := true;
    }

    method AddMarkers(r: Render)
      modifies this
      ensures State() == AddMarkersStep(old(State()), r)
    {
      if !refs.dataSource || !r.ready { return; }
      if r.destination.Some? {
        shapes := shapes + [Destination(Position(r.destination.value))];
      }
    }

    method UpdateMap(r: Render)
      modifies this
      ensures State() == UpdateMapStep(old(State()), r)
    {
      if !refs.mapInstance || !refs.dataSource || !r.ready { return; }
      shapes := [];
      if refs.initialMarker {
        shapes := shapes + [Initial(Position(FixedLocation))];
      }
      AddMarkers(r);
    }

    method CalculateRoute(r: Render)
      modifies this
      ensures State() == CalculateRouteStep(old(State()), r)
    {
      if r.current.None? || r.destination.None? || !refs.dataSource || !r.ready { return; }
      var end := (r.destination.value.lat, r.destination.value.lng);
      calls := calls.(routes := calls.routes + [RoutingBody(end)], pendingRoutes := calls.pendingRoutes + [r]);
    }

    method HandleSearch(r: Render)
      modifies this
      ensures State() == HandleSearchStep(old(State()), r)
    {
      if IsBlank(r.query) || !r.ready { return; }
      calls := calls.(searches := calls.searches + [r.query], pendingSearches := calls.pendingSearches + [r]);
    }

    method GetCurrentLocation(r: Render)
      modifies this
      ensures State() == LocateStep(old(State()), r)
    {
      SetCurrent(FixedLocation);
      UpdateMap(r);
    }

    /** `setCurrentLocation` with a new object. */
    method SetCurrent(l: Loc)
      modifies this
      ensures State() == old(State()).(currentLocation := Some(l), versions := old(versions).(current := old(versions).current + 1))
    {
      currentLocation, versions := Some(l), versions.(current := versions.current + 1);
    }

    method ReadySetup(r: Render)
      modifies this
      ensures State() == ReadyEffect(old(State()), r)
    {
      if !r.ready || !refs.mapInstance { return; }
      refs, shapes := refs.(dataSource := true, clicks := true), [];
      GetCurrentLocation(r);
    }

    method PlaceInitialMarker(r: Render)
      modifies this
      ensures State() == InitialMarkerEffect(old(State()), r)
    {
      if !r.ready || !refs.dataSource { return; }
      refs := refs.(initialMarker := true);
      shapes := shapes + [Initial(Position(FixedLocation))];
    }

    method Commit()
      modifies this
      ensures State() == CommitStep(old(State()))
    {
      var r := Render(currentLocation, destinationLocation, isMapReady, searchQuery);
      var was := drawn;
      var now := Deps(sdkLoaded, isMapReady, versions.current, versions.destination);
      drawn := now;
      if was.sdkLoaded != now.sdkLoaded {
        CreateMap();
      }
      if was.ready != now.ready {
        ReadySetup(r);
        PlaceInitialMarker(r);
      }
      if was.ready != now.ready || was.current != now.current {
        SearchOnLocation(r);
      }
      if was.ready != now.ready || was.destination != now.destination {
        RouteOnDestination(r);
      }
    }

    method CreateMap()
      modifies this
      ensures State() == SdkEffect(old(State()))
    {
      if sdkLoaded && !refs.mapInstance {
        refs := refs.(mapInstance := true);
      }
    }

    method SearchOnLocation(r: Render)
      modifies this
      ensures State() == SearchEffect(old(State()), r)
    {
      if r.ready && r.current.Some? {
        HandleSearch(r);
      }
    }

    method RouteOnDestination(r: Render)
      modifies this
      ensures State() == RouteEffect(old(State()), r)
    {
      if r.destination.Some? && r.ready {
        CalculateRoute(r);
      }
    }

    method DeliverRouteAnswer(k: nat, response: RouteResponse)
      requires k < |calls.pendingRoutes|
      modifies this
      ensures State() == RouteAnswerStep(old(State()), k, response)
    {
      var r := calls.pendingRoutes[k];
      calls := calls.(pendingRoutes := calls.pendingRoutes[..k] + calls.pendingRoutes[k + 1..]);
      if response.status == Success && response.route.Some? {
        var d := response.route.value;
        routeInfo := Some(RouteInfo(d.distance, d.duration));
        shapes := shapes + [RouteLine(PathOf(d.points))];
        AddMarkers(r);
      }
    }

    method DeliverSearchAnswer(k: nat, response: SearchResponse)
      requires k < |calls.pendingSearches|
      modifies this
      ensures State() == SearchAnswerStep(old(State()), k, response)
    {
      var r := calls.pendingSearches[k];
      calls := calls.(pendingSearches := calls.pendingSearches[..k] + calls.pendingSearches[k + 1..]);
      if response.status == Success && response.results.Some? {
        searchResults := response.results.value;
        UpdateMap(r);
      }
    }

    method OnMapClick(position: Option<Pair>)
      requires refs.clicks
      modifies this
      ensures State() == ClickStep(old(State()), position)
    {
      if position.Some? {
        destinationLocation := Some(Loc(position.value.1, position.value.0));
        versions := versions.(destination := versions.destination + 1);
      }
    }

    method SelectResult(result: SearchResult)
      modifies this
      ensures State() == SelectStep(old(State()), result)
    {
      destinationLocation := Some(Loc(result.coordinates.latitude, result.coordinates.longitude));
      versions := versions.(destination := versions.destination + 1);
    }

    method EditQuery(q: string)
      modifies this
      ensures State() == old(State()).(searchQuery := q)
    {
      searchQuery := q;
    }

    /** The search button: `handleSearch` of the latest render. */
    method OnSearchButton()
      modifies this
      ensures State() == HandleSearchStep(old(State()), RenderOf(old(State())))
    {
      HandleSearch(Render(currentLocation, destinationLocation, isMapReady, searchQuery));
    }
  }

  // ---- Properties of the view's steps ----

  predicate CanDraw(s: ViewState, r: Render) { s.refs.mapInstance && s.refs.dataSource && r.ready }

  /** `updateMap` changes nothing unless map, data source and the render's
      readiness all hold. Otherwise the buffer becomes [initial]?,
      [destination]?: the current location it is given plays no part, and
      the search results never become markers. */
  lemma UpdateMapLayout(s: ViewState, r: Render, c: Option<Loc>, results: seq<SearchResult>)
    ensures !CanDraw(s, r) ==> UpdateMapStep(s, r) == s
    ensures CanDraw(s, r) ==>
      UpdateMapStep(s, r).shapes
        == (if s.refs.initialMarker then [Initial(Position(FixedLocation))] else [])
         + (if r.destination.Some? then [Destination(Position(r.destination.value))] else [])
    ensures CanDraw(s, r) ==> CountSearch(UpdateMapStep(s, r).shapes) == 0
    ensures UpdateMapStep(s, r.(current := c)) == UpdateMapStep(s, r)
    ensures UpdateMapStep(s.(searchResults := results), r).shapes == UpdateMapStep(s, r).shapes
    ensures UpdateMapStep(s, r).calls == s.calls && UpdateMapStep(s, r).currentLocation == s.currentLocation
  {
    if CanDraw(s, r) {
      var a := if s.refs.initialMarker then [Initial(Position(FixedLocation))] else [];
      var b := if r.destination.Some? then [Destination(Position(r.destination.value))] else [];
      CountSearchAppend(a, b);
    }
  }

  /** `calculateRoute` makes one request exactly when current, destination,
      data source and readiness all hold, and the request names only the
      destination, latitude first in the array it is built from. */
  lemma RouteRequestCarriesDestination(s: ViewState, r: Render, c: Loc)
    ensures !(r.current.Some? && r.destination.Some? && s.refs.dataSource && r.ready) ==> CalculateRouteStep(s, r) == s
    ensures r.current.Some? && r.destination.Some? && s.refs.dataSource && r.ready ==>
      && CalculateRouteStep(s, r).calls.routes
           == s.calls.routes + [RequestTo(Coordinates(r.destination.value.lat, r.destination.value.lng))]
      && CalculateRouteStep(s, r).calls.pendingRoutes == s.calls.pendingRoutes + [r]
      && CalculateRouteStep(s, r.(current := Some(c))).calls.routes == CalculateRouteStep(s, r).calls.routes
      && CalculateRouteStep(s, r).shapes == s.shapes
  {
  }

  /** A route answer never clears: a success appends the line, each point
      as [longitude, latitude], then the destination marker of the render
      that asked; anything else, also the service's fallback for a failed
      request, leaves buffer and panel alone. */
  lemma RouteAnswerAppends(s: ViewState, k: nat, response: RouteResponse)
    requires k < |s.calls.pendingRoutes|
    ensures response.status == Success && response.route.Some? ==>
      var r := s.calls.pendingRoutes[k];
      var t := RouteAnswerStep(s, k, response);
      && t.shapes == s.shapes + [RouteLine(PathOf(response.route.value.points))]
           + (if s.refs.dataSource && r.ready && r.destination.Some? then [Destination(Position(r.destination.value))] else [])
      && t.routeInfo == Some(RouteInfo(response.route.value.distance, response.route.value.duration))
    ensures !(response.status == Success && response.route.Some?) ==>
      RouteAnswerStep(s, k, response).shapes == s.shapes && RouteAnswerStep(s, k, response).routeInfo == s.routeInfo
    ensures RouteAnswerStep(s, k, RouteFallback).shapes == s.shapes
    ensures |RouteAnswerStep(s, k, response).calls.pendingRoutes| == |s.calls.pendingRoutes| - 1
  {
  }

  /** Two successful answers to requests made with a destination set add
      two lines and two destination markers on top of what was there. */
  lemma {:induction false} RepeatedRoutesAccumulate(s: ViewState, first: RouteResponse, second: RouteResponse)
    requires |s.calls.pendingRoutes| >= 2 && s.refs.dataSource
    requires forall i :: 0 <= i < 2 ==> s.calls.pendingRoutes[i].ready && s.calls.pendingRoutes[i].destination.Some?
    requires first.status == Success && first.route.Some? && second.status == Success && second.route.Some?
    ensures
      var t := RouteAnswerStep(RouteAnswerStep(s, 0, first), 0, second);
      && |t.shapes| == |s.shapes| + 4
      && t.shapes[..|s.shapes|] == s.shapes
      && t.shapes[|s.shapes|] == RouteLine(PathOf(first.route.value.points))
      && t.shapes[|s.shapes| + 2] == RouteLine(PathOf(second.route.value.points))
  {
    var u := RouteAnswerStep(s, 0, first);
    RouteAnswerAppends(s, 0, first);
    assert u.calls.pendingRoutes[0] == s.calls.pendingRoutes[1];
    RouteAnswerAppends(u, 0, second);
    var t := RouteAnswerStep(u, 0, second);
    assert t.shapes[..|s.shapes|] == s.shapes by {
      assert t.shapes[..|u.shapes|] == u.shapes;
      assert u.shapes[..|s.shapes|] == s.shapes;
    }
  }

  /** The destination marker an answer adds is the destination of the
      render that asked, even when another destination has been chosen
      since. */
  lemma StaleDestinationMarker(s: ViewState, k: nat, response: RouteResponse)
    requires k < |s.calls.pendingRoutes| && s.refs.dataSource
    requires s.calls.pendingRoutes[k].ready && s.calls.pendingRoutes[k].destination.Some?
    requires response.status == Success && response.route.Some?
    ensures
      var t := RouteAnswerStep(s, k, response);
      t.shapes[|t.shapes| - 1] == Destination(Position(s.calls.pendingRoutes[k].destination.value))
  {
  }

  /** A commit in which only the destination changed, with the map ready
      and a current location, requests exactly one route, for the new
      destination, and changes nothing else. A commit in which nothing
      changed does nothing. */
  lemma DestinationChangeRequestsRoute(s: ViewState)
    ensures DepsOf(s) == s.drawn ==> CommitStep(s) == s
    ensures
      && s.drawn == DepsOf(s).(destination := s.drawn.destination)
      && s.drawn.destination != s.versions.destination
      && s.isMapReady && s.currentLocation.Some? && s.destinationLocation.Some? && s.refs.dataSource
      ==>
      var d := s.destinationLocation.value;
      && CommitStep(s).calls.routes == s.calls.routes + [RoutingBody((d.lat, d.lng))]
      && CommitStep(s).calls.searches == s.calls.searches
      && CommitStep(s).shapes == s.shapes
      && CommitStep(s).drawn == DepsOf(s)
  {
  }

  /** `handleSearch` makes no call for a blank query or an unready map, and
      otherwise sends the render's query once. */
  lemma SearchSendsQuery(s: ViewState, r: Render)
    ensures IsBlank(r.query) || !r.ready ==> HandleSearchStep(s, r) == s
    ensures !IsBlank(r.query) && r.ready ==>
      && HandleSearchStep(s, r).calls.searches == s.calls.searches + [r.query]
      && HandleSearchStep(s, r).calls.pendingSearches == s.calls.pendingSearches + [r]
      && HandleSearchStep(s, r).searchResults == s.searchResults
      && HandleSearchStep(s, r).shapes == s.shapes
  {
  }

  /** A success carrying results replaces them; anything else leaves them,
      and the buffer, as they were. */
  lemma SearchAnswerReplaces(s: ViewState, k: nat, response: SearchResponse)
    requires k < |s.calls.pendingSearches|
    ensures response.status == Success && response.results.Some? ==>
      SearchAnswerStep(s, k, response).searchResults == response.results.value
    ensures !(response.status == Success && response.results.Some?) ==>
      SearchAnswerStep(s, k, response).searchResults == s.searchResults
      && SearchAnswerStep(s, k, response).shapes == s.shapes
    ensures SearchAnswerStep(s, k, SearchFallback).searchResults == s.searchResults
  {
  }

  /** No step ever puts a 'search' marker into the buffer. */
  lemma NoSearchMarkers(s: ViewState, k: nat, route: RouteResponse, found: SearchResponse, position: Option<Pair>)
    requires CountSearch(s.shapes) == 0
    ensures CountSearch(CommitStep(s).shapes) == 0
    ensures k < |s.calls.pendingRoutes| ==> CountSearch(RouteAnswerStep(s, k, route).shapes) == 0
    ensures k < |s.calls.pendingSearches| ==> CountSearch(SearchAnswerStep(s, k, found).shapes) == 0
    ensures CountSearch(ClickStep(s, position).shapes) == 0
  {
    CommitKeepsNoSearch(s);
    if k < |s.calls.pendingRoutes| && route.status == Success && route.route.Some? {
      var d := route.route.value;
      var s' := s.(calls := s.calls.(pendingRoutes := Without(s.calls.pendingRoutes, k)));
      CountSearchAppend(s.shapes, [RouteLine(PathOf(d.points))]);
      AddMarkersKeepsNoSearch(s'.(routeInfo := Some(RouteInfo(d.distance, d.duration)),
                                  shapes := s'.shapes + [RouteLine(PathOf(d.points))]), s.calls.pendingRoutes[k]);
    }
    if k < |s.calls.pendingSearches| {
      var r := s.calls.pendingSearches[k];
      var s' := s.(calls := s.calls.(pendingSearches := Without(s.calls.pendingSearches, k)));
      if found.status == Success && found.results.Some? {
        UpdateMapKeepsNoSearch(s'.(searchResults := found.results.value), r);
      }
    }
  }

  lemma AddMarkersKeepsNoSearch(s: ViewState, r: Render)
    requires CountSearch(s.shapes) == 0
    ensures CountSearch(AddMarkersStep(s, r).shapes) == 0
  {
    if s.refs.dataSource && r.ready && r.destination.Some? {
      CountSearchAppend(s.shapes, [Destination(Position(r.destination.value))]);
    }
  }

  lemma UpdateMapKeepsNoSearch(s: ViewState, r: Render)
    requires CountSearch(s.shapes) == 0
    ensures CountSearch(UpdateMapStep(s, r).shapes) == 0
  {
    if CanDraw(s, r) {
      AddMarkersKeepsNoSearch(s.(shapes := if s.refs.initialMarker then [Initial(Position(FixedLocation))] else []), r);
    }
  }

  lemma EffectsKeepNoSearch(s: ViewState, r: Render)
    requires CountSearch(s.shapes) == 0
    ensures CountSearch(SdkEffect(s).shapes) == 0
    ensures CountSearch(ReadyEffect(s, r).shapes) == 0
    ensures CountSearch(InitialMarkerEffect(s, r).shapes) == 0
    ensures CountSearch(SearchEffect(s, r).shapes) == 0
    ensures CountSearch(RouteEffect(s, r).shapes) == 0
  {
    if r.ready && s.refs.mapInstance {
      var u := s.(refs := s.refs.(dataSource := true, clicks := true), shapes := []);
      UpdateMapKeepsNoSearch(u.(currentLocation := Some(FixedLocation),
                                versions := u.versions.(current := u.versions.current + 1)), r);
    }
    if r.ready && s.refs.dataSource {
      CountSearchAppend(s.shapes, [Initial(Position(FixedLocation))]);
    }
  }

  lemma CommitKeepsNoSearch(s: ViewState)
    requires CountSearch(s.shapes) == 0
    ensures CountSearch(CommitStep(s).shapes) == 0
  {
    var r := RenderOf(s);
    var was := s.drawn;
    var now := DepsOf(s);
    var s1 := s.(drawn := now);
    EffectsKeepNoSearch(s1, r);
    var s2 := if was.sdkLoaded != now.sdkLoaded then SdkEffect(s1) else s1;
    EffectsKeepNoSearch(s2, r);
    var s3 := if was.ready != now.ready then InitialMarkerEffect(ReadyEffect(s2, r), r) else s2;
    EffectsKeepNoSearch(ReadyEffect(s2, r), r);
    EffectsKeepNoSearch(s3, r);
    var s4 := if was.ready != now.ready || was.current != now.current then SearchEffect(s3, r) else s3;
    EffectsKeepNoSearch(s4, r);
  }

  /** The commit after the map's 'ready' event: a data source holding just
      the initial marker at (10.8013, 106.650378) typed 'current', the
      current location set to that point, the click handler wired, and no
      call yet (the render still has no current location). The following
      commit then searches for the query. */
  lemma ReadyThenSearch(s: ViewState)
    requires s.refs == Refs(true, false, false, false) && s.isMapReady
    requires s.drawn == DepsOf(s).(ready := false)
    requires s.currentLocation.None? && s.destinationLocation.None?
    ensures
      var t := CommitStep(s);
      && t.currentLocation == Some(FixedLocation)
      && t.shapes == [Initial((106.650378, 10.801300))]
      && t.refs == Refs(true, true, true, true)
      && t.calls == s.calls
    ensures !IsBlank(s.searchQuery) ==>
      var u := CommitStep(CommitStep(s));
      && u.calls.searches == s.calls.searches + [s.searchQuery]
      && u.calls.pendingSearches == s.calls.pendingSearches + [Render(Some(FixedLocation), None, true, s.searchQuery)]
      && u.calls.routes == s.calls.routes
      && u.shapes == [Initial((106.650378, 10.801300))]
  {
  }

  /** A map click takes {lat: position[1], lng: position[0]} as the
      destination, a result click the result's coordinates; both are new
      objects, so the route effect will run. */
  lemma DestinationHandlers(s: ViewState, position: Pair, result: SearchResult)
    ensures ClickStep(s, None) == s
    ensures ClickStep(s, Some(position)).destinationLocation == Some(Loc(position.1, position.0))
    ensures SelectStep(s, result).destinationLocation
            == Some(Loc(result.coordinates.latitude, result.coordinates.longitude))
    ensures ClickStep(s, Some(position)).versions.destination != s.versions.destination
    ensures SelectStep(s, result).versions.destination != s.versions.destination
  {
  }

  /** The view once the SDK is loaded, the map ready and the first search
      for the default query sent from the fixed location. */
  function SearchingState(): ViewState {
    ViewState(Refs(true, true, true, true), true, true, Some(FixedLocation), None, None, DefaultQuery, [],
      Versions(1, 0), Deps(true, true, 1, 0), [Initial(Position(FixedLocation))],
      Calls([], [DefaultQuery], [], [Render(Some(FixedLocation), None, true, DefaultQuery)]))
  }

  /** Mounting with the SDK present, the 'ready' event, and the commits
      they cause. */
  method LoadToSearch() returns (v: MapView)
    ensures fresh(v) && v.State() == SearchingState()
  {
    v := new MapView(true);
    v.Commit();
    v.OnMapReady();
    v.Commit();
    DefaultQueryNotBlank();
    v.Commit();
  }

  /** From mounting with the SDK already loaded to the first route drawn
      after a click at `at`: one search for the default query, one route
      request naming only the clicked point, and a buffer never cleared
      by the route: the initial marker, the line, the destination. */
  method ClickToRoute(at: Pair, answer: RouteDetails)
    returns (shapes: seq<Shape>, routes: seq<RouteRequest>, searches: seq<string>)
    ensures shapes == [Initial(Position(FixedLocation)), RouteLine(PathOf(answer.points)), Destination(at)]
    ensures routes == [RequestTo(Coordinates(at.1, at.0))]
    ensures searches == [DefaultQuery]
  {
    var v := LoadToSearch();
    v.OnMapClick(Some(at));
    v.Commit();
    v.DeliverRouteAnswer(0, RouteResponse(Success, Some(answer), None));
    shapes, routes, searches := v.shapes, v.calls.routes, v.calls.searches;
  }
}
