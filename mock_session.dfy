/** Concrete runs of the plain-React view as MapPage.js mounts it: mock
    routing, mock search, and a location service that only logs and never
    calls its subscriber back. The two random locations are arbitrary
    inputs. */
module MockSession {
  import opened Geo
  import opened ReactMap
  import MockPage

  /** The buffer the first screen shows for random locations `start`, `end`. */
  function FirstScreen(start: Loc, end: Loc): seq<Shape> {
    [Current(Position(start)), Destination(Position(end)),
     RouteLine([Position(start), Position(end)]), Search(Some("1"), (105.85, 21.03))]
  }

  /** The 'ready' event and the commit after it: one route call between the
      two random points, one search for the default query, and the buffer
      [current, destination, route, the mock's one result]. */
  method MountAndLoad(start: Loc, end: Loc) returns (v: MapView)
    ensures fresh(v) && v.routing == Mock && v.search == Mock
    ensures v.shapes == FirstScreen(start, end)
    ensures v.routeInfo == Some(RouteInfo(1500.0, 300.0))
    ensures v.routeRequests == [(Position(start), Position(end))]
    ensures v.searchRequests == [DefaultQuery]
    ensures v.locationCalls == [UpdateLocation(start), SetDestination(end)]
    ensures v.currentLocation == Some(start) && v.destinationLocation == Some(end)
    ensures v.searchResults == Some([MockPage.MockResult]) && v.searchQuery == DefaultQuery
    ensures v.deps == v.drawn && v.clicksWired && v.subscribed && Drawable(v.State()) && !v.crashed
  {
    v := new MapView(Mock, Mock);
    DefaultQueryNotBlank();
    v.OnMapReady(start, end);
    ghost var s := v.State();
    assert s.deps != s.drawn;
    MockRouteLandsBeforeMarkers(s.(drawn := s.deps));
    v.Commit();
  }

  /** A click on the map only reaches the logging mock: the destination on
      screen and the buffer stay as they were. */
  method ClickIsOnlyLogged(start: Loc, end: Loc, at: Pair)
    returns (shapes: seq<Shape>, destination: Option<Loc>, calls: seq<LocationCall>)
    ensures shapes == FirstScreen(start, end) && destination == Some(end)
    ensures calls == [UpdateLocation(start), SetDestination(end), SetDestination(Loc(at.1, at.0))]
  {
    var v := MountAndLoad(start, end);
    v.OnMapClick(Some(at));
    v.Commit();
    shapes, destination, calls := v.shapes, v.destinationLocation, v.locationCalls;
  }

  /** Searching again gives a new results array, so the effect reruns and
      the route is requested a second time, for the same endpoints; the
      buffer is rebuilt to the same shapes. */
  method SearchAgain(start: Loc, end: Loc) returns (shapes: seq<Shape>, routes: seq<(Pair, Pair)>, searches: seq<string>)
    ensures shapes == FirstScreen(start, end)
    ensures routes == [(Position(start), Position(end)), (Position(start), Position(end))]
    ensures searches == [DefaultQuery, DefaultQuery]
  {
    var v := MountAndLoad(start, end);
    v.OnSearchButton();
    ghost var s := v.State();
    assert s.deps != s.drawn;
    MockRouteLandsBeforeMarkers(s.(drawn := s.deps));
    v.Commit();
    shapes, routes, searches := v.shapes, v.routeRequests, v.searchRequests;
  }

  /** A whitespace-only query is not sent, and nothing is redrawn. */
  method BlankQueryIgnored(start: Loc, end: Loc) returns (shapes: seq<Shape>, routes: seq<(Pair, Pair)>, searches: seq<string>)
    ensures shapes == FirstScreen(start, end)
    ensures routes == [(Position(start), Position(end))] && searches == [DefaultQuery]
  {
    var v := MountAndLoad(start, end);
    v.EditQuery(" \t ");
    assert Text.IsBlank(" \t ") by {
      assert Text.TrimStart(" \t ") == Text.TrimStart("\t ") == Text.TrimStart(" ") == "";
    }
    v.OnSearchButton();
    v.Commit();
    shapes, routes, searches := v.shapes, v.routeRequests, v.searchRequests;
  }
}
