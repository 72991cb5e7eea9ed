/** Values shared by the three map views and the backend: a location in its
    three spellings, the records exchanged with the backend's /route and
    /search endpoints, and the shapes a view puts into its map data source.
    Coordinates are only copied, swapped and compared with zero anywhere in
    the system, so they are `real`s and no arithmetic is done on them. */
module Geo {
  import Text

  datatype Option<T> = None | Some(value: T)

  /** A frontend `Location`: {lat, lng}. */
  datatype Loc = Loc(lat: real, lng: real)

  /** A wire `Coordinates` record: {latitude, longitude}. */
  datatype Coordinates = Coordinates(latitude: real, longitude: real)

  /** A two-number array. Which number is the latitude depends on the call
      site: map positions are [lng, lat], route endpoints often [lat, lng]. */
  type Pair = (real, real)

  /** The map position [lng, lat] of a frontend location. */
  function Position(l: Loc): Pair { (l.lng, l.lat) }

  /** The map position [longitude, latitude] of a wire coordinate. */
  function PositionOf(c: Coordinates): Pair { (c.longitude, c.latitude) }

  /** The frontend location {lat: latitude, lng: longitude} of a wire coordinate. */
  function LocOf(c: Coordinates): Loc { Loc(c.latitude, c.longitude) }

  /** One entry of a map data source. The `type` property of each source
      shape ('current', 'accuracy', 'destination', 'search') is the
      constructor; the TSX view's initial marker, typed 'current' too but
      fixed in place, is `Initial`. The accuracy circle's 64-gon is kept
      only as its centre. */
  datatype Shape =
    | Current(at: Pair)
    | Accuracy(center: Pair)
    | Destination(at: Pair)
    | Search(id: Option<string>, at: Pair)
    | RouteLine(path: seq<Pair>)
    | Initial(at: Pair)

  /** A search hit as the frontends read it. The backend never sends an
      `id`, so results that come from it carry `None`. */
  datatype SearchResult = SearchResult(
    id: Option<string>, name: string, address: Option<string>, coordinates: Coordinates)

  /** Route detail as sent by the backend: only latitude and longitude of
      each point survive, so a point is a `Coordinates`. */
  datatype RouteDetails = RouteDetails(
    distance: real, duration: real, points: seq<Coordinates>, waypoints: seq<Coordinates>)

  datatype RouteResponse = RouteResponse(status: string, route: Option<RouteDetails>, error: Option<string>)

  datatype SearchResponse = SearchResponse(status: string, results: Option<seq<SearchResult>>, error: Option<string>)

  /** The body of a POST /route as the backend reads it: the destination may
      be absent (it defaults to None), `avoid` defaults to the empty list. */
  datatype RouteRequest = RouteRequest(destination: Option<Coordinates>, avoid: Option<seq<string>>)

  /** The body the frontend routing services post: only a destination, and
      `avoid` left to the backend's default. */
  function RequestTo(destination: Coordinates): RouteRequest {
    RouteRequest(Some(destination), Some([]))
  }

  /** The distance and duration panel of a view. */
  datatype RouteInfo = RouteInfo(distance: real, duration: real)

  const Success: string := "success"

  /** The search every view starts with, and the backend's default query. */
  const DefaultQuery: string := "Vườn lài"

  lemma DefaultQueryNotBlank()
    ensures !Text.IsBlank(DefaultQuery)
  {
    assert DefaultQuery[0] == 'V' && DefaultQuery[|DefaultQuery| - 1] == 'i';
    assert Text.TrimStart(DefaultQuery) == DefaultQuery;
  }

  /** The route line of a response: every point as [longitude, latitude], in
      response order (`points.map(p => [p.longitude, p.latitude])`). */
  function PathOf(points: seq<Coordinates>): (path: seq<Pair>)
    ensures |path| == |points|
    ensures forall i :: 0 <= i < |points| ==> path[i] == (points[i].longitude, points[i].latitude)
  {
    if points == [] then [] else [PositionOf(points[0])] + PathOf(points[1..])
  }

  /** Reading a route line back into wire coordinates. */
  function CoordinatesOf(path: seq<Pair>): seq<Coordinates> {
    if path == [] then [] else [Coordinates(path[0].1, path[0].0)] + CoordinatesOf(path[1..])
  }

  /** The route line loses nothing: the swap to [lng, lat] is undone exactly. */
  lemma {:induction false} PathRoundTrip(points: seq<Coordinates>)
    ensures CoordinatesOf(PathOf(points)) == points
  {
    if points != [] {
      PathRoundTrip(points[1..]);
      assert PathOf(points)[1..] == PathOf(points[1..]);
    }
  }

  /** One 'search' marker per result, in result order, carrying the result's
      id and its position [longitude, latitude]. */
  function SearchMarkers(results: seq<SearchResult>): (markers: seq<Shape>)
    ensures |markers| == |results|
    ensures forall i :: 0 <= i < |results| ==>
      markers[i] == Search(results[i].id, PositionOf(results[i].coordinates))
  {
    if results == [] then [] else [Search(results[0].id, PositionOf(results[0].coordinates))] + SearchMarkers(results[1..])
  }

  /** How many 'search' markers a data source holds. */
  function CountSearch(shapes: seq<Shape>): nat {
    if shapes == [] then 0 else (if shapes[0].Search? then 1 else 0) + CountSearch(shapes[1..])
  }

  lemma {:induction false} CountSearchAppend(a: seq<Shape>, b: seq<Shape>)
    ensures CountSearch(a + b) == CountSearch(a) + CountSearch(b)
  {
    if a != [] {
      assert (a + b)[1..] == a[1..] + b;
      CountSearchAppend(a[1..], b);
    } else {
      assert a + b == b;
    }
  }

  lemma {:induction false} SearchMarkersCount(results: seq<SearchResult>)
    ensures CountSearch(SearchMarkers(results)) == |results|
  {
    if results != [] {
      assert SearchMarkers(results)[1..] == SearchMarkers(results[1..]);
      SearchMarkersCount(results[1..]);
    }
  }
}
