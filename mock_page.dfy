/** The fixed collaborators MapPage.js hands to the plain-React map view:
    a routing service and a search service that answer at once, exactly
    once, with constant records, and a location service that only logs. */
module MockPage {
  import opened Geo

  const MockDistance: real := 1500.0
  const MockDuration: real := 300.0

  /** The mock `getRoute(start, end)` answer: success, 1500 m, 300 s, and
      the two points {longitude: start[0], latitude: start[1]} and
      {longitude: end[0], latitude: end[1]}. */
  function MockRoute(start: Pair, end: Pair): RouteResponse {
    RouteResponse(Success,
      Some(RouteDetails(MockDistance, MockDuration,
        [Coordinates(start.1, start.0), Coordinates(end.1, end.0)], [])),
      None)
  }

  const MockResult: SearchResult := SearchResult(
    Some("1"), "Vườn Lài - Hà Nội", Some("Số 1, Vườn Lài, Hà Nội"), Coordinates(21.03, 105.85))

  /** The mock search answer, the same for every request. */
  function MockSearch(query: string): SearchResponse {
    SearchResponse(Success, Some([MockResult]), None)
  }

  /** The mock route is always a success with a route of exactly two
      points, and a view that draws it as [longitude, latitude] draws
      exactly the two arrays it was called with. */
  lemma MockRouteShape(start: Pair, end: Pair)
    ensures MockRoute(start, end).status == Success && MockRoute(start, end).route.Some?
    ensures MockRoute(start, end).route.value.distance == 1500.0
    ensures MockRoute(start, end).route.value.duration == 300.0
    ensures |MockRoute(start, end).route.value.points| == 2
    ensures PathOf(MockRoute(start, end).route.value.points) == [start, end]
  {
  }

  /** The mock search ignores its request and yields one result, id "1",
      at latitude 21.03, longitude 105.85. */
  lemma MockSearchShape(q1: string, q2: string)
    ensures MockSearch(q1) == MockSearch(q2)
    ensures MockSearch(q1).status == Success && MockSearch(q1).results == Some([MockResult])
    ensures MockResult.id == Some("1") && MockResult.coordinates == Coordinates(21.03, 105.85)
  {
  }
}
