/** The two FastAPI handlers of the Python backend, POST /route and
    POST /search: which call they make to the Azure Maps client, and how
    that client's result or exception becomes the response. Neither
    handler keeps state. */
module Api {
  import opened Geo
  import opened AzureBackend

  /** Every route starts here and every search is centred here, (lat, lng). */
  const FixedStart: Pair := (10.801300, 106.650378)
  /** The end used when the requested destination has a zero coordinate. */
  const FallbackEnd: Pair := (10.847037, 106.692735)
  const SearchRadius: nat := 10000
  const InternalError: string := "Internal server error"

  /** The arguments the route handler passes to `get_route`. */
  datatype RouteCall = RouteCall(start: Pair, end: Pair, avoid: Option<seq<string>>)
  /** The arguments the search handler passes to `search_places`. */
  datatype SearchCall = SearchCall(query: string, latitude: real, longitude: real, radius: nat)

  /** What a handler did: the client call it made, if it got that far,
      and what it answered. */
  datatype Handled<C, R> = Handled(call: Option<C>, response: R)

  /** The route's end: the destination when both its coordinates are
      non-zero, else the fallback. */
  function EndOf(destination: Coordinates): (end: Pair)
    ensures end.0 != 0.0 && end.1 != 0.0
    ensures end == (destination.latitude, destination.longitude) <==> destination.latitude != 0.0 && destination.longitude != 0.0
    ensures end == (destination.latitude, destination.longitude) || end == FallbackEnd
  {
    if destination.latitude != 0.0 && destination.longitude != 0.0
    then (destination.latitude, destination.longitude)
    else FallbackEnd
  }

  /** POST /route. Reading the coordinates of a missing destination raises
      AttributeError before any call, which the catch-all turns into the
      generic error. */
  function PostRoute(request: RouteRequest, answer: Fetch<RoutePayload>): (h: Handled<RouteCall, RouteResponse>)
    ensures h.call.Some? <==> request.destination.Some?
    ensures h.call.Some? ==> h.call.value.start == FixedStart && h.call.value.end.0 != 0.0 && h.call.value.end.1 != 0.0
    ensures h.response.status == Success || h.response.status == "error"
    ensures h.response.status == Success <==> h.response.route.Some?
    ensures h.response.status == Success <==> h.response.error.None?
    ensures h.response.error.Some? ==> |h.response.error.value| > 0
  {
    if request.destination.None? then Handled(None, RouteResponse("error", None, Some(InternalError)))
    else
      var call := RouteCall(FixedStart, EndOf(request.destination.value), request.avoid);
      match GetRoute(answer)
      case Ok(d) => Handled(Some(call), RouteResponse(Success, Some(d), None))
      case Raised(e) =>
        Handled(Some(call), RouteResponse("error", None, Some(if e.HttpExc? then e.detail else InternalError)))
  }

  /** POST /search, whose body holds an optional query. KeyError and
      ValueError become HTTP 400s; other exceptions propagate. */
  function PostSearch(query: Option<string>, answer: Fetch<SearchPayload>)
    : (h: Handled<SearchCall, Outcome<SearchResponse>>)
    ensures h.call.Some? && h.call.value.radius == SearchRadius
    ensures h.call.value.query == "" <==> query == Some("")
    ensures h.response.Ok? ==> h.response.value.status == Success && h.response.value.results.Some? && h.response.value.error.None?
    ensures h.response.Raised? ==> h.response.exc.HttpExc? && h.response.exc.status in {400, 500}
  {
    var call := SearchCall(if query.None? then DefaultQuery else query.value, FixedStart.0, FixedStart.1, SearchRadius);
    match SearchPlaces(answer)
    case Ok(results) => Handled(Some(call), Ok(SearchResponse(Success, Some(results), None)))
    case Raised(KeyErr) => Handled(Some(call), Raised(HttpExc(400, "Invalid response from Azure Maps")))
    case Raised(ValueErr) => Handled(Some(call), Raised(HttpExc(400, "Invalid coordinates")))
    case Raised(e) => Handled(Some(call), Raised(e))
  }

  /** The route call always starts at the fixed point, whatever the
      request; it ends at the destination exactly when both of its
      coordinates are non-zero; `avoid` is passed on as given. */
  lemma RouteEndpoints(request: RouteRequest, answer: Fetch<RoutePayload>, other: Fetch<RoutePayload>)
    ensures PostRoute(request, answer).call.Some? <==> request.destination.Some?
    ensures PostRoute(request, answer).call == PostRoute(request, other).call
    ensures request.destination.Some? ==>
      var d := request.destination.value;
      var call := PostRoute(request, answer).call.value;
      && call.start == FixedStart
      && call.avoid == request.avoid
      && (call.end == (d.latitude, d.longitude) <== d.latitude != 0.0 && d.longitude != 0.0)
      && (call.end == FallbackEnd <== d.latitude == 0.0 || d.longitude == 0.0)
  {
  }

  /** The route response: "success" with the route exactly when the client
      returns one; a missing destination gives the generic error whatever
      the client would have answered; an HTTP exception's detail is the
      error text, and anything else is the generic error. */
  lemma RouteResponses(request: RouteRequest, answer: Fetch<RoutePayload>)
    ensures var r := PostRoute(request, answer).response;
      r.status == Success <==> request.destination.Some? && GetRoute(answer).Ok?
    ensures request.destination.None? ==>
      PostRoute(request, answer).response == RouteResponse("error", None, Some(InternalError))
    ensures request.destination.Some? && GetRoute(answer).Ok? ==>
      PostRoute(request, answer).response == RouteResponse(Success, Some(GetRoute(answer).value), None)
    ensures request.destination.Some? && GetRoute(answer).Raised? ==>
      var e := GetRoute(answer).exc;
      PostRoute(request, answer).response
        == RouteResponse("error", None, Some(if e.HttpExc? then e.detail else InternalError))
  {
  }

  /** The error texts a client sees from POST /route with a destination:
      the transport failure, the Azure error message, "No route found",
      and the generic error for a payload that does not parse. */
  lemma RouteErrorTexts(request: RouteRequest, message: string, data: RoutePayload)
    requires request.destination.Some?
    ensures PostRoute(request, TransportFailed(message)).response.error
            == Some("Failed to get route from Azure Maps: " + message)
    ensures data.error == Some(ErrorBody(Some(message))) ==>
      PostRoute(request, Answered(data)).response.error == Some("Azure Maps API error: " + message)
    ensures data.error == Some(ErrorBody(None)) ==>
      PostRoute(request, Answered(data)).response.error == Some(InternalError)
    ensures data.error.None? && NoRoute(data) ==>
      PostRoute(request, Answered(data)).response.error == Some("No route found")
    ensures data.error.None? && !NoRoute(data) && ParseRoute(data).Raised? ==>
      PostRoute(request, Answered(data)).response.error == Some(InternalError)
  {
    GetRouteOutcomes(message, data, data.routes);
    NoRouteFound(data);
  }

  /** What the frontends post, a destination with an empty `avoid`, makes
      a route request without an 'avoid' parameter. */
  lemma FrontendRouteHasNoAvoid(destination: Coordinates, answer: Fetch<RoutePayload>, key: string, fmt: real -> string)
    ensures
      var call := PostRoute(RequestTo(destination), answer).call;
      && call.Some?
      && "avoid" !in RouteParams(key, fmt, call.value.start, call.value.end, call.value.avoid)
  {
  }

  /** A missing query becomes the default; any query given, the empty one
      included, is passed on unchanged; the search is always around the
      fixed start within 10000 m. */
  lemma SearchCallFixed(query: Option<string>, answer: Fetch<SearchPayload>)
    ensures PostSearch(query, answer).call.Some?
    ensures var call := PostSearch(query, answer).call.value;
      && call.query == (if query.None? then DefaultQuery else query.value)
      && call.latitude == 10.801300 && call.longitude == 106.650378 && call.radius == 10000
    ensures PostSearch(Some(""), answer).call.value.query == ""
  {
  }

  /** The search response is "success" with the client's results exactly
      when the client returns them; every failure of the handler is an
      HTTP exception: a request that cannot be made is a 500, a payload
      that does not parse is a 400. */
  lemma SearchOutcomes(query: Option<string>, answer: Fetch<SearchPayload>)
    ensures PostSearch(query, answer).response.Ok? <==> SearchPlaces(answer).Ok?
    ensures SearchPlaces(answer).Ok? ==>
      PostSearch(query, answer).response == Ok(SearchResponse(Success, Some(SearchPlaces(answer).value), None))
    ensures PostSearch(query, answer).response.Raised? ==> PostSearch(query, answer).response.exc.HttpExc?
    ensures answer.TransportFailed? ==>
      PostSearch(query, answer).response == Raised(HttpExc(500, "Azure Maps error: " + answer.message))
    ensures answer.Answered? && PostSearch(query, answer).response.Raised? ==>
      PostSearch(query, answer).response.exc.status == 400
  {
    SearchResultsContents(answer);
  }
}
