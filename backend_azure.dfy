/** The Python backend's Azure Maps client: the route request's query
    parameters, the parser that turns a route payload into `RouteDetails`,
    and the loop that turns a search payload into results.

    A JSON payload is a record whose optional fields say whether a key is
    present. A number field can hold something pydantic cannot read as a
    float, which makes validation raise. The HTTP exchange itself is an
    input: either the payload that came back or the text of the
    `RequestException` raised while fetching it. */
module AzureBackend {
  import opened Geo
  import opened Text

  /** The exceptions that can leave the client. `KeyErr`, `IndexErr` and
      `ValueErr` are Python's KeyError, IndexError and the ValueError that
      pydantic's validation error derives from. `AttributeErr` is what
      reading a field of a missing (None) object raises. */
  datatype Exc = HttpExc(status: nat, detail: string) | KeyErr | IndexErr | ValueErr | AttributeErr

  /** A value is returned or an exception propagates. */
  datatype Outcome<T> = Ok(value: T) | Raised(exc: Exc)

  /** The answer to one HTTP request: the decoded payload, or the message of
      the `RequestException` that `get` or `raise_for_status` raised. */
  datatype Fetch<T> = Answered(payload: T) | TransportFailed(message: string)

  /** A JSON value in a float field: a number pydantic accepts, or anything else. */
  datatype JsonNumber = Num(value: real) | NotANumber

  datatype PointObj = PointObj(latitude: Option<JsonNumber>, longitude: Option<JsonNumber>)
  datatype Maneuver = Maneuver(point: Option<PointObj>)
  datatype Guidance = Guidance(instructions: Option<seq<Maneuver>>)
  datatype Leg = Leg(points: Option<seq<PointObj>>, guidance: Option<Guidance>)
  datatype Summary = Summary(lengthInMeters: Option<JsonNumber>, travelTimeInSeconds: Option<JsonNumber>)

  /** One element of 'routes': JSON null, or an object. `otherKeys` says
      whether it has keys besides 'legs' and 'summary', which only matters
      for whether the object is empty. */
  datatype RouteObj = NullRoute | Route(legs: Option<seq<Leg>>, summary: Option<Summary>, otherKeys: bool)

  datatype ErrorBody = ErrorBody(message: Option<string>)
  datatype RoutePayload = RoutePayload(error: Option<ErrorBody>, routes: Option<seq<RouteObj>>)

  datatype LatLon = LatLon(lat: Option<JsonNumber>, lon: Option<JsonNumber>)
  datatype Poi = Poi(name: Option<string>)
  datatype Address = Address(freeformAddress: Option<string>)
  datatype SearchItem = SearchItem(position: Option<LatLon>, poi: Option<Poi>, address: Option<Address>)
  datatype SearchPayload = SearchPayload(results: Option<seq<SearchItem>>)

  /** The default for a missing place name or address. */
  const Unknown: string := "(không rõ)"

  // ---- Request parameters ----

  /** The route request's parameters, the session's subscription key
      included. 'avoid' is sent only for a non-empty list, joined by ','. */
  function RouteParams(key: string, fmt: real -> string, start: Pair, end: Pair, avoid: Option<seq<string>>)
    : (params: map<string, string>)
    ensures "avoid" in params <==> avoid.Some? && |avoid.value| > 0
    ensures params.Keys - {"avoid"}
      == {"subscription-key", "api-version", "query", "routeType", "traffic",
          "instructionsType", "language", "computeTravelTimeFor"}
  {
    var base := map["subscription-key" := key, "api-version" := "1.0", "query" := RouteQuery(fmt, start, end),
                    "routeType" := "fastest", "traffic" := "true", "instructionsType" := "text",
                    "language" := "vi-VN", "computeTravelTimeFor" := "all"];
    if avoid.Some? && |avoid.value| > 0 then base["avoid" := Join(avoid.value, ',')] else base
  }

  /** The query names start then end, each as the pair given, and the
      'avoid' list can be read back from its parameter. */
  lemma RouteParamsReadBack(key: string, fmt: real -> string, start: Pair, end: Pair, avoid: seq<string>)
    requires NoSeparator(fmt(start.0)) && NoSeparator(fmt(start.1))
    requires NoSeparator(fmt(end.0)) && NoSeparator(fmt(end.1))
    requires |avoid| > 0 && forall i :: 0 <= i < |avoid| ==> ',' !in avoid[i]
    ensures
      var params := RouteParams(key, fmt, start, end, Some(avoid));
      && Split(params["query"], ':') == [fmt(start.0) + "," + fmt(start.1), fmt(end.0) + "," + fmt(end.1)]
      && Split(Split(params["query"], ':')[0], ',') == [fmt(start.0), fmt(start.1)]
      && Split(Split(params["query"], ':')[1], ',') == [fmt(end.0), fmt(end.1)]
      && Split(params["avoid"], ',') == avoid
  {
    RouteQueryReadsBack(fmt, start, end);
    SplitJoin(avoid, ',');
  }

  // ---- Building lists, first failure wins ----

  /** Converting every element in order, as the `for`/`append` loops do:
      the first element whose conversion raises ends the loop with that
      exception. */
  function Collect<A, B>(f: A -> Outcome<B>, xs: seq<A>): (r: Outcome<seq<B>>)
    ensures r.Ok? ==> |r.value| == |xs|
    ensures r.Raised? ==> exists i :: 0 <= i < |xs| && f(xs[i]) == Raised(r.exc)
    decreases |xs|
  {
    if |xs| == 0 then Ok([])
    else
      match Collect(f, xs[..|xs| - 1])
      case Raised(e) => Raised(e)
      case Ok(ys) =>
        match f(xs[|xs| - 1])
        case Raised(e) => Raised(e)
        case Ok(y) => Ok(ys + [y])
  }

  /** The list is built exactly when every element converts, and then it
      holds their conversions in order. */
  lemma {:induction false} CollectOk<A, B>(f: A -> Outcome<B>, xs: seq<A>)
    ensures Collect(f, xs).Ok? <==> forall i :: 0 <= i < |xs| ==> f(xs[i]).Ok?
    ensures Collect(f, xs).Ok? ==> forall i :: 0 <= i < |xs| ==> Collect(f, xs).value[i] == f(xs[i]).value
    decreases |xs|
  {
    if |xs| > 0 {
      var init := xs[..|xs| - 1];
      CollectOk(f, init);
      assert forall i :: 0 <= i < |init| ==> init[i] == xs[i];
    }
  }

  /** A failure is the failure of the first element that does not convert. */
  lemma {:induction false} CollectFirstError<A, B>(f: A -> Outcome<B>, xs: seq<A>) returns (i: nat)
    requires Collect(f, xs).Raised?
    ensures i < |xs| && f(xs[i]) == Raised(Collect(f, xs).exc)
    ensures forall j :: 0 <= j < i ==> f(xs[j]).Ok?
    decreases |xs|
  {
    var init := xs[..|xs| - 1];
    if Collect(f, init).Raised? {
      i := CollectFirstError(f, init);
      assert forall j :: 0 <= j <= i ==> init[j] == xs[j];
    } else {
      i := |xs| - 1;
      CollectOk(f, init);
      assert forall j :: 0 <= j < i ==> init[j] == xs[j];
    }
  }

  lemma {:induction false} CollectPrefixRaised<A, B>(f: A -> Outcome<B>, xs: seq<A>, n: nat)
    requires n <= |xs| && Collect(f, xs[..n]).Raised?
    ensures Collect(f, xs) == Collect(f, xs[..n])
    decreases |xs| - n
  {
    if n < |xs| {
      assert xs[..n + 1][..n] == xs[..n];
      CollectPrefixRaised(f, xs, n + 1);
    } else {
      assert xs[..n] == xs;
    }
  }

  /** One `for`/`append` loop. */
  method CollectLoop<A, B>(f: A -> Outcome<B>, xs: seq<A>) returns (r: Outcome<seq<B>>)
    ensures r == Collect(f, xs)
  {
    var acc: seq<B> := [];
    for i := 0 to |xs|
      invariant Collect(f, xs[..i]) == Ok(acc)
    {
      assert xs[..i + 1][..i] == xs[..i];
      var y := f(xs[i]);
      if y.Raised? {
        CollectPrefixRaised(f, xs, i + 1);
        return Raised(y.exc);
      }
      acc := acc + [y.value];
    }
    assert xs[..|xs|] == xs;
    return Ok(acc);
  }

  // ---- The route payload ----

  /** A key that is there and holds a number. */
  predicate IsNumber(v: Option<JsonNumber>) {
    v.Some? && v.value.Num?
  }

  /** A point object `RoutePoint` accepts. */
  predicate WellFormedPoint(p: PointObj) {
    IsNumber(p.latitude) && IsNumber(p.longitude)
  }

  /** A maneuver with a well-formed 'point'. */
  predicate WellFormedManeuver(m: Maneuver) {
    m.point.Some? && WellFormedPoint(m.point.value)
  }

  /** A `RoutePoint` from a point object: the two keys are read, then validated. */
  function PointOf(p: PointObj): (r: Outcome<Coordinates>)
    ensures r.Ok? <==> WellFormedPoint(p)
    ensures r.Ok? ==> p == PointObj(Some(Num(r.value.latitude)), Some(Num(r.value.longitude)))
    ensures p.latitude.Some? && p.latitude.value.Num? && p.longitude.Some? && p.longitude.value.Num? ==> r.Ok?
    ensures r.Raised? ==> (r.exc == KeyErr <==> p.latitude.None? || p.longitude.None?)
    ensures r.Raised? ==> r.exc in {KeyErr, ValueErr}
  {
    if p.latitude.None? || p.longitude.None? then Raised(KeyErr)
    else if p.latitude.value.NotANumber? || p.longitude.value.NotANumber? then Raised(ValueErr)
    else Ok(Coordinates(p.latitude.value.value, p.longitude.value.value))
  }

  /** A waypoint: the maneuver's 'point' must be there. */
  function ManeuverPoint(m: Maneuver): (r: Outcome<Coordinates>)
    ensures r.Ok? <==> WellFormedManeuver(m)
    ensures r.Raised? ==> r.exc in {KeyErr, ValueErr}
  {
    if m.point.None? then Raised(KeyErr) else PointOf(m.point.value)
  }

  /** Missing, null or empty 'routes', or a first route that is null or {}. */
  predicate NoRoute(data: RoutePayload) {
    || data.routes.None? || |data.routes.value| == 0
    || data.routes.value[0].NullRoute?
    || (data.routes.value[0].legs.None? && data.routes.value[0].summary.None? && !data.routes.value[0].otherKeys)
  }

  /** The leg read from a route object: `legs[0]`, or {} when 'legs' is absent. */
  function FirstLeg(route: RouteObj): Leg
    requires route.Route? && !(route.legs.Some? && |route.legs.value| == 0)
  {
    if route.legs.None? then Leg(None, None) else route.legs.value[0]
  }

  function LegPoints(leg: Leg): seq<PointObj> {
    if leg.points.None? then [] else leg.points.value
  }

  function LegManeuvers(leg: Leg): seq<Maneuver> {
    if leg.guidance.None? || leg.guidance.value.instructions.None? then [] else leg.guidance.value.instructions.value
  }

  /** A summary field, 0 when the summary or the key is absent. */
  function SummaryField(summary: Option<Summary>, length: bool): JsonNumber {
    if summary.None? then Num(0.0)
    else
      var v := if length then summary.value.lengthInMeters else summary.value.travelTimeInSeconds;
      if v.None? then Num(0.0) else v.value
  }

  /** A payload the parser accepts: a first route with a leg (or no 'legs'
      key), every point and every instruction's point well-formed, and
      numeric summary fields where present. */
  predicate WellFormedRoute(data: RoutePayload) {
    && !NoRoute(data)
    && data.routes.value[0].legs != Some([])
    && (forall i :: 0 <= i < |LegPoints(FirstLeg(data.routes.value[0]))| ==>
          WellFormedPoint(LegPoints(FirstLeg(data.routes.value[0]))[i]))
    && (forall i :: 0 <= i < |LegManeuvers(FirstLeg(data.routes.value[0]))| ==>
          WellFormedManeuver(LegManeuvers(FirstLeg(data.routes.value[0]))[i]))
    && SummaryField(data.routes.value[0].summary, true).Num?
    && SummaryField(data.routes.value[0].summary, false).Num?
  }

  /** `_parse_route_response`, as a function of the payload. */
  function ParseRoute(data: RoutePayload): (r: Outcome<RouteDetails>)
    ensures r.Ok? ==> !NoRoute(data)
    ensures r.Raised? && r.exc.HttpExc? ==> NoRoute(data) && r.exc == HttpExc(400, "No route found")
    ensures r.Raised? && !r.exc.HttpExc? ==> r.exc in {KeyErr, IndexErr, ValueErr}
  {
    if NoRoute(data) then Raised(HttpExc(400, "No route found"))
    else
      var route := data.routes.value[0];
      if route.legs.Some? && |route.legs.value| == 0 then Raised(IndexErr)
      else
        var leg := FirstLeg(route);
        match Collect(PointOf, LegPoints(leg))
        case Raised(e) => Raised(e)
        case Ok(points) =>
          match Collect(ManeuverPoint, LegManeuvers(leg))
          case Raised(e) => Raised(e)
          case Ok(waypoints) =>
            var distance := SummaryField(route.summary, true);
            var duration := SummaryField(route.summary, false);
            if distance.NotANumber? || duration.NotANumber? then Raised(ValueErr)
            else Ok(RouteDetails(distance.value, duration.value, points, waypoints))
  }

  /** `_parse_route_response` with its two loops. */
  method ParseRouteResponse(data: RoutePayload) returns (r: Outcome<RouteDetails>)
    ensures r == ParseRoute(data)
  {
    if NoRoute(data) {
      return Raised(HttpExc(400, "No route found"));
    }
    var route := data.routes.value[0];
    if route.legs.Some? && |route.legs.value| == 0 {
      return Raised(IndexErr);
    }
    var leg := FirstLeg(route);
    var points := CollectLoop(PointOf, LegPoints(leg));
    if points.Raised? {
      return Raised(points.exc);
    }
    var waypoints := CollectLoop(ManeuverPoint, LegManeuvers(leg));
    if waypoints.Raised? {
      return Raised(waypoints.exc);
    }
    var distance := SummaryField(route.summary, true);
    var duration := SummaryField(route.summary, false);
    if distance.NotANumber? || duration.NotANumber? {
      return Raised(ValueErr);
    }
    r := Ok(RouteDetails(distance.value, duration.value, points.value, waypoints.value));
  }

  /** `get_route` once the request is made. */
  function GetRoute(answer: Fetch<RoutePayload>): (r: Outcome<RouteDetails>)
    ensures answer.TransportFailed? ==> r.Raised? && r.exc.HttpExc? && r.exc.status == 500
    ensures answer.Answered? && answer.payload.error.Some? ==> r.Raised?
    ensures r.Ok? ==> answer.Answered? && answer.payload.error.None? && !NoRoute(answer.payload)
    ensures r.Raised? && r.exc.HttpExc? ==> r.exc.status in {400, 500} && |r.exc.detail| > 0
    ensures r.Raised? && !r.exc.HttpExc? ==> r.exc in {KeyErr, IndexErr, ValueErr}
  {
    match answer
    case TransportFailed(m) => Raised(HttpExc(500, "Failed to get route from Azure Maps: " + m))
    case Answered(data) =>
      if data.error.Some? then
        if data.error.value.message.None? then Raised(KeyErr)
        else Raised(HttpExc(400, "Azure Maps API error: " + data.error.value.message.value))
      else ParseRoute(data)
  }

  /** The parser's only HTTP error is "No route found", raised exactly for
      missing, empty or empty-first routes: the loops can only raise what a
      point raises. */
  lemma NoRouteFound(data: RoutePayload)
    ensures ParseRoute(data) == Raised(HttpExc(400, "No route found")) <==> NoRoute(data)
    ensures ParseRoute(data).Raised? && !NoRoute(data) ==> ParseRoute(data).exc in {KeyErr, IndexErr, ValueErr}
  {
    if !NoRoute(data) {
      var route := data.routes.value[0];
      if !(route.legs.Some? && |route.legs.value| == 0) {
        var leg := FirstLeg(route);
        var points := Collect(PointOf, LegPoints(leg));
        if points.Raised? {
          var i := CollectFirstError(PointOf, LegPoints(leg));
        } else {
          var waypoints := Collect(ManeuverPoint, LegManeuvers(leg));
          if waypoints.Raised? {
            var i := CollectFirstError(ManeuverPoint, LegManeuvers(leg));
          }
        }
      }
    }
  }

  /** The parser succeeds exactly on well-formed payloads, and `get_route`
      exactly on well-formed payloads without an 'error' key. */
  lemma ParseRouteOkIff(data: RoutePayload)
    ensures ParseRoute(data).Ok? <==> WellFormedRoute(data)
    ensures GetRoute(Answered(data)).Ok? <==> data.error.None? && WellFormedRoute(data)
  {
    if !NoRoute(data) && data.routes.value[0].legs != Some([]) {
      var leg := FirstLeg(data.routes.value[0]);
      CollectOk(PointOf, LegPoints(leg));
      CollectOk(ManeuverPoint, LegManeuvers(leg));
    }
  }

  /** A parsed route holds one point per point of the first leg, in order,
      with its latitude and longitude; one waypoint per guidance
      instruction, from the maneuver's point; and the summary's length and
      time, 0 where absent. */
  lemma ParsedRouteContents(data: RoutePayload)
    requires ParseRoute(data).Ok?
    ensures !NoRoute(data) && !(data.routes.value[0].legs.Some? && |data.routes.value[0].legs.value| == 0)
    ensures
      var route := data.routes.value[0];
      var leg := FirstLeg(route);
      var d := ParseRoute(data).value;
      && |d.points| == |LegPoints(leg)|
      && (forall i :: 0 <= i < |d.points| ==>
            LegPoints(leg)[i] == PointObj(Some(Num(d.points[i].latitude)), Some(Num(d.points[i].longitude))))
      && |d.waypoints| == |LegManeuvers(leg)|
      && (forall i :: 0 <= i < |d.waypoints| ==>
            LegManeuvers(leg)[i].point == Some(PointObj(Some(Num(d.waypoints[i].latitude)), Some(Num(d.waypoints[i].longitude)))))
      && Num(d.distance) == SummaryField(route.summary, true)
      && Num(d.duration) == SummaryField(route.summary, false)
  {
    var route := data.routes.value[0];
    var leg := FirstLeg(route);
    CollectOk(PointOf, LegPoints(leg));
    CollectOk(ManeuverPoint, LegManeuvers(leg));
  }

  /** A route object without 'legs' parses to no points and no waypoints;
      an empty 'legs' list raises IndexError; without a summary the
      distance and duration are 0. */
  lemma LegsAndSummaryDefaults(data: RoutePayload)
    requires !NoRoute(data)
    ensures data.routes.value[0].legs.None? && data.routes.value[0].summary.None? ==>
      ParseRoute(data) == Ok(RouteDetails(0.0, 0.0, [], []))
    ensures data.routes.value[0].legs == Some([]) ==> ParseRoute(data) == Raised(IndexErr)
    ensures data.routes.value[0].summary.None? && ParseRoute(data).Ok? ==>
      ParseRoute(data).value.distance == 0.0 && ParseRoute(data).value.duration == 0.0
  {
  }

  /** A failed request is a 500; an 'error' key decides the outcome
      whatever 'routes' holds; otherwise the payload is parsed. */
  lemma GetRouteOutcomes(message: string, data: RoutePayload, routes: Option<seq<RouteObj>>)
    ensures GetRoute(TransportFailed(message)) == Raised(HttpExc(500, "Failed to get route from Azure Maps: " + message))
    ensures data.error.Some? ==> GetRoute(Answered(data)) == GetRoute(Answered(data.(routes := routes)))
    ensures data.error == Some(ErrorBody(Some(message))) ==>
      GetRoute(Answered(data)) == Raised(HttpExc(400, "Azure Maps API error: " + message))
    ensures data.error.None? ==> GetRoute(Answered(data)) == ParseRoute(data)
  {
  }

  // ---- The search payload ----

  /** One search result: 'position' with 'lat' and 'lon' is read and
      validated first, then 'poi' and 'address' must be there; name and
      address default to "(không rõ)". The backend sends no id. */
  function ResultOf(item: SearchItem): (r: Outcome<SearchResult>)
    ensures r.Ok? <==> WellFormedItem(item)
    ensures r.Ok? ==>
      && r.value.id.None? && r.value.address.Some?
      && item.position == Some(LatLon(Some(Num(r.value.coordinates.latitude)), Some(Num(r.value.coordinates.longitude))))
      && item.poi.Some? && item.address.Some?
    ensures r.Raised? ==> r.exc in {KeyErr, ValueErr}
    ensures r == Raised(ValueErr) ==> item.position.Some? && item.position.value.lat.Some? && item.position.value.lon.Some?
  {
    if item.position.None? || item.position.value.lat.None? || item.position.value.lon.None? then Raised(KeyErr)
    else if item.position.value.lat.value.NotANumber? || item.position.value.lon.value.NotANumber? then Raised(ValueErr)
    else if item.poi.None? || item.address.None? then Raised(KeyErr)
    else
      var name := if item.poi.value.name.None? then Unknown else item.poi.value.name.value;
      var address := if item.address.value.freeformAddress.None? then Unknown else item.address.value.freeformAddress.value;
      Ok(SearchResult(None, name, Some(address),
                      Coordinates(item.position.value.lat.value.value, item.position.value.lon.value.value)))
  }

  /** An item `search_places` accepts: 'position' with numeric 'lat' and
      'lon', and 'poi' and 'address' present. */
  predicate WellFormedItem(item: SearchItem) {
    && item.position.Some? && IsNumber(item.position.value.lat) && IsNumber(item.position.value.lon)
    && item.poi.Some? && item.address.Some?
  }

  function SearchItems(data: SearchPayload): seq<SearchItem> {
    if data.results.None? then [] else data.results.value
  }

  /** `search_places` once the request is made. */
  function SearchPlaces(answer: Fetch<SearchPayload>): (r: Outcome<seq<SearchResult>>)
    ensures r.Ok? ==> answer.Answered? && |r.value| == |SearchItems(answer.payload)|
    ensures r.Raised? ==> (r.exc.HttpExc? <==> answer.TransportFailed?)
    ensures r.Raised? && !r.exc.HttpExc? ==> r.exc in {KeyErr, ValueErr}
  {
    match answer
    case TransportFailed(m) => Raised(HttpExc(500, "Azure Maps error: " + m))
    case Answered(data) => Collect(ResultOf, SearchItems(data))
  }

  /** `search_places` with its loop. */
  method SearchPlacesLoop(answer: Fetch<SearchPayload>) returns (r: Outcome<seq<SearchResult>>)
    ensures r == SearchPlaces(answer)
  {
    if answer.TransportFailed? {
      return Raised(HttpExc(500, "Azure Maps error: " + answer.message));
    }
    r := CollectLoop(ResultOf, SearchItems(answer.payload));
  }

  /** The search succeeds exactly when the request is answered and every
      item is well-formed. */
  lemma SearchPlacesOkIff(answer: Fetch<SearchPayload>)
    ensures SearchPlaces(answer).Ok? <==>
      answer.Answered? && forall i :: 0 <= i < |SearchItems(answer.payload)| ==> WellFormedItem(SearchItems(answer.payload)[i])
  {
    if answer.Answered? {
      CollectOk(ResultOf, SearchItems(answer.payload));
    }
  }

  /** One result per item, in order, at the item's lat/lon, with the
      defaults filled in and no id; a payload without 'results' gives no
      results; a failure is a KeyError or ValueError of some item, or the
      500 of a failed request. */
  lemma SearchResultsContents(answer: Fetch<SearchPayload>)
    ensures answer.Answered? && answer.payload.results.None? ==> SearchPlaces(answer) == Ok([])
    ensures answer.TransportFailed? ==> SearchPlaces(answer) == Raised(HttpExc(500, "Azure Maps error: " + answer.message))
    ensures SearchPlaces(answer).Ok? ==>
      var items := SearchItems(answer.payload);
      var rs := SearchPlaces(answer).value;
      && |rs| == |items|
      && forall i :: 0 <= i < |rs| ==>
           && rs[i].id.None?
           && items[i].position == Some(LatLon(Some(Num(rs[i].coordinates.latitude)), Some(Num(rs[i].coordinates.longitude))))
           && items[i].poi.Some? && items[i].address.Some?
           && rs[i].name == (if items[i].poi.value.name.None? then Unknown else items[i].poi.value.name.value)
           && rs[i].address == Some(if items[i].address.value.freeformAddress.None? then Unknown
                                    else items[i].address.value.freeformAddress.value)
    ensures answer.Answered? && SearchPlaces(answer).Raised? ==> SearchPlaces(answer).exc in {KeyErr, ValueErr}
  {
    if answer.Answered? {
      var items := SearchItems(answer.payload);
      CollectOk(ResultOf, items);
      if SearchPlaces(answer).Raised? {
        var i := CollectFirstError(ResultOf, items);
      }
    }
  }
}
