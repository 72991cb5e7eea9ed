/** The Angular `AzureMapsService`: a marker list and a route data source,
    both guarded by the `isInitialized` flag that the map's 'ready' event
    sets, plus the direct Azure Maps route query. Camera moves are only
    recorded as requested centres. */
module MapsService {
  import opened Geo
  import opened Text

  /** An HTML marker: its position [lng, lat] and its colour. */
  datatype Marker = Marker(position: Pair, color: string)

  const DefaultColor: string := "red"

  /** The Azure Maps route answer as the service declares it. `routes` may
      be missing from a real answer, hence the Option. */
  datatype AzureLeg = AzureLeg(points: seq<Coordinates>)
  datatype AzureRoute = AzureRoute(lengthInMeters: real, travelTimeInSeconds: real, legs: seq<AzureLeg>)
  datatype AzureRouteResponse = AzureRouteResponse(routes: Option<seq<AzureRoute>>)

  /** What the returned observable does: emit a value, or fail. */
  datatype Emission<T> = Emitted(value: T) | Failed(reason: string)

  /** The query parameters of the Azure Maps route request. */
  function RouteParams(key: string, fmt: real -> string, start: Pair, end: Pair): (params: map<string, string>)
    ensures params.Keys == {"subscription-key", "api-version", "query", "routeType", "traffic"}
  {
    map["subscription-key" := key, "api-version" := "1.0", "query" := RouteQuery(fmt, start, end),
        "routeType" := "fastest", "traffic" := "true"]
  }

  /** The query names both endpoints, start first, in the order their
      arrays hold them, and each number can be read back from it. */
  lemma RouteParamsQuery(key: string, fmt: real -> string, start: Pair, end: Pair)
    requires NoSeparator(fmt(start.0)) && NoSeparator(fmt(start.1))
    requires NoSeparator(fmt(end.0)) && NoSeparator(fmt(end.1))
    ensures
      var q := RouteParams(key, fmt, start, end)["query"];
      && Split(q, ':') == [fmt(start.0) + "," + fmt(start.1), fmt(end.0) + "," + fmt(end.1)]
      && Split(Split(q, ':')[0], ',') == [fmt(start.0), fmt(start.1)]
      && Split(Split(q, ':')[1], ',') == [fmt(end.0), fmt(end.1)]
  {
    RouteQueryReadsBack(fmt, start, end);
  }

  class AzureMapsService {
    const key: string
    var hasMap: bool
    var isInitialized: bool
    var hasDataSource: bool
    var markers: seq<Marker>
    var shapes: seq<Shape>
    /** Every camera centre [lng, lat] asked for by `panTo` and `setCenter`. */
    var cameraRequests: seq<Pair>

    constructor (key: string)
      ensures this.key == key
      ensures !hasMap && !isInitialized && !hasDataSource
      ensures markers == [] && shapes == [] && cameraRequests == []
    {
      this.key := key;
      hasMap, isInitialized, hasDataSource := false, false, false;
      markers, shapes, cameraRequests := [], [], [];
    }

    /** `initMap`: fails, changing nothing, when the container is missing;
        otherwise the map exists but is not ready yet. */
    method InitMap(elementId: string, containerExists: bool) returns (error: Option<string>)
      modifies this
      ensures !containerExists ==> error == Some("Container '" + elementId + "' not found.")
                                   && hasMap == old(hasMap)
      ensures containerExists ==> error == None && hasMap
      ensures isInitialized == old(isInitialized) && hasDataSource == old(hasDataSource)
      ensures markers == old(markers) && shapes == old(shapes) && cameraRequests == old(cameraRequests)
    {
      if !containerExists {
        return Some("Container '" + elementId + "' not found.");
      }
      hasMap := true;
      error := None;
    }

    /** The map's 'ready' event. */
    method OnReady()
      requires hasMap
      modifies this
      ensures isInitialized && hasDataSource && shapes == []
      ensures hasMap && markers == old(markers) && cameraRequests == old(cameraRequests)
    {
      isInitialized := true;
      hasDataSource := true;
      shapes := [];
    }

    method IsReady() returns (ready: bool)
      ensures ready == isInitialized
    {
      ready := isInitialized;
    }

    /** `addMarker`: on a map that is not ready nothing happens; otherwise
        exactly one marker at [lng, lat] is appended. */
    method AddMarker(lat: real, lng: real, color: string)
      modifies this
      ensures markers == if hasMap && isInitialized then old(markers) + [Marker((lng, lat), color)] else old(markers)
      ensures hasMap == old(hasMap) && isInitialized == old(isInitialized) && hasDataSource == old(hasDataSource)
      ensures shapes == old(shapes) && cameraRequests == old(cameraRequests)
    {
      if !hasMap || !isInitialized { return; }
      markers := markers + [Marker((lng, lat), color)];
    }

    /** `clearMarkers`: nothing on a map that is not ready; otherwise the list is emptied. */
    method ClearMarkers()
      modifies this
      ensures markers == if hasMap && isInitialized then [] else old(markers)
      ensures hasMap == old(hasMap) && isInitialized == old(isInitialized) && hasDataSource == old(hasDataSource)
      ensures shapes == old(shapes) && cameraRequests == old(cameraRequests)
    {
      if !hasMap || !isInitialized { return; }
      markers := [];
    }

    /** The `map` stage of `calculateRoute`, run on the Azure answer: with at
        least one route, leg 0's points replace the data source as one route
        line (when there is a data source); the answer itself is passed on
        unchanged. A first route without legs makes the stage throw. */
    method OnRouteAnswer(response: AzureRouteResponse) returns (out: Emission<AzureRouteResponse>)
      modifies this
      ensures response.routes.Some? && |response.routes.value| > 0 && |response.routes.value[0].legs| == 0
              ==> out.Failed? && shapes == old(shapes)
      ensures !(response.routes.Some? && |response.routes.value| > 0) ==> out == Emitted(response) && shapes == old(shapes)
      ensures response.routes.Some? && |response.routes.value| > 0 && |response.routes.value[0].legs| > 0 ==>
        && out == Emitted(response)
        && shapes == (if hasDataSource then [RouteLine(PathOf(response.routes.value[0].legs[0].points))] else old(shapes))
      ensures hasMap == old(hasMap) && isInitialized == old(isInitialized) && hasDataSource == old(hasDataSource)
      ensures markers == old(markers) && cameraRequests == old(cameraRequests)
    {
      if response.routes.Some? && |response.routes.value| > 0 {
        var route := response.routes.value[0];
        if |route.legs| == 0 {
          return Failed("TypeError: cannot read properties of undefined (reading 'points')");
        }
        var coordinates := PathOf(route.legs[0].points);
        if hasDataSource {
          shapes := [RouteLine(coordinates)];
        }
      }
      out := Emitted(response);
    }

    /** `panTo`: nothing on a map that is not ready. */
    method PanTo(lat: real, lng: real)
      modifies this
      ensures cameraRequests == if hasMap && isInitialized then old(cameraRequests) + [(lng, lat)] else old(cameraRequests)
      ensures markers == old(markers) && shapes == old(shapes)
      ensures hasMap == old(hasMap) && isInitialized == old(isInitialized) && hasDataSource == old(hasDataSource)
    {
      if !hasMap || !isInitialized { return; }
      cameraRequests := cameraRequests + [(lng, lat)];
    }

    /** `setCenter`: nothing on a map that is not ready. */
    method SetCenter(lat: real, lng: real)
      modifies this
      ensures cameraRequests == if hasMap && isInitialized then old(cameraRequests) + [(lng, lat)] else old(cameraRequests)
      ensures markers == old(markers) && shapes == old(shapes)
      ensures hasMap == old(hasMap) && isInitialized == old(isInitialized) && hasDataSource == old(hasDataSource)
    {
      if !hasMap || !isInitialized { return; }
      cameraRequests := cameraRequests + [(lng, lat)];
    }
  }

  /** `isReady()` is false until the 'ready' event, also after the map is
      created, and true from then on; markers added before are dropped. */
  method ReadinessLifecycle(key: string, lat: real, lng: real)
    returns (atStart: bool, afterInit: bool, afterReady: bool, kept: seq<Marker>)
    ensures !atStart && !afterInit && afterReady
    ensures kept == [Marker((lng, lat), DefaultColor)]
  {
    var s := new AzureMapsService(key);
    atStart := s.IsReady();
    var _ := s.InitMap("map", true);
    s.AddMarker(lat, lng, DefaultColor);
    afterInit := s.IsReady();
    s.OnReady();
    afterReady := s.IsReady();
    s.AddMarker(lat, lng, DefaultColor);
    kept := s.markers;
  }
}
