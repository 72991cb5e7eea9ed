# GPS maps: a Dafny model of the map views, their services and the routing backend

These modules model an application in which a map view finds the user's
position, lets the user choose a destination (a map click or a search
result), asks a backend for a route and draws it. The application's parts
are modelled as follows:

- **LocationStore** models the Angular `LocationService`. It is three
  replaceable slots: the current location, the destination, and the route
  points derived from the two.
- **AngularMap** models the Angular `AzureMapComponent`. Its fields are the
  component's fields. Its data source is an ordered buffer of shapes. Its
  handlers rebuild the buffer (`updateMap`), replace it with a route, or
  record a request to a service. `calculateRoute` passes two arguments to a
  routing service that declares one parameter, so only the current location
  is sent, and it goes out as the destination.
- **MapsService** models the Angular `AzureMapsService`: the marker list,
  the 'ready' flag, and the route request it sends straight to Azure Maps.
- **ReactMap** models the plain-React view `AzureMap.js`. State setters bump
  a version number, and a commit runs `updateMap` when one of its
  dependencies changed. The routing and search collaborators are either
  "remote" (they answer later) or the page's synchronous mocks.
- **MockPage** models the mocks `MapPage.js` hands that view.
- **MockSession** holds concrete runs of that view with those mocks.
- **TsxMap** models the TypeScript view `AzureMap.tsx`. Each effect runs
  with the snapshot of the render it was committed in. The answer to an
  asynchronous route or search request is later applied with the snapshot
  that was current when the request was made. A route answer appends to the
  buffer and never clears it.
- **AzureBackend** models the Python Azure Maps client: the route query
  parameters, the route-payload parser and the search-result loop. Python's
  exceptions are values.
- **Api** models the two FastAPI handlers: the fixed start, the destination
  fallback, the default query, and how errors become responses.
- **Geo** and **Text** hold the shared records and shapes, and JavaScript's
  `trim`/blank test, join and split.

How effects are modelled:

- Every request to a service is recorded in the state.
- Its answer is an input to a `Deliver…` method, in any order.
- The network, geolocation, randomness, the clock and the map SDK are
  inputs or are left out.

Each class method is proved against a step function over a snapshot of
the state (`State() == XStep(old(State()), …)`). The lemmas state what the
steps promise.

Behaviours of the code worth knowing:

- A failed route answer leaves the previous route and panel in place
  rather than clearing them.
- A successful Angular route answer drops the search markers.
- No view validates coordinates.
- Only one endpoint of a route is sent: the Angular view sends the current
  location, the TSX view the destination, and the backend always starts
  from a fixed point.
- Results from the backend carry no `id`.

## Model

| member | source | states |
|---|---|---|
| LocationStore.LocationService.constructor | gps-maps/src/app/services/location.service.ts:18-20 | all three subjects start out null, nothing emitted |
| LocationStore.LocationService.UpdateLocation | gps-maps/src/app/services/location.service.ts:32-34 | replaces only the current location and emits it once |
| LocationStore.LocationService.SetRoutePoints | gps-maps/src/app/services/location.service.ts:68-70 | route points become exactly {start, end}, emitted once |
| LocationStore.LocationService.SetDestination | gps-maps/src/app/services/location.service.ts:46-56 | replaces the destination, never the current location; with a current location held, the route points become {that location, the destination} as [lat, lng]; without one, the old points stay |
| LocationStore.SetDestinationEmissions | gps-maps/src/app/services/location.service.ts:46-56 | the destination is pushed first, then, only when a current location is held, the route points from it to the destination |
| LocationStore.Perform | gps-maps/src/app/services/location.service.ts:32-56 | one `updateLocation` or `setDestination` on a live service moves its three slots as one replay step |
| LocationStore.HeldStartIsLastFound | gps-maps/src/app/services/location.service.ts:32-56 | after any sequence of calls, the route points run from the location held at the last `setDestination` that found one to that call's destination |
| LocationStore.NoPointsUntilFound | gps-maps/src/app/services/location.service.ts:46-56 | until some `setDestination` finds a current location there are no route points |
| LocationStore.StaleStart | gps-maps/src/app/services/location.service.ts:32-56 | a location update after a destination does not refresh the route start |
| LocationStore.NoDeduplication | gps-maps/src/app/services/location.service.ts:32-56 | equal values are pushed again, each time |
| LocationStore.DestinationFirst | gps-maps/src/app/services/location.service.ts:46-56 | a destination set before any location yields no route points, and a later location does not create them |
| AngularMap.MapComponent.constructor | gps-maps/src/app/components/azure-map/azure-map.component.ts:26-37 | no map, no data source, empty query, results and buffer |
| AngularMap.MapComponent.InitializeMap | gps-maps/src/app/components/azure-map/azure-map.component.ts:71-131 | the map exists, the query becomes "Vườn lài" and is searched at once |
| AngularMap.MapComponent.OnMapReady | gps-maps/src/app/components/azure-map/azure-map.component.ts:83-127 | data source created, geolocation started, subscription and both click handlers wired; the subscription replays the held destination |
| AngularMap.MapComponent.WireReady | gps-maps/src/app/components/azure-map/azure-map.component.ts:89-126 | an empty data source, locating only when geolocation exists, subscribed, clicks wired, nothing else changed |
| AngularMap.MapComponent.OnDestination | gps-maps/src/app/components/azure-map/azure-map.component.ts:192-202 | null ignored; a location becomes the destination and the map is redrawn |
| AngularMap.MapComponent.OnPosition | gps-maps/src/app/components/azure-map/azure-map.component.ts:146-157 | the fix becomes the current location, is redrawn and is pushed to the location service |
| AngularMap.MapComponent.SendDestination | gps-maps/src/app/components/azure-map/azure-map.component.ts:112 | `setDestination` on the service, and the subscription's redraw when subscribed |
| AngularMap.MapComponent.OnMapClick | gps-maps/src/app/components/azure-map/azure-map.component.ts:106-126 | no position does nothing; a position is sent as {lat: p[1], lng: p[0]} once per registered handler, twice |
| AngularMap.MapComponent.SelectSearchResult | gps-maps/src/app/components/azure-map/azure-map.component.ts:132-138 | the result's coordinates are sent as the destination |
| AngularMap.MapComponent.EditQuery | gps-maps/src/app/components/azure-map/azure-map.component.ts:36 | only the query changes |
| AngularMap.MapComponent.OnSearch | gps-maps/src/app/components/azure-map/azure-map.component.ts:388-421 | the search step: blank does nothing, else one request and a redraw |
| AngularMap.MapComponent.CalculateRoute | gps-maps/src/app/components/azure-map/azure-map.component.ts:300-306 | one route request when current, destination and data source exist, else nothing |
| AngularMap.MapComponent.UpdateMap | gps-maps/src/app/components/azure-map/azure-map.component.ts:204-251 | the redraw step, with the route request it makes |
| AngularMap.MapComponent.AddSearchMarkers | gps-maps/src/app/components/azure-map/azure-map.component.ts:243-251 | the loop appends one 'search' marker per result, in order |
| AngularMap.MapComponent.DeliverRouteAnswer | gps-maps/src/app/components/azure-map/azure-map.component.ts:307-351 | the route-answer step |
| AngularMap.MapComponent.DrawRoute | gps-maps/src/app/components/azure-map/azure-map.component.ts:319-342 | the buffer becomes [current]?, [destination]?, route line |
| AngularMap.MapComponent.DeliverRouteError | gps-maps/src/app/components/azure-map/azure-map.component.ts:353-355 | only the pending count changes |
| AngularMap.MapComponent.DeliverSearchAnswer | gps-maps/src/app/components/azure-map/azure-map.component.ts:407-413 | the search-answer step |
| AngularMap.MapComponent.DeliverSearchError | gps-maps/src/app/components/azure-map/azure-map.component.ts:415-417 | only the pending count changes |
| AngularMap.UpdateMapLayout | gps-maps/src/app/components/azure-map/azure-map.component.ts:204-251 | no map or data source: nothing changes; otherwise the buffer is the layout below and no other displayed field changes |
| AngularMap.MapShapesLayout | gps-maps/src/app/components/azure-map/azure-map.component.ts:210-251 | [current, accuracy]?, [destination]?, then one search marker per result at [lng, lat], and exactly that many search markers |
| AngularMap.UpdateMapRequestsRoute | gps-maps/src/app/components/azure-map/azure-map.component.ts:237-240 | one route request exactly when drawable with both points set, never more, earlier requests kept |
| AngularMap.RouteRequestIgnoresDestination | gps-maps/src/app/services/routing.service.ts:45-52 | the request body is the same for every destination and names the current location |
| AngularMap.RouteAnswerLayout | gps-maps/src/app/components/azure-map/azure-map.component.ts:308-342 | a success sets the panel and redraws points plus route, keeping the results list |
| AngularMap.RoutedShapesLayout | gps-maps/src/app/components/azure-map/azure-map.component.ts:319-342 | that buffer holds no search marker and no accuracy circle, and ends with the route line |
| AngularMap.RouteFailureKeepsMap | gps-maps/src/app/components/azure-map/azure-map.component.ts:307-355 | a non-success answer or an error keeps buffer and panel |
| AngularMap.LastRouteAnswerWins | gps-maps/src/app/components/azure-map/azure-map.component.ts:306-351 | the answer delivered last decides panel and buffer, whichever request it answers |
| AngularMap.SearchSendsQuery | gps-maps/src/app/components/azure-map/azure-map.component.ts:388-421 | blank query: nothing; else exactly that query once and a redraw with the old results |
| AngularMap.SearchAnswerNotDrawn | gps-maps/src/app/components/azure-map/azure-map.component.ts:406-419 | an answer replaces the results wholesale on success but does not touch the buffer |
| AngularMap.DestinationUpdates | gps-maps/src/app/components/azure-map/azure-map.component.ts:195-199 | null ignored; a location is stored and redrawn |
| AngularMap.DoubleClickRequestsTwice | gps-maps/src/app/components/azure-map/azure-map.component.ts:106-126 | one click issues two identical route requests and leaves the buffer as one redraw would |
| MapsService.RouteParams | gps-maps/src/app/services/azure-maps.service.ts:103-109 | exactly the five parameters the request sends |
| MapsService.RouteParamsQuery | gps-maps/src/app/services/azure-maps.service.ts:106 | the query splits back into start then end, each pair in the order given |
| MapsService.AzureMapsService.constructor | gps-maps/src/app/services/azure-maps.service.ts:25-28 | no map, not initialised, no markers |
| MapsService.AzureMapsService.InitMap | gps-maps/src/app/services/azure-maps.service.ts:39-74 | a missing container fails with "Container '<id>' not found." and changes nothing; otherwise a map that is not yet ready |
| MapsService.AzureMapsService.OnReady | gps-maps/src/app/services/azure-maps.service.ts:57-68 | initialised, with an empty data source |
| MapsService.AzureMapsService.IsReady | gps-maps/src/app/services/azure-maps.service.ts:156-158 | the initialised flag |
| MapsService.AzureMapsService.AddMarker | gps-maps/src/app/services/azure-maps.service.ts:76-90 | not ready: nothing; else exactly one marker at [lng, lat] appended |
| MapsService.AzureMapsService.ClearMarkers | gps-maps/src/app/services/azure-maps.service.ts:92-99 | not ready: nothing; else no markers |
| MapsService.AzureMapsService.OnRouteAnswer | gps-maps/src/app/services/azure-maps.service.ts:111-133 | with routes, leg 0's points replace the data source as one line; a first route without legs fails; the answer passes through unchanged |
| MapsService.AzureMapsService.PanTo | gps-maps/src/app/services/azure-maps.service.ts:137-146 | not ready: nothing; else one camera request at [lng, lat] |
| MapsService.AzureMapsService.SetCenter | gps-maps/src/app/services/azure-maps.service.ts:148-154 | not ready: nothing; else one camera request at [lng, lat] |
| MapsService.ReadinessLifecycle | gps-maps/src/app/services/azure-maps.service.ts:57-90 | not ready before the event, even after the map exists; ready after it; a marker added before is dropped |
| MockPage.MockRouteShape | MapPage.js:19-36 | always success, 1500 m, 300 s, exactly the two points start then end |
| MockPage.MockSearchShape | MapPage.js:38-55 | the same answer for every request: one result, id "1", at (21.03, 105.85) |
| ReactMap.MapView.constructor | AzureMap.js:11-40 | after mounting: map created, no data source, no points, the default query, empty results |
| ReactMap.MapView.OnMapReady | AzureMap.js:51-84 | data source, two random locations stored and forwarded, handlers wired, the first render's query searched |
| ReactMap.MapView.CreateDataSource | AzureMap.js:55-56 | an empty data source |
| ReactMap.MapView.StoreLocations | AzureMap.js:63-68 | both locations set and forwarded to the location service, in order |
| ReactMap.MapView.WireHandlers | AzureMap.js:70-81 | click handler and destination subscription registered |
| ReactMap.MapView.Commit | AzureMap.js:103-105 | the effect step: `updateMap` only when a dependency changed |
| ReactMap.MapView.UpdateMap | AzureMap.js:107-131 | the redraw step |
| ReactMap.MapView.DrawPoints | AzureMap.js:110-123 | clears, then [current]?, [destination]? |
| ReactMap.MapView.AddSearchMarkers | AzureMap.js:125-130 | the loop appends one marker per result |
| ReactMap.MapView.CalculateRoute | AzureMap.js:133-156 | the route step for either routing service |
| ReactMap.MapView.OnRouteNext | AzureMap.js:139-144 | the `next` callback: a success sets the panel and appends the line |
| ReactMap.MapView.RunSearch | AzureMap.js:158-170 | the search step for either search service |
| ReactMap.MapView.OnSearchNext | AzureMap.js:163-166 | success replaces the results and bumps their version |
| ReactMap.MapView.OnMapClick | AzureMap.js:70-75 | only forwards {lat: p[1], lng: p[0]} to the location service |
| ReactMap.MapView.SelectSearchResult | AzureMap.js:172-178 | only forwards the result's coordinates |
| ReactMap.MapView.OnDestinationNotified | AzureMap.js:77-81 | null ignored; else the destination changes |
| ReactMap.MapView.EditQuery | AzureMap.js:186 | only the query changes |
| ReactMap.MapView.OnSearchButton | AzureMap.js:189 | the search step with the typed query |
| ReactMap.MapView.DeliverRouteAnswer | AzureMap.js:138-144 | the route-answer step |
| ReactMap.MapView.DeliverRouteError | AzureMap.js:154 | only the pending count changes |
| ReactMap.MapView.DeliverSearchAnswer | AzureMap.js:162-166 | the search-answer step |
| ReactMap.MapView.DeliverSearchError | AzureMap.js:168 | only the pending count changes |
| ReactMap.UpdateMapRemote | AzureMap.js:107-131 | without map and data source nothing changes; otherwise points then search markers, and one route request exactly when both points are set |
| ReactMap.PointsThenMarkers | AzureMap.js:110-130 | [current]?, [destination]?, then one 'search' marker per result in order, and no other search marker |
| ReactMap.MockRouteLandsBeforeMarkers | AzureMap.js:118-130 | with the mock router the route line lands between the destination and the search markers, and the panel shows 1500 and 300 |
| ReactMap.RouteAnswerAppends | AzureMap.js:139-144 | a success appends exactly one line of [lng, lat] points and keeps what was there; anything else changes nothing |
| ReactMap.CommitRunsChangedEffect | AzureMap.js:103-105 | a commit redraws exactly when a dependency changed, and leaves the effect up to date |
| ReactMap.NewResultsRequestRoute | AzureMap.js:103-105 | a new result set causes one more route request for the same endpoints; a failed search causes none |
| ReactMap.SearchSendsQuery | AzureMap.js:158-170 | blank: nothing; else the query is sent once; the mock answers at once with its one result |
| ReactMap.SearchAnswerReplaces | AzureMap.js:162-169 | success replaces the results even when missing, and the next commit then throws; otherwise nothing changes |
| ReactMap.DestinationForwarding | AzureMap.js:70-81 | clicks and chosen results are only forwarded; the subscription sets the destination |
| ReactMap.ReadySearchesDefaultQuery | AzureMap.js:63-83 | the 'ready' handler searches the first render's query whatever was typed since, and stores both locations |
| MockSession.MountAndLoad | MapPage.js:57-69 | the first screen: current, destination, route between them, the mock's one result, after one route request between the random points and one search for the default query |
| MockSession.ClickIsOnlyLogged | MapPage.js:8-17 | a click only reaches the logging mock: the screen keeps its destination |
| MockSession.SearchAgain | AzureMap.js:103-105 | searching again re-requests the same route and redraws the same screen |
| MockSession.BlankQueryIgnored | AzureMap.js:159 | a whitespace query sends nothing and redraws nothing |
| TsxMap.MapView.constructor | gps-maps-react/src/components/AzureMap/AzureMap.tsx:14-20 | the first render: no map, not ready, default query, empty results |
| TsxMap.MapView.OnScriptLoad | gps-maps-react/src/components/AzureMap/AzureMap.tsx:23-47 | the SDK is loaded |
| TsxMap.MapView.OnMapReady | gps-maps-react/src/components/AzureMap/AzureMap.tsx:63-65 | the map is ready |
| TsxMap.MapView.Commit | gps-maps-react/src/components/AzureMap/AzureMap.tsx:23-227 | the commit step: the effects whose dependencies changed, in declaration order, with this render's snapshot |
| TsxMap.MapView.CreateMap | gps-maps-react/src/components/AzureMap/AzureMap.tsx:49-66 | the map exists once the SDK is loaded |
| TsxMap.MapView.ReadySetup | gps-maps-react/src/components/AzureMap/AzureMap.tsx:68-110 | a new empty data source, the click handler, then `getCurrentLocation` |
| TsxMap.MapView.PlaceInitialMarker | gps-maps-react/src/components/AzureMap/AzureMap.tsx:113-123 | the initial marker at [106.650378, 10.8013] appended |
| TsxMap.MapView.GetCurrentLocation | gps-maps-react/src/components/AzureMap/AzureMap.tsx:130-137 | the fixed location is set, then `updateMap` of the render's destination |
| TsxMap.MapView.SearchOnLocation | gps-maps-react/src/components/AzureMap/AzureMap.tsx:124-128 | `handleSearch` when ready with a current location |
| TsxMap.MapView.RouteOnDestination | gps-maps-react/src/components/AzureMap/AzureMap.tsx:223-227 | `calculateRoute` when ready with a destination |
| TsxMap.MapView.UpdateMap | gps-maps-react/src/components/AzureMap/AzureMap.tsx:200-221 | the redraw step |
| TsxMap.MapView.AddMarkers | gps-maps-react/src/components/AzureMap/AzureMap.tsx:186-198 | appends the render's destination marker |
| TsxMap.MapView.CalculateRoute | gps-maps-react/src/components/AzureMap/AzureMap.tsx:153-159 | the route request step |
| TsxMap.MapView.HandleSearch | gps-maps-react/src/components/AzureMap/AzureMap.tsx:139-143 | the search request step |
| TsxMap.MapView.DeliverRouteAnswer | gps-maps-react/src/components/AzureMap/AzureMap.tsx:159-183 | the route-answer step with the requesting render's snapshot |
| TsxMap.MapView.DeliverSearchAnswer | gps-maps-react/src/components/AzureMap/AzureMap.tsx:143-150 | the search-answer step with the requesting render's snapshot |
| TsxMap.MapView.OnMapClick | gps-maps-react/src/components/AzureMap/AzureMap.tsx:99-107 | a position becomes the destination {lat: p[1], lng: p[0]} |
| TsxMap.MapView.SelectResult | gps-maps-react/src/components/AzureMap/AzureMap.tsx:246-249 | the result's coordinates become the destination |
| TsxMap.MapView.EditQuery | gps-maps-react/src/components/AzureMap/AzureMap.tsx:236 | only the query changes |
| TsxMap.MapView.OnSearchButton | gps-maps-react/src/components/AzureMap/AzureMap.tsx:239 | `handleSearch` with the current render |
| TsxMap.UpdateMapLayout | gps-maps-react/src/components/AzureMap/AzureMap.tsx:200-221 | nothing unless map, data source and readiness; then [initial]?, [destination]?, never a search marker, independent of the location argument and of the results |
| TsxMap.RouteRequestCarriesDestination | gps-maps-react/src/components/AzureMap/AzureMap.tsx:153-159 | one request exactly when all four guards hold; it names only the destination, as [lat, lng] |
| TsxMap.RouteAnswerAppends | gps-maps-react/src/components/AzureMap/AzureMap.tsx:160-172 | a success appends the line then the destination marker, never clearing; a failure, and the service's fallback, change neither buffer nor panel |
| TsxMap.RepeatedRoutesAccumulate | gps-maps-react/src/components/AzureMap/AzureMap.tsx:169-172 | two successful answers add two lines and two markers on top of the old buffer |
| TsxMap.StaleDestinationMarker | gps-maps-react/src/components/AzureMap/AzureMap.tsx:186-198 | the marker added after a route is the requesting render's destination |
| TsxMap.DestinationChangeRequestsRoute | gps-maps-react/src/components/AzureMap/AzureMap.tsx:223-227 | a commit where only the destination changed requests exactly that route; a commit with no change does nothing |
| TsxMap.SearchSendsQuery | gps-maps-react/src/components/AzureMap/AzureMap.tsx:139-143 | blank or unready: nothing; else the render's query is sent once |
| TsxMap.SearchAnswerReplaces | gps-maps-react/src/components/AzureMap/AzureMap.tsx:144-147 | a success with results replaces them; anything else, and the fallback, keep results and buffer |
| TsxMap.NoSearchMarkers | gps-maps-react/src/components/AzureMap/AzureMap.tsx:186-221 | commits, answers and clicks never put a search marker in the buffer |
| TsxMap.EffectsKeepNoSearch | gps-maps-react/src/components/AzureMap/AzureMap.tsx:49-128 | no effect adds a search marker |
| TsxMap.CommitKeepsNoSearch | gps-maps-react/src/components/AzureMap/AzureMap.tsx:23-227 | no commit adds a search marker |
| TsxMap.ReadyThenSearch | gps-maps-react/src/components/AzureMap/AzureMap.tsx:68-128 | the ready commit leaves just the initial marker and the fixed location and makes no call; the next commit searches the query |
| TsxMap.DestinationHandlers | gps-maps-react/src/components/AzureMap/AzureMap.tsx:99-107 | a click and a chosen result set the destination, as a new object each time |
| TsxMap.LoadToSearch | gps-maps-react/src/components/AzureMap/AzureMap.tsx:23-128 | mounting, 'ready' and their commits end with the first search sent |
| TsxMap.ClickToRoute | gps-maps-react/src/components/AzureMap/AzureMap.tsx:99-227 | from mount to the first route: initial marker, route line, destination; one search, one route request for the clicked point |
| AzureBackend.RouteParams | backend/azure_maps.py:23-34 | the fixed parameters, plus 'avoid' exactly when the list is non-empty |
| AzureBackend.RouteParamsReadBack | backend/azure_maps.py:25-34 | the query splits back into start then end, and 'avoid' splits back into the list |
| AzureBackend.Collect | backend/azure_maps.py:72-90 | a built list has one entry per element; a failure is the failure of some element |
| AzureBackend.PointOf | backend/azure_maps.py:75-80 | a point parses exactly when both keys hold numbers, and reads back as that point; a missing key is a KeyError, a non-number a ValueError |
| AzureBackend.ManeuverPoint | backend/azure_maps.py:84-89 | a waypoint converts exactly when the maneuver has a point with numeric lat/lon; otherwise KeyError or ValueError |
| AzureBackend.ParseRoute | backend/azure_maps.py:55-97 | a parsed route had routes; the only HTTP error is the 400 "No route found", raised only for no route; every other failure is a KeyError, IndexError or ValueError |
| AzureBackend.GetRoute | backend/azure_maps.py:36-53 | a failed request is a 500; an 'error' key always fails; a route comes only from an error-free payload with routes; HTTP errors are 400 or 500 with a non-empty detail |
| AzureBackend.ResultOf | backend/azure_maps.py:116-126 | an item converts exactly when it has numeric position lat/lon, a poi and an address; a parsed result has no id, an address, and the item's own lat/lon, and the item had poi and address; a failure is KeyError or ValueError, and ValueError only once the position keys are there |
| AzureBackend.SearchPlaces | backend/azure_maps.py:109-131 | one result per item; an HTTP error exactly for a failed request; any other failure is KeyError or ValueError |
| AzureBackend.CollectOk | backend/azure_maps.py:72-90 | the list is built exactly when every element converts, and holds those conversions in order |
| AzureBackend.CollectFirstError | backend/azure_maps.py:72-90 | a failure is the failure of the first element that does not convert |
| AzureBackend.CollectLoop | backend/azure_maps.py:72-80 | the `for`/`append` loop computes that list or that failure |
| AzureBackend.ParseRouteResponse | backend/azure_maps.py:55-97 | the parser with its loops computes the parse function |
| AzureBackend.NoRouteFound | backend/azure_maps.py:59-63 | "No route found" exactly for missing, empty or empty-first routes; any other failure is a KeyError, IndexError or ValueError |
| AzureBackend.ParseRouteOkIff | backend/azure_maps.py:36-97 | the parser succeeds exactly on payloads with a first route, a leg, well-formed points and instruction points and numeric summary fields; `get_route` exactly on those without an 'error' key |
| AzureBackend.ParsedRouteContents | backend/azure_maps.py:65-97 | one point per leg-0 point in order with its lat/lon; one waypoint per instruction from its point; the summary's length and time, 0 when absent |
| AzureBackend.LegsAndSummaryDefaults | backend/azure_maps.py:66-95 | missing legs give no points or waypoints; an empty legs list raises IndexError; without a summary, 0 and 0 |
| AzureBackend.GetRouteOutcomes | backend/azure_maps.py:36-53 | a failed request is a 500; an 'error' key decides the outcome whatever 'routes' holds; otherwise the payload is parsed |
| AzureBackend.SearchPlacesLoop | backend/azure_maps.py:109-131 | the loop computes the search function |
| AzureBackend.SearchPlacesOkIff | backend/azure_maps.py:109-131 | the search succeeds exactly when the request is answered and every item is well-formed |
| AzureBackend.SearchResultsContents | backend/azure_maps.py:114-131 | one result per item, in order, lat/lon copied, "(không rõ)" defaults, no id; no 'results' gives none; other failures are KeyError or ValueError |
| Api.EndOf | backend/main.py:34-37 | the end never has a zero coordinate; it is the destination exactly when neither of the destination's coordinates is zero, else the fallback |
| Api.PostRoute | backend/main.py:26-60 | a call exactly when there is a destination, from the fixed start to an end without zero coordinates; the status is "success" or "error", "success" exactly when a route is carried and exactly when no error is; an error text is never empty |
| Api.PostSearch | backend/main.py:61-90 | always one call within 10000 m, whose query is empty only when an empty query was given; success carries results and no error; every failure is an HTTP 400 or 500 |
| Api.RouteEndpoints | backend/main.py:33-44 | the call starts at (10.8013, 106.650378) whatever is asked; it ends at the destination exactly when both coordinates are non-zero, else at (10.847037, 106.692735) |
| Api.RouteResponses | backend/main.py:31-60 | "success" with the route exactly when the client returns one; an HTTP exception's detail, otherwise "Internal server error", also for a missing destination |
| Api.RouteErrorTexts | backend/main.py:51-60 | the texts a caller sees: transport failure, Azure error message, "No route found", generic error |
| Api.FrontendRouteHasNoAvoid | backend/main.py:40-44 | the body the frontends post leads to a request without 'avoid' |
| Api.SearchCallFixed | backend/main.py:67-80 | no query gives "Vườn lài"; any query, "" included, passes unchanged; always around the fixed start within 10000 m |
| Api.SearchOutcomes | backend/main.py:75-90 | success with the results exactly when the client returns them; every failure is an HTTP exception; KeyError and ValueError become 400s |
| Geo.PathOf | AzureMap.js:142 | one [longitude, latitude] position per route point, in response order |
| Geo.SearchMarkers | AzureMap.js:125-130 | one 'search' marker per result, in order, with the result's id at [longitude, latitude] |
| Geo.PathRoundTrip | AzureMap.js:142 | reading a drawn [lng, lat] path back gives the route points |
| Geo.SearchMarkersCount | AzureMap.js:125-130 | one search marker per result |
| Text.BlankIffAllWhitespace | AzureMap.js:159 | a query is blank after `trim()` exactly when every character is whitespace |
| Text.RouteQueryReadsBack | backend/azure_maps.py:25 | "a0,a1:b0,b1" splits back into the four numbers |

## Left out

- Map SDK and DOM: script and stylesheet loading, layers, sprites, the resize observer and the HTML templates beyond their bindings.
- Camera moves: `setCamera` and its `setTimeout` are not modelled; the Angular service only records requested centres.
- The accuracy circle is an opaque `Accuracy` shape; its trigonometry is not modelled.
- Number formatting: rendering a float in a query string or on the panel is a parameter `fmt`.
- Randomness: the plain-React view's random start and end are inputs.
- Geolocation: a geolocation fix is an input event; watch options and timeouts are not modelled.
- HTTP transport: each answer is an input, either a payload or the message of the failed request. JSON that is not an object where one is expected is not modelled. A JSON null is modelled only for routes and for number fields.
- The Angular routing and search HTTP wrappers are folded into the request bodies the views record.
- FastAPI wiring, CORS, the global exception handlers, config.py and the Angular app wiring.
- backend/main.py:85-86: that `except requests.RequestException` arm cannot run, because the client turns every such exception into an HTTP exception. The model therefore has no RequestException value.
- Pydantic coercion: a number field is a real or something that fails validation, and numeric strings are not distinguished. Extra fields (`instruction`, `distance_from_start`) are dropped, as the schema drops them.
- The mock route has no `waypoints` field; the model gives it an empty list.
- The plain-React view's state updates are batched per event handler, as React 18 does. A commit runs after each handler, not after each setter.
- ReactMap.MapView: no events are modelled after the view has thrown (`crashed`).
- ReactMap.MapView.OnDestinationNotified: the real mock subscription never calls back; the method exists for a live location service.
- The Angular component's destination subscription replays the held value once on subscribing. The model replays it in OnMapReady only.
- Unsubscribing on destroy and the `ngOnDestroy` clean-up are not modelled.
- React's bailout on an identical state value is not modelled. Every setter in the views is given a new object, except where equal strings are typed, which the model treats as a change.
- TsxMap.MapView.Commit: only the effects are ordered. React's choice of when to render between asynchronous answers is left to the caller of the Deliver methods.
