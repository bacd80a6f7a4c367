# Route map page: point selection, routing answers and route guards

A model of the own logic of a small browser map application. The map page
holds two points, A and B. A map click or a search of two place names sets
them, and once both are set the page asks OpenRouteService for a driving
route between them. It draws the route and shows its distance and duration.
Two route guards decide from the `user` cookie whether a page is shown or
the visitor is sent elsewhere.

`MapPage.Click` is what the click handler (src/pages/MapPage.jsx:90-99)
computes against the current state: fill A, then B, then restart the pair.
As the page is wired, the handler only ever sees the state of the first
render. So there a click only ever moves A, and only a search sets both
points (see "## Left out").

The router table in src/App.jsx mounts the map page at "/map" without
either guard, so the guards are modelled as components on their own.

The model has these modules:

- `MapPage` (map_page.dfy): the page state (`pointA`, `pointB`, `routeCoords`,
  `distance`, `duration`) as a value `PageState`. The functions `Click`,
  `Search` and `RouteEffect` are the transitions. The `Page` class holds the
  same state cells; its methods `HandleMapClick`, `HandleSearch` and
  `FetchRoute` update them in place and are proved equal to the transitions.
  `Run` plays any sequence of clicks, searches and routing answers from the
  initial state.
- `OrsRouting` (ors_routing.dfy): the fetch guard of the routing component.
  It also holds the swap of GeoJSON `[lng, lat]` positions (RFC 7946,
  section 3.1.1) to the `[lat, lng]` order the map draws, and the
  `"{h}h {m}m"` duration label. A parser reads the label back. This gives
  the round-trip and injectivity lemmas.
- `Geocode` (geocode.dfy): picks the first candidate of a place search.
- `Decimal` (decimal.dfy): the decimal text a JavaScript template literal
  prints for a whole number, and the value of a digit string.
- `Session`, `ProtectedRoute`, `PublicRoute`: the cookie read with
  JavaScript truthiness (a missing or empty cookie is falsy), and the two
  guards.
- `Wrappers`, `Geo`: `Option` (JavaScript `null`/`undefined`), the point
  type `LatLng` and the two-number `Position`.

Points are `LatLng(lat: real, lng: real)`. No transition looks inside a
point. It is only stored, compared and passed on.

Answers from the network are inputs to the model. A place search is a
`Geocode.GeocodeResponse` (a failure, or the parsed candidate list). A
directions answer is an `OrsRouting.RouteResponse` (a failure, or the
geometry, the distance text and the duration in whole seconds).

Points to note about the code as modelled:

- The click that restarts the pair clears only `routeCoords`
  (src/pages/MapPage.jsx:94-98). `distance` and `duration` keep their
  values, so the summary box still shows the previous route.
  `MapPage.Click` and `MapPage.ThirdClickRestartsPair` state this.
- The cookie guards decide synchronously from the cookie. There is no
  loading state.
- `getCoordinates` returns `null` both when the search finds no place and
  when the lookup fails. `Geocode.GetCoordinates` returns `None` for both.
- `ProtectedRoute` redirects to "/". The router table in src/App.jsx has no
  "/" route (the sign-in page is at "/login"). The model keeps the paths as
  the guards write them.

## Model

| member | source | states |
|---|---|---|
| `ProtectedRoute.ProtectedRoute` | src/components/ProtectedRoute.jsx:5-14 | the outcome is the children or a redirect to "/", and it is the children exactly when the cookie is truthy |
| `ProtectedRoute.MissingCookieRedirects` | src/components/ProtectedRoute.jsx:8-9 | a missing cookie redirects to "/" |
| `ProtectedRoute.EmptyCookieRedirects` | src/components/ProtectedRoute.jsx:8 | an empty-string cookie is treated as absent and redirects to "/" |
| `ProtectedRoute.AnyNonEmptyCookieRenders` | src/components/ProtectedRoute.jsx:6-14 | any non-empty cookie text shows the children, whatever it contains |
| `ProtectedRoute.ExactlyOneOutcome` | src/components/ProtectedRoute.jsx:8-14 | for every cookie value the outcome is exactly one of the children or the redirect |
| `PublicRoute.PublicRoute` | src/components/PublicRoute.jsx:5-12 | the outcome is the children or a redirect to "/map", and it is the redirect exactly when the cookie is truthy |
| `PublicRoute.NonEmptyCookieRedirects` | src/components/PublicRoute.jsx:8-9 | a non-empty cookie redirects to "/map" |
| `PublicRoute.MissingOrEmptyCookieRenders` | src/components/PublicRoute.jsx:8-12 | a missing or empty cookie shows the children |
| `PublicRoute.ExactlyOneOutcome` | src/components/PublicRoute.jsx:8-12 | for every cookie value the outcome is exactly one of the children or the redirect |
| `PublicRoute.GuardsComplementary` | src/components/PublicRoute.jsx:8 | for every cookie value exactly one of the two guards shows its children, and the other redirects |
| `Geocode.GetCoordinates` | src/pages/MapPage.jsx:112-122 | coordinates exactly when the lookup succeeded with a non-empty list, and then those of the first candidate; null otherwise |
| `Geocode.OnlyFirstCandidateMatters` | src/pages/MapPage.jsx:112-114 | candidates after the first never change the answer |
| `Geocode.NoCandidateNoPoint` | src/pages/MapPage.jsx:115-122 | an empty list and a failed lookup both give null |
| `OrsRouting.RouteRequest` | src/pages/MapPage.jsx:36-39 | a request is made exactly when both points are set, and it carries each point as lng,lat |
| `OrsRouting.ToLatLng` | src/pages/MapPage.jsx:45-47 | the swapped geometry has the same length and order, and each [lng, lat] becomes [lat, lng] |
| `OrsRouting.ToLatLngInvolution` | src/pages/MapPage.jsx:45-47 | swapping twice gives the geometry back |
| `OrsRouting.RequestSwapsBack` | src/pages/MapPage.jsx:39-47 | the request positions, swapped the way the answer is, are the two points in display order |
| `OrsRouting.DurationParts` | src/pages/MapPage.jsx:54-56 | minutes < 60, hours*60 + minutes = seconds / 60, hours = seconds / 3600 |
| `OrsRouting.DurationLabel` | src/pages/MapPage.jsx:57 | the label `{h}h {m}m` reads back as exactly the hours and minutes of the duration |
| `OrsRouting.HoursMinutesReadBack` | src/pages/MapPage.jsx:57 | any hours and minutes printed as `{h}h {m}m` are read back as themselves |
| `OrsRouting.DurationLabelInjective` | src/pages/MapPage.jsx:54-57 | two durations have the same label exactly when they have the same whole minutes |
| `OrsRouting.DurationLabelExample` | src/pages/MapPage.jsx:54-57 | 3661 seconds are labelled "1h 1m" |
| `OrsRouting.RouteResult` | src/pages/MapPage.jsx:41-63 | a failed answer changes nothing; a successful one gives the swapped geometry, the distance text and the duration label |
| `Decimal.FromNat` | src/pages/MapPage.jsx:57 | the printed number has at least one digit and no leading zero, and denotes the number |
| `MapPage.Initial` | src/pages/MapPage.jsx:75-81 | both points null, no route, no summary; the points are in order |
| `MapPage.Click` | src/pages/MapPage.jsx:90-99 | the click always lands in A or B, A is set afterwards, the pair stays in order, and distance and duration are untouched |
| `MapPage.Search` | src/pages/MapPage.jsx:128-136 | both points are taken when both lookups gave coordinates, otherwise nothing changes; the pair stays in order |
| `MapPage.RouteEffect` | src/pages/MapPage.jsx:34-67 | points never change; nothing changes without both points or after a failed answer; otherwise the route, distance and duration are replaced |
| `MapPage.ClickFillsAFirst` | src/pages/MapPage.jsx:92 | with A null the click sets A and changes nothing else |
| `MapPage.ClickFillsBSecond` | src/pages/MapPage.jsx:93 | with A set and B null the click sets B and changes nothing else |
| `MapPage.ThirdClickRestartsPair` | src/pages/MapPage.jsx:94-98 | with both set the click becomes A, B is cleared, exactly one point is set, the route is empty, and distance and duration are kept |
| `MapPage.ThreeClicksFromStart` | src/pages/MapPage.jsx:90-99 | from the initial state the clicks p, q give A = p and B = q, and a third click r leaves only A = r |
| `MapPage.RunPreservesPairOrdered` | src/pages/MapPage.jsx:90-136 | "B set implies A set" is kept by any sequence of clicks, searches and routing answers |
| `MapPage.ReachableStatesOrdered` | src/pages/MapPage.jsx:75-136 | every reachable state has its points in order, so a single live point is always A |
| `MapPage.Page.constructor` | src/pages/MapPage.jsx:75-81 | the state cells start as the initial state |
| `MapPage.Page.HandleMapClick` | src/pages/MapPage.jsx:90-99 | the new cells are `Click` of the old ones: A first, then B, then restart with B and the route cleared; distance and duration untouched; points in order |
| `MapPage.Page.HandleSearch` | src/pages/MapPage.jsx:128-136 | the new cells are `Search` of the old ones with both lookups' coordinates |
| `MapPage.Page.FetchRoute` | src/pages/MapPage.jsx:35-63 | a request is returned exactly when both points are set; the new cells are `RouteEffect` of the old ones and the answer |

## Left out

- Network I/O is not modelled: the OpenRouteService `fetch`, the Nominatim
  lookup through the allorigins proxy, `response.json` and `JSON.parse`.
  Their results are inputs: `GeocodeResponse` and `RouteResponse`.
- Floating point is not modelled. `parseFloat` of the candidate's `lat` and
  `lon` is taken as done (`Candidate` holds the numbers). The distance
  formatting `(summary.distance / 1000).toFixed(2)` is taken as done too
  (`RouteResponse.distanceKm` holds the text).
- OrsRouting.DurationParts: durations are whole seconds only. A fractional
  `summary.duration` is not modelled.
- Decimal.FromNat: gives plain digits for every number. JavaScript prints
  numbers from 1e21 up in exponent form and loses precision above 2^53.
  Neither is modelled.
- OrsRouting.RouteResult: treats any malformed answer as a failure that
  changes nothing. In the source, an answer whose geometry reads but whose
  summary does not would already have replaced `routeCoords`. An answer
  whose summary lacks `duration` or `distance` does not throw at all: the
  source shows "NaNh NaNm" and "NaN" and sets all three cells
  (src/pages/MapPage.jsx:53-57). `RouteResponse` has no such answer,
  because its duration is a whole number of seconds.
- Positions are pairs. A position with a third coordinate (an elevation) is
  not represented.
- `map.fitBounds`, the Leaflet marker icon and all JSX rendering are not
  modelled. They are library and UI concerns.
- MapPage.Page.HandleMapClick: applies each click to the current
  `pointA` and `pointB`. In the source the handler is installed once,
  through `whenCreated` (src/pages/MapPage.jsx:189), when the map is
  created. It keeps the closure of the first render, where `pointA` is
  `null`. So in the page as wired every click takes the first branch
  (line 92): it moves A, never sets B and never restarts the pair. That
  wiring is not modelled.
- The `alert` and `console.error` calls on lookup and routing failures
  (src/pages/MapPage.jsx:61-62, 116, 120-121) are not modelled. A failure
  only leaves the state unchanged.
- The `loading` flag is not modelled, and neither are stale or
  out-of-order async answers. Events are applied one at a time, in order.
- The sign-out handler `handleClick` and the `Hello, {user.name}` header are
  not modelled. The handler removes the cookie and navigates. The header
  parses the cookie's JSON. Both are calls into libraries.
- src/pages/Login.jsx (a Firebase popup plus a cookie write) is not
  modelled. It only wraps foreign calls.
- src/App.jsx (a declarative router table) is not modelled. It has no logic
  of its own.
