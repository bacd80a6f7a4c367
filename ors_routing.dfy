/** The logic of the routing component: when it asks the OpenRouteService
    directions endpoint for a route, and how it turns the answer into what
    the page displays. */
module OrsRouting {
  import opened Wrappers
  import opened Geo
  import Decimal

  /** The two positions a directions request carries, `start=lng,lat` and
      `end=lng,lat`, in GeoJSON order (RFC 7946, section 3.1.1). */
  datatype RouteQuery = RouteQuery(start: Position, end: Position)

  /** The directions answer: the route geometry as GeoJSON positions
      `[lng, lat]`, the distance already formatted in kilometres, and the
      duration in whole seconds; or a failure of the fetch or of reading
      the answer. */
  datatype RouteResponse =
    | RouteFailed
    | RouteFound(coordinates: seq<Position>, distanceKm: string, durationSeconds: nat)

  /** What a successful answer makes the page display. */
  datatype RouteUpdate = RouteUpdate(routeCoords: seq<Position>, distance: string, duration: string)

  /** The fetch guard: a request is made exactly when both points are set. */
  function RouteRequest(pointA: Option<LatLng>, pointB: Option<LatLng>): (q: Option<RouteQuery>)
    ensures q.Some? <==> pointA.Some? && pointB.Some?
    ensures q.Some? ==> q.value.start == (pointA.value.lng, pointA.value.lat)
    ensures q.Some? ==> q.value.end == (pointB.value.lng, pointB.value.lat)
  {
    if pointA.None? || pointB.None? then None
    else Some(RouteQuery((pointA.value.lng, pointA.value.lat), (pointB.value.lng, pointB.value.lat)))
  }

  function SwapPosition<T>(p: (T, T)): (T, T) {
    (p.1, p.0)
  }

  /** `coordinates.map(([lng, lat]) => [lat, lng])`: same length, same order,
      each position with its two coordinates exchanged. */
  function ToLatLng<T>(coords: seq<(T, T)>): (r: seq<(T, T)>)
    ensures |r| == |coords|
    ensures forall i :: 0 <= i < |coords| ==> r[i] == (coords[i].1, coords[i].0)
  {
    if coords == [] then [] else [SwapPosition(coords[0])] + ToLatLng(coords[1..])
  }

  /** Swapping twice gives back the geometry as it arrived. */
  lemma ToLatLngInvolution<T>(coords: seq<(T, T)>)
    ensures ToLatLng(ToLatLng(coords)) == coords
  {
  }

  /** The positions of a request, swapped as the answer is, are the two points
      in display order. */
  lemma RequestSwapsBack(a: LatLng, b: LatLng)
    ensures RouteRequest(Some(a), Some(b)).Some?
    ensures ToLatLng([RouteRequest(Some(a), Some(b)).value.start, RouteRequest(Some(a), Some(b)).value.end])
            == [(a.lat, a.lng), (b.lat, b.lng)]
  {
  }

  /** Hours and minutes of a duration in whole seconds, by floor division and
      remainder: the minutes stay below 60 and together they count the whole
      minutes of the duration. */
  function DurationParts(seconds: nat): (hm: (nat, nat))
    ensures hm.1 < 60
    ensures hm.0 * 60 + hm.1 == seconds / 60
    ensures hm.0 == seconds / 3600
  {
    var totalMinutes := seconds / 60;
    (totalMinutes / 60, totalMinutes % 60)
  }

  /** The duration label `${hours}h ${minutes}m`. It can be read back: it
      names exactly the hours and minutes of the duration. */
  function DurationLabel(seconds: nat): (text: string)
    ensures ParseDurationLabel(text) == Some(DurationParts(seconds))
  {
    var hm := DurationParts(seconds);
    HoursMinutesReadBack(hm.0, hm.1);
    Decimal.FromNat(hm.0) + "h " + Decimal.FromNat(hm.1) + "m"
  }

  /** Reads a label of the form `<digits>h <digits>m` back into its hours and
      minutes; None for any other text. */
  function ParseDurationLabel(text: string): Option<(nat, nat)> {
    var i := Decimal.DigitRun(text);
    if i == 0 || |text| < i + 2 || text[i..i + 2] != "h " then None
    else
      var rest := text[i + 2..];
      var j := Decimal.DigitRun(rest);
      if j == 0 || rest[j..] != "m" then None
      else Some((Decimal.Value(text[..i]), Decimal.Value(rest[..j])))
  }

  /** Any hours and minutes printed as `${h}h ${m}m` read back as themselves. */
  lemma {:induction false} HoursMinutesReadBack(hours: nat, minutes: nat)
    ensures ParseDurationLabel(Decimal.FromNat(hours) + "h " + Decimal.FromNat(minutes) + "m") == Some((hours, minutes))
  {
    var h, m := Decimal.FromNat(hours), Decimal.FromNat(minutes);
    var text := h + "h " + m + "m";
    assert text == h + ("h " + m + "m");
    Decimal.DigitRunOfDigits(h, "h " + m + "m");
    assert text[..|h|] == h;
    assert text[|h|..|h| + 2] == "h ";
    var rest := text[|h| + 2..];
    assert rest == m + "m";
    Decimal.DigitRunOfDigits(m, "m");
    assert rest[..|m|] == m;
    assert rest[|m|..] == "m";
  }

  /** Two durations get the same label exactly when they have the same number
      of whole minutes: the label drops the seconds and nothing else. */
  lemma DurationLabelInjective(s1: nat, s2: nat)
    ensures DurationLabel(s1) == DurationLabel(s2) <==> s1 / 60 == s2 / 60
  {
  }

  /** 3661 seconds are one hour, one minute and one second. */
  lemma DurationLabelExample()
    ensures DurationLabel(3661) == "1h 1m"
  {
  }

  /** `setRouteCoords`, `setDistance`, `setDuration` after an answer: nothing
      after a failure; otherwise the geometry in display order, the distance
      text and the duration label. */
  function RouteResult(response: RouteResponse): (u: Option<RouteUpdate>)
    ensures u.Some? <==> response.RouteFound?
    ensures u.Some? ==> |u.value.routeCoords| == |response.coordinates|
    ensures u.Some? ==> forall i :: 0 <= i < |response.coordinates| ==>
              u.value.routeCoords[i] == (response.coordinates[i].1, response.coordinates[i].0)
    ensures u.Some? ==> u.value.distance == response.distanceKm
    ensures u.Some? ==> u.value.duration == DurationLabel(response.durationSeconds)
  {
    match response
    case RouteFailed => None
    case RouteFound(coordinates, distanceKm, durationSeconds) =>
      Some(RouteUpdate(ToLatLng(coordinates), distanceKm, DurationLabel(durationSeconds)))
  }
}
