/** The map page's point-selection state: the two points, the route geometry
    and the distance and duration texts, the transitions that map clicks,
    searches and routing answers make on them, and a class holding the same
    state cells that the page's handlers update. */
module MapPage {
  import opened Wrappers
  import opened Geo
  import Geocode
  import OrsRouting

  /** The state cells `pointA`, `pointB`, `routeCoords`, `distance`, `duration`. */
  datatype PageState = PageState(
    pointA: Option<LatLng>,
    pointB: Option<LatLng>,
    routeCoords: seq<Position>,
    distance: Option<string>,
    duration: Option<string>)

  /** Points are filled in order: B is never set while A is not. */
  predicate PairOrdered(s: PageState) {
    s.pointB.Some? ==> s.pointA.Some?
  }

  function PointsSet(s: PageState): nat {
    (if s.pointA.Some? then 1 else 0) + (if s.pointB.Some? then 1 else 0)
  }

  /** The page as it first renders: no point, no route, no summary. */
  function Initial(): (s: PageState)
    ensures PairOrdered(s) && PointsSet(s) == 0
    ensures s.routeCoords == [] && s.distance == None && s.duration == None
  {
    PageState(None, None, [], None, None)
  }

  /** `handleMapClick`: fill A, else fill B, else restart the pair with the
      click as the new A. Whatever the state, the click lands in a point, A is
      set afterwards, and the summary texts are left alone. */
  function Click(s: PageState, latlng: LatLng): (t: PageState)
    ensures t.pointA == Some(latlng) || t.pointB == Some(latlng)
    ensures PairOrdered(t)
    ensures t.distance == s.distance && t.duration == s.duration
  {
    if s.pointA.None? then s.(pointA := Some(latlng))
    else if s.pointB.None? then s.(pointB := Some(latlng))
    else s.(pointA := Some(latlng), pointB := None, routeCoords := [])
  }

  /** `handleSearch` once both lookups have answered: both points are taken
      only when both lookups gave coordinates; otherwise nothing changes. */
  function Search(s: PageState, fromCoords: Option<LatLng>, toCoords: Option<LatLng>): (t: PageState)
    ensures fromCoords.Some? && toCoords.Some? ==> t == s.(pointA := fromCoords, pointB := toCoords)
    ensures fromCoords.None? || toCoords.None? ==> t == s
    ensures PairOrdered(s) ==> PairOrdered(t)
  {
    if fromCoords.Some? && toCoords.Some? then s.(pointA := fromCoords, pointB := toCoords) else s
  }

  /** The routing component's effect: no request without both points; after a
      successful answer the route and the summary texts are replaced; the
      points are never touched. */
  function RouteEffect(s: PageState, response: OrsRouting.RouteResponse): (t: PageState)
    ensures t.pointA == s.pointA && t.pointB == s.pointB
    ensures OrsRouting.RouteRequest(s.pointA, s.pointB).None? || response.RouteFailed? ==> t == s
    ensures OrsRouting.RouteRequest(s.pointA, s.pointB).Some? && response.RouteFound? ==>
              t.routeCoords == OrsRouting.ToLatLng(response.coordinates)
              && t.distance == Some(response.distanceKm)
              && t.duration == Some(OrsRouting.DurationLabel(response.durationSeconds))
  {
    if OrsRouting.RouteRequest(s.pointA, s.pointB).None? then s
    else
      match OrsRouting.RouteResult(response)
      case None => s
      case Some(u) => s.(routeCoords := u.routeCoords, distance := Some(u.distance), duration := Some(u.duration))
  }

  /** Clicking with no A sets A and nothing else. */
  lemma ClickFillsAFirst(s: PageState, latlng: LatLng)
    requires s.pointA.None?
    ensures Click(s, latlng) == s.(pointA := Some(latlng))
  {
  }

  /** Clicking with A set and no B sets B and nothing else. */
  lemma ClickFillsBSecond(s: PageState, latlng: LatLng)
    requires s.pointA.Some? && s.pointB.None?
    ensures Click(s, latlng) == s.(pointB := Some(latlng))
  {
  }

  /** A click on a full pair restarts it: exactly one point, the click, is
      set, the route is cleared, and the summary texts stay as they were. */
  lemma ThirdClickRestartsPair(s: PageState, latlng: LatLng)
    requires s.pointA.Some? && s.pointB.Some?
    ensures Click(s, latlng).pointA == Some(latlng) && Click(s, latlng).pointB == None
    ensures PointsSet(Click(s, latlng)) == 1
    ensures Click(s, latlng).routeCoords == []
    ensures Click(s, latlng).distance == s.distance && Click(s, latlng).duration == s.duration
  {
  }

  /** From the initial page, three clicks leave only the third one set. */
  lemma ThreeClicksFromStart(p: LatLng, q: LatLng, r: LatLng)
    ensures Click(Click(Initial(), p), q).pointA == Some(p)
    ensures Click(Click(Initial(), p), q).pointB == Some(q)
    ensures Click(Click(Click(Initial(), p), q), r) == Initial().(pointA := Some(r))
  {
  }

  /** Something that happens on the page. */
  datatype Event =
    | MapClick(latlng: LatLng)
    | SearchDone(fromResponse: Geocode.GeocodeResponse, toResponse: Geocode.GeocodeResponse)
    | RouteArrived(response: OrsRouting.RouteResponse)

  function Step(s: PageState, e: Event): PageState {
    match e
    case MapClick(latlng) => Click(s, latlng)
    case SearchDone(fromResponse, toResponse) =>
      Search(s, Geocode.GetCoordinates(fromResponse), Geocode.GetCoordinates(toResponse))
    case RouteArrived(response) => RouteEffect(s, response)
  }

  function Run(s: PageState, events: seq<Event>): PageState
    decreases |events|
  {
    if events == [] then s else Run(Step(s, events[0]), events[1..])
  }

  /** "B set implies A set" survives any sequence of clicks, searches and
      routing answers. */
  lemma {:induction false} RunPreservesPairOrdered(s: PageState, events: seq<Event>)
    requires PairOrdered(s)
    ensures PairOrdered(Run(s, events))
    decreases |events|
  {
    if events != [] {
      RunPreservesPairOrdered(Step(s, events[0]), events[1..]);
    }
  }

  /** Every state the page can reach has its points in order, so when only
      one point is live it is A, never B alone. */
  lemma ReachableStatesOrdered(events: seq<Event>)
    ensures PairOrdered(Run(Initial(), events))
    ensures PointsSet(Run(Initial(), events)) == 1 ==>
              Run(Initial(), events).pointA.Some? && Run(Initial(), events).pointB.None?
  {
    RunPreservesPairOrdered(Initial(), events);
  }

  /** The page's state cells, updated in place by its handlers. */
  class Page {
    var pointA: Option<LatLng>
    var pointB: Option<LatLng>
    var routeCoords: seq<Position>
    var distance: Option<string>
    var duration: Option<string>

    function State(): PageState
      reads this
    {
      PageState(pointA, pointB, routeCoords, distance, duration)
    }

    predicate Valid()
      reads this
    {
      PairOrdered(State())
    }

    /** The `useState` initial values. */
    constructor ()
      ensures State() == Initial() && Valid()
    {
      pointA, pointB, routeCoords, distance, duration := None, None, [], None, None;
    }

    method HandleMapClick(latlng: LatLng)
      modifies this
      ensures State() == Click(old(State()), latlng)
      ensures Valid()
      ensures old(pointA).None? ==>
                pointA == Some(latlng) && pointB == old(pointB) && routeCoords == old(routeCoords)
      ensures old(pointA).Some? && old(pointB).None? ==>
                pointA == old(pointA) && pointB == Some(latlng) && routeCoords == old(routeCoords)
      ensures old(pointA).Some? && old(pointB).Some? ==>
                pointA == Some(latlng) && pointB == None && routeCoords == []
      ensures distance == old(distance) && duration == old(duration)
    {
      if pointA.None? {
        pointA := Some(latlng);
      } else if pointB.None? {
        pointB := Some(latlng);
      } else {
        pointA := Some(latlng);
        pointB := None;
        routeCoords := [];
      }
    }

    /** Both lookups are always made, the second even when the first failed. */
    method HandleSearch(fromResponse: Geocode.GeocodeResponse, toResponse: Geocode.GeocodeResponse)
      modifies this
      ensures State() == Search(old(State()), Geocode.GetCoordinates(fromResponse), Geocode.GetCoordinates(toResponse))
      ensures old(Valid()) ==> Valid()
    {
      var fromCoords := Geocode.GetCoordinates(fromResponse);
      var toCoords := Geocode.GetCoordinates(toResponse);
      if fromCoords.Some? && toCoords.Some? {
        pointA := fromCoords;
        pointB := toCoords;
      }
    }

    /** The routing component's effect for the current pair: returns the
        request it makes, if any, and applies the answer the service gave. */
    method FetchRoute(response: OrsRouting.RouteResponse) returns (request: Option<OrsRouting.RouteQuery>)
      modifies this
      ensures request == OrsRouting.RouteRequest(old(pointA), old(pointB))
      ensures request.None? ==> State() == old(State())
      ensures State() == RouteEffect(old(State()), response)
      ensures old(Valid()) ==> Valid()
    {
      request := OrsRouting.RouteRequest(pointA, pointB);
      if request.None? {
        return;
      }
      var update := OrsRouting.RouteResult(response);
      if update.Some? {
        routeCoords := update.value.routeCoords;
        distance := Some(update.value.distance);
        duration := Some(update.value.duration);
      }
    }
  }
}
