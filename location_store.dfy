/** The Angular `LocationService`: three BehaviorSubject slots (current
    location, destination, route points), each overwritten by `next()`.
    `emitted` records every value pushed, in order, so that "each call
    emits once, equal values included" can be stated. */
module LocationStore {
  import opened Geo

  /** {start, end}: two [lat, lng] arrays. */
  datatype RoutePoints = RoutePoints(start: Pair, end: Pair)

  /** One `next()` on one of the three subjects. */
  datatype Emission =
    | CurrentEmitted(current: Loc)
    | DestinationEmitted(destination: Loc)
    | RoutePointsEmitted(points: RoutePoints)

  /** The route endpoints `setDestination` derives: the held current location
      and the new destination, both as [lat, lng]. */
  function EndpointsFrom(current: Loc, destination: Loc): RoutePoints {
    RoutePoints((current.lat, current.lng), (destination.lat, destination.lng))
  }

  /** The route endpoints a destination leads to: new ones when a current
      location is held, the previous ones (possibly none) otherwise. */
  function RoutePointsAfter(current: Option<Loc>, destination: Loc, previous: Option<RoutePoints>): Option<RoutePoints> {
    if current.Some? then Some(EndpointsFrom(current.value, destination)) else previous
  }

  /** What `setDestination` pushes, in order: the destination, then the route
      points when a current location is held. */
  function SetDestinationEmissions(current: Option<Loc>, destination: Loc): (es: seq<Emission>)
    ensures |es| == (if current.Some? then 2 else 1) && es[0] == DestinationEmitted(destination)
    ensures current.Some? ==>
      es[1] == RoutePointsEmitted(RoutePoints((current.value.lat, current.value.lng), (destination.lat, destination.lng)))
  {
    [DestinationEmitted(destination)]
      + (if current.Some? then [RoutePointsEmitted(EndpointsFrom(current.value, destination))] else [])
  }

  class LocationService {
    var current: Option<Loc>
    var destination: Option<Loc>
    var routePoints: Option<RoutePoints>
    /** Every value pushed into the three subjects, in order. */
    var emitted: seq<Emission>

    /** All three subjects start out holding null. */
    constructor ()
      ensures current == None && destination == None && routePoints == None
      ensures emitted == []
    {
      current, destination, routePoints := None, None, None;
      emitted := [];
    }

    /** `updateLocation`: replaces the current location only; the route
        points keep whatever start they were given. */
    method UpdateLocation(l: Loc)
      modifies this
      ensures current == Some(l)
      ensures destination == old(destination) && routePoints == old(routePoints)
      ensures emitted == old(emitted) + [CurrentEmitted(l)]
    {
      current := Some(l);
      emitted := emitted + [CurrentEmitted(l)];
    }

    /** `setRoutePoints`: replaces the route points with exactly {start, end}. */
    method SetRoutePoints(start: Pair, end: Pair)
      modifies this
      ensures routePoints == Some(RoutePoints(start, end))
      ensures current == old(current) && destination == old(destination)
      ensures emitted == old(emitted) + [RoutePointsEmitted(RoutePoints(start, end))]
    {
      routePoints := Some(RoutePoints(start, end));
      emitted := emitted + [RoutePointsEmitted(RoutePoints(start, end))];
    }

    /** `setDestination`: replaces the destination, never the current
        location, and derives the route points from the current location
        held at this moment, if any. */
    method SetDestination(l: Loc)
      modifies this
      ensures destination == Some(l) && current == old(current)
      ensures old(current).Some? ==>
        routePoints == Some(RoutePoints((old(current).value.lat, old(current).value.lng), (l.lat, l.lng)))
      ensures old(current).None? ==> routePoints == old(routePoints)
      ensures emitted == old(emitted) + SetDestinationEmissions(old(current), l)
    {
      destination := Some(l);
      emitted := emitted + [DestinationEmitted(l)];
      if current.Some? {
        var c := current.value;
        SetRoutePoints((c.lat, c.lng), (l.lat, l.lng));
      }
    }
  }

  /** The two calls the views make on the service, replayed from the
      initial state (all three slots null). */
  datatype Call = Update(location: Loc) | SetDest(location: Loc)

  datatype Slots = Slots(current: Option<Loc>, destination: Option<Loc>, routePoints: Option<RoutePoints>)

  /** One call, with the effect on the slots that the methods above ensure. */
  function Apply(s: Slots, c: Call): Slots {
    match c
    case Update(l) => s.(current := Some(l))
    case SetDest(l) => Slots(s.current, Some(l), RoutePointsAfter(s.current, l, s.routePoints))
  }

  /** Making one call on a live service moves its slots exactly as `Apply`
      says. */
  method Perform(s: LocationService, c: Call)
    modifies s
    ensures Slots(s.current, s.destination, s.routePoints)
            == Apply(Slots(old(s.current), old(s.destination), old(s.routePoints)), c)
  {
    match c
    case Update(l) => s.UpdateLocation(l);
    case SetDest(l) => s.SetDestination(l);
  }

  function Replay(calls: seq<Call>): Slots
    decreases |calls|
  {
    if |calls| == 0 then Slots(None, None, None)
    else Apply(Replay(calls[..|calls| - 1]), calls[|calls| - 1])
  }

  /** Call `i` is a `setDestination` that found a current location. */
  predicate Found(calls: seq<Call>, i: nat)
    requires i < |calls|
  {
    calls[i].SetDest? && Replay(calls[..i]).current.Some?
  }

  /** After any sequence of calls, the route points are those of the last
      `setDestination` that found a current location: from the location
      held at that moment to the destination it was given. */
  lemma {:induction false} HeldStartIsLastFound(calls: seq<Call>, i: nat)
    requires i < |calls| && Found(calls, i)
    requires forall j :: i < j < |calls| ==> !Found(calls, j)
    ensures Replay(calls).routePoints
            == Some(RoutePoints((Replay(calls[..i]).current.value.lat, Replay(calls[..i]).current.value.lng),
                                (calls[i].location.lat, calls[i].location.lng)))
    decreases |calls|
  {
    var n := |calls|;
    var init := calls[..n - 1];
    if i == n - 1 {
      assert init == calls[..i];
    } else {
      assert !Found(calls, n - 1);
      assert init[..n - 1] == calls[..n - 1];
      assert init[..i] == calls[..i];
      forall j | i < j < |init|
        ensures !Found(init, j)
      {
        assert init[..j] == calls[..j];
        assert !Found(calls, j);
      }
      assert Found(init, i);
      HeldStartIsLastFound(init, i);
    }
  }

  /** Until a `setDestination` finds a current location, there are no route
      points at all. */
  lemma {:induction false} NoPointsUntilFound(calls: seq<Call>)
    requires forall i :: 0 <= i < |calls| ==> !Found(calls, i)
    ensures Replay(calls).routePoints.None?
    decreases |calls|
  {
    if |calls| > 0 {
      var init := calls[..|calls| - 1];
      forall j | 0 <= j < |init|
        ensures !Found(init, j)
      {
        assert init[..j] == calls[..j];
        assert !Found(calls, j);
      }
      assert !Found(calls, |calls| - 1);
      assert init == calls[..|calls| - 1];
      NoPointsUntilFound(init);
    }
  }

  /** A location update after a destination does not refresh the route
      points: their start stays the location held when the destination was
      set. */
  method StaleStart(first: Loc, destination: Loc, moved: Loc) returns (rp: Option<RoutePoints>, cur: Option<Loc>)
    ensures cur == Some(moved)
    ensures rp == Some(RoutePoints((first.lat, first.lng), (destination.lat, destination.lng)))
  {
    var s := new LocationService();
    s.UpdateLocation(first);
    s.SetDestination(destination);
    s.UpdateLocation(moved);
    rp, cur := s.routePoints, s.current;
  }

  /** Equal values are not deduplicated: the same location and destination
      given twice are pushed twice. */
  method NoDeduplication(l: Loc, d: Loc) returns (es: seq<Emission>)
    ensures es == [CurrentEmitted(l), CurrentEmitted(l),
                   DestinationEmitted(d), RoutePointsEmitted(EndpointsFrom(l, d)),
                   DestinationEmitted(d), RoutePointsEmitted(EndpointsFrom(l, d))]
  {
    var s := new LocationService();
    s.UpdateLocation(l);
    s.UpdateLocation(l);
    s.SetDestination(d);
    s.SetDestination(d);
    es := s.emitted;
  }

  /** A destination chosen before any location is known yields no route
      points, and the later location does not create them either. */
  method DestinationFirst(d: Loc, l: Loc) returns (rp: Option<RoutePoints>, dest: Option<Loc>)
    ensures rp == None && dest == Some(d)
  {
    var s := new LocationService();
    s.SetDestination(d);
    s.UpdateLocation(l);
    rp, dest := s.routePoints, s.destination;
  }
}
