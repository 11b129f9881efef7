// The follow-up rule shared by the initiation and handover handlers: when the
// car reaches the next station and whether the call is then handed over or ends.

module FollowUp {
  import opened Events

  /** Number of base stations built along the route. */
  const NumStations: nat := 20

  /** Length of the stretch of road a station covers, in the pseudocode's distance units. */
  const SegmentLength: real := 2000.0

  /** Time the car needs to leave the current stretch from `position`. */
  function TimeRemaining(position: real, speed: real): real
    requires speed != 0.0
  {
    (SegmentLength - position) / speed
  }

  /**
   * The end-of-route test as the handlers write it: the car has a next
   * station unless it heads for station 20 from id 20, or for station 1
   * from id 1.
   */
  predicate NeighbourExists(stationId: int, direction: Direction)
  {
    (direction == ToLastStation && stationId != 20) ||
    (direction == ToFirstStation && stationId != 1)
  }

  /**
   * Index of the station a handover moves to: one up the route or one down.
   * From a built station it lies inside the station array exactly when the
   * car is not at the last index heading up or at index 0 heading down.
   */
  function TargetIndex(stationId: int, direction: Direction): (k: int)
    ensures 0 <= stationId < NumStations ==>
              (0 <= k < NumStations <==>
                 (direction.ToLastStation? && stationId != NumStations - 1) ||
                 (direction.ToFirstStation? && stationId != 0))
  {
    if direction == ToLastStation then stationId + 1 else stationId - 1
  }

  /**
   * The single event scheduled after an initiation or a handover, at
   * `clock` plus the time left on the current stretch. It is a handover
   * carrying the rest of the call when the call outlasts the stretch and a
   * next station exists, and a termination otherwise. Either way it refers
   * to `station`, the station the handled event referred to.
   */
  function NextEvent(clock: real, id: int, direction: Direction, speed: real,
                     station: nat, stationId: int, position: real, duration: real): (r: Event)
    requires speed != 0.0
    ensures r.id == id && r.station == station
    ensures r.time == clock + TimeRemaining(position, speed)
    ensures r.Handover? <==>
              duration > TimeRemaining(position, speed) && NeighbourExists(stationId, direction)
    ensures r.Handover? ==>
              r.direction == direction && r.speed == speed &&
              r.duration == duration - TimeRemaining(position, speed)
    ensures r.Termination? <==> !r.Handover?
  {
    var timeRemaining := TimeRemaining(position, speed);
    var newEventTime := clock + timeRemaining;
    var durationOfNewEvent := duration - timeRemaining;
    if duration > timeRemaining && direction == ToLastStation && stationId != 20 then
      Handover(id, newEventTime, direction, speed, station, durationOfNewEvent)
    else if duration > timeRemaining && direction == ToFirstStation && stationId != 1 then
      Handover(id, newEventTime, direction, speed, station, durationOfNewEvent)
    else
      Termination(id, newEventTime, station)
  }

  /**
   * A car on the road (position within the stretch) moving forward is
   * never scheduled in the past.
   */
  lemma NextEventNotInPast(clock: real, id: int, direction: Direction, speed: real,
                           station: nat, stationId: int, position: real, duration: real)
    requires speed > 0.0 && 0.0 <= position <= SegmentLength
    ensures NextEvent(clock, id, direction, speed, station, stationId, position, duration).time >= clock
  {
    var t := TimeRemaining(position, speed);
    assert t * speed == SegmentLength - position;
  }

  /**
   * A scheduled handover carries a call that is still running but strictly
   * shorter than before, by the time spent on the stretch; this is what
   * bounds the chain of handovers of one call.
   */
  lemma HandoverShortensCall(clock: real, id: int, direction: Direction, speed: real,
                             station: nat, stationId: int, position: real, duration: real)
    requires speed > 0.0 && 0.0 <= position < SegmentLength
    ensures var r := NextEvent(clock, id, direction, speed, station, stationId, position, duration);
            r.Handover? ==> 0.0 < r.duration < duration
  {
    var t := TimeRemaining(position, speed);
    assert t * speed == SegmentLength - position;
  }

  /** A car at station 20 heading for it, or at station 1 heading for it, always terminates. */
  lemma EndOfRouteTerminates(clock: real, id: int, direction: Direction, speed: real,
                             station: nat, stationId: int, position: real, duration: real)
    requires speed != 0.0
    requires (direction == ToLastStation && stationId == 20) ||
             (direction == ToFirstStation && stationId == 1)
    ensures NextEvent(clock, id, direction, speed, station, stationId, position, duration).Termination?
  {
  }

  /**
   * Stations are built with ids 0 to 19, yet the end-of-route test looks
   * for 20 and 1: a long call at the last built station heading up the
   * route gets a handover whose target index is past the end of the array.
   */
  lemma LastBuiltStationHandsOverPastEnd(clock: real, speed: real, duration: real)
    requires speed > 0.0 && duration > SegmentLength / speed
    ensures var r := NextEvent(clock, 0, ToLastStation, speed, NumStations - 1, NumStations - 1, 0.0, duration);
            r.Handover? && TargetIndex(r.station, r.direction) == NumStations
  {
  }

  /**
   * The end-of-route test and the bounds of the station array disagree at
   * exactly three places along the built route: heading up from the last
   * index and heading down from index 0 the test lets a handover through to
   * an index outside the array, and heading down from index 1 it refuses a
   * handover to station 0, which exists.
   */
  lemma NeighbourTestOffByOne(stationId: int, direction: Direction)
    requires 0 <= stationId < NumStations
    ensures (NeighbourExists(stationId, direction) <==> 0 <= TargetIndex(stationId, direction) < NumStations) <==>
            !((direction == ToLastStation && stationId == NumStations - 1) ||
              (direction == ToFirstStation && stationId <= 1))
    ensures NeighbourExists(NumStations - 1, ToLastStation) && TargetIndex(NumStations - 1, ToLastStation) == NumStations
    ensures !NeighbourExists(1, ToFirstStation) && TargetIndex(1, ToFirstStation) == 0
  {
  }

  /** Likewise a long call at station 0 heading down the route targets index -1. */
  lemma FirstBuiltStationHandsOverBeforeStart(clock: real, speed: real, duration: real)
    requires speed > 0.0 && duration > SegmentLength / speed
    ensures var r := NextEvent(clock, 0, ToFirstStation, speed, 0, 0, 0.0, duration);
            r.Handover? && TargetIndex(r.station, r.direction) == -1
  {
  }
}
