// The simulation engine: the state the main routine sets up, the three event
// handlers that change it, and the driver loop that feeds them events.

module Simulation {
  import opened Events
  import opened Stations
  import opened FollowUp
  import opened Selection

  /** One row of the call data read at start-up. */
  datatype Row = Row(id: int, time: real, speed: real, station: nat, duration: real)

  /**
   * What a new call takes at start-up besides its data row: the uniform
   * draw in [0, 1) that picks its direction, and the car's position within
   * its stretch. The routine never supplies that position, though the
   * initiation handler reads one, so the model takes it as an input too.
   */
  datatype Draw = Draw(direction: real, position: real)

  /** The direction a uniform draw in [0, 1) gives a new call. */
  function DirectionOf(draw: real): Direction
  {
    if draw >= 0.5 then ToLastStation else ToFirstStation
  }

  /** The initiation event a data row becomes, heading and placed the way its draws say. */
  function InitiationFor(row: Row, draw: Draw): Event
  {
    Initiation(row.id, row.time, DirectionOf(draw.direction), row.speed, row.station, draw.position, row.duration)
  }

  /** The initiation queue built from the data: one event per row, in row order. */
  function QueuedInitiations(rows: seq<Row>, draws: seq<Draw>): (q: seq<Event>)
    requires |draws| == |rows|
    ensures |q| == |rows|
    ensures forall i :: 0 <= i < |rows| ==> q[i] == InitiationFor(rows[i], draws[i])
  {
    if rows == [] then []
    else [InitiationFor(rows[0], draws[0])] + QueuedInitiations(rows[1..], draws[1..])
  }

  /**
   * Data rows in time order, of cars moving forward, placed by their draws
   * within their stretch, and starting no earlier than time 0.
   */
  predicate InOrder(rows: seq<Row>, draws: seq<Draw>)
    requires |draws| == |rows|
  {
    (forall i :: 0 < i < |rows| ==> rows[i - 1].time <= rows[i].time) &&
    (forall i :: 0 <= i < |rows| ==>
       0.0 <= rows[i].time && rows[i].speed > 0.0 && 0.0 <= draws[i].position <= SegmentLength)
  }

  /** An event the handlers can process: its station exists and a moving car has a speed to divide by. */
  predicate Schedulable(e: Event)
  {
    e.station < NumStations && (e.Termination? || e.speed != 0.0)
  }

  predicate AllSchedulable(q: seq<Event>)
  {
    forall i :: 0 <= i < |q| ==> Schedulable(q[i])
  }

  /**
   * The one event an initiation or a handover schedules. A handover event
   * carries no car position, so its stretch is timed from position 0.
   */
  function FollowUpOf(e: Event): (r: Event)
    requires Schedulable(e) && !e.Termination?
    ensures Schedulable(r) && r.station == e.station
    ensures r.Handover? ==> r.speed == e.speed
  {
    match e
    case Initiation(id, time, direction, speed, station, position, duration) =>
      NextEvent(time, id, direction, speed, station, station, position, duration)
    case Handover(id, time, direction, speed, station, duration) =>
      NextEvent(time, id, direction, speed, station, station, 0.0, duration)
  }

  /** Scheduling a processable event keeps the FEL ordered and processable. */
  lemma ScheduleKeepsQueue(q: seq<Event>, e: Event)
    requires Sorted(q) && AllSchedulable(q) && Schedulable(e)
    ensures Sorted(InsertByTime(q, e)) && AllSchedulable(InsertByTime(q, e))
  {
    InsertKeepsSorted(q, e);
    var r := InsertByTime(q, e);
    forall i | 0 <= i < |r|
      ensures Schedulable(r[i])
    {
      InsertedMembers(q, e, r[i]);
    }
  }

  /**
   * An event of a car that moves forward along the route; an initiation also
   * places the car within its stretch.
   */
  predicate Forward(e: Event)
  {
    (e.Termination? || e.speed > 0.0) &&
    (e.Initiation? ==> 0.0 <= e.position <= SegmentLength)
  }

  /** A forward-moving car's follow-up is due no earlier than the event it follows, and moves forward too. */
  lemma FollowUpNotInPast(e: Event)
    requires Schedulable(e) && !e.Termination? && Forward(e)
    ensures e.time <= FollowUpOf(e).time && Forward(FollowUpOf(e))
  {
    var position := if e.Initiation? then e.position else 0.0;
    NextEventNotInPast(e.time, e.id, e.direction, e.speed, e.station, e.station, position, e.duration);
  }

  /** Every event of `q` is due at `clock` or later, and moves forward. */
  predicate DueFrom(q: seq<Event>, clock: real)
  {
    forall i :: 0 <= i < |q| ==> clock <= q[i].time && Forward(q[i])
  }

  /** Scheduling an event due at `clock` or later keeps the whole FEL due from `clock`. */
  lemma ScheduleDueFrom(q: seq<Event>, e: Event, clock: real)
    requires DueFrom(q, clock) && clock <= e.time && Forward(e)
    ensures DueFrom(InsertByTime(q, e), clock)
  {
    var r := InsertByTime(q, e);
    forall i | 0 <= i < |r|
      ensures clock <= r[i].time && Forward(r[i])
    {
      InsertedMembers(q, e, r[i]);
    }
  }

  /** The head the driver loop takes from the side it selects. */
  function Head(inits: seq<Event>, events: seq<Event>, side: Side): Event
    requires EarliestHead(inits, events, side)
  {
    if side == FromInitiations then inits[0] else events[0]
  }

  /**
   * With both queues time-ordered and due from `clock`, the head the loop
   * takes is due from `clock`, and everything left behind is due from the
   * taken head's time: handling events in this order never turns the clock
   * back.
   */
  lemma TakenHeadIsDue(inits: seq<Event>, events: seq<Event>, clock: real)
    requires inits != [] || events != []
    requires Sorted(inits) && Sorted(events) && DueFrom(inits, clock) && DueFrom(events, clock)
    ensures var side := SelectFixed(inits, events);
            var e := Head(inits, events, side);
            clock <= e.time && Forward(e) &&
            DueFrom(if side == FromInitiations then inits[1..] else inits, e.time) &&
            DueFrom(if side == FromEvents then events[1..] else events, e.time)
  {
    SelectedIsEarliestPending(inits, events);
    if inits != [] {
      HeadIsEarliest(inits);
    }
  }

  /** A handover whose neighbour index lies outside the station array: the handler cannot look it up. */
  predicate Misrouted(e: Event)
  {
    e.Handover? && !(0 <= TargetIndex(e.station, e.direction) < NumStations)
  }

  /** The channel state of the route after the loop hands `e` to its handler. */
  function ChannelsAfter(ss: seq<StationState>, e: Event, admit: Admission): seq<StationState>
    requires |ss| == NumStations && e.station < NumStations
  {
    if e.Initiation? then AfterInitiation(ss, e.station, admit)
    else if e.Handover? then
      if Misrouted(e) then ss
      else AfterHandover(ss, e.station, TargetIndex(e.station, e.direction), admit)
    else AfterTermination(ss, e.station)
  }

  /** Calls blocked by handling `e`: an initiation the station refuses. */
  function BlockedBy(ss: seq<StationState>, e: Event, admit: Admission): nat
    requires |ss| == NumStations && e.station < NumStations
  {
    if e.Initiation? && !admit(ss[e.station]) then 1 else 0
  }

  /** Calls dropped by handling `e`: a handover the neighbour refuses. */
  function DroppedBy(ss: seq<StationState>, e: Event, admit: Admission): nat
    requires |ss| == NumStations && e.station < NumStations
  {
    if e.Handover? && !Misrouted(e) && !admit(ss[TargetIndex(e.station, e.direction)]) then 1 else 0
  }

  /** Handovers counted by handling `e`. */
  function HandedOverBy(e: Event): nat
  {
    if e.Handover? then 1 else 0
  }

  /**
   * Right after the last initiation is handled its follow-up is pending, so
   * the loop as written goes on to read the head of the drained initiation
   * queue.
   */
  lemma LastInitiationLeavesPeekOnEmpty(q: seq<Event>, e: Event)
    requires Schedulable(e) && e.Initiation?
    ensures Select([], InsertByTime(q, FollowUpOf(e))) == InitiationPeekOnEmpty
  {
  }

  /** How one pass of the driver loop ended. */
  datatype StepOutcome =
    | Handled(e: Event, side: Side)
      /** A handover whose neighbour index lies outside the station array. */
    | Faulted(e: Event, side: Side)

  /** How the driver loop ended. */
  datatype RunOutcome =
    | Completed
    | OutOfFuel
    | NeighbourOutOfRange(e: Event)

  /** The whole state of a run, as values: what one pass or the driver loop is specified by. */
  datatype Snapshot = Snapshot(clock: real, blocked: nat, dropped: nat, handovers: nat,
                               fel: seq<Event>, inits: seq<Event>, channels: seq<StationState>)

  /** The queue and station facts every pass relies on. */
  predicate SnapshotValid(s: Snapshot)
  {
    |s.channels| == NumStations &&
    Sorted(s.fel) && AllSchedulable(s.fel) && AllSchedulable(s.inits) &&
    (forall i :: 0 <= i < |s.inits| ==> s.inits[i].Initiation?)
  }

  /**
   * Taking the next event off a state's queues: the head the corrected
   * selection names leaves its queue, and nothing else changes.
   */
  function TakeOf(s: Snapshot): (r: (Event, Side, Snapshot))
    requires SnapshotValid(s) && (s.inits != [] || s.fel != [])
    ensures SnapshotValid(r.2) && Schedulable(r.0)
    ensures r.1 == SelectFixed(s.inits, s.fel) && r.0 == Head(s.inits, s.fel, r.1)
    ensures r.2 == s.(inits := r.2.inits, fel := r.2.fel)
    ensures r.1 == FromInitiations ==> r.2.inits == s.inits[1..] && r.2.fel == s.fel
    ensures r.1 == FromEvents ==> r.2.fel == s.fel[1..] && r.2.inits == s.inits
    ensures |r.2.inits| + |r.2.fel| + 1 == |s.inits| + |s.fel|
  {
    var side := SelectFixed(s.inits, s.fel);
    if side == FromInitiations then
      (s.inits[0], side, s.(inits := s.inits[1..]))
    else
      SortedTail(s.fel);
      (s.fel[0], side, s.(fel := s.fel[1..]))
  }

  /** The FEL after handling `e`: its follow-up added, unless it ends a call or cannot be routed. */
  function FelAfter(fel: seq<Event>, e: Event): (r: seq<Event>)
    requires Sorted(fel) && AllSchedulable(fel) && Schedulable(e)
    ensures Sorted(r) && AllSchedulable(r)
    ensures |r| == |fel| + (if e.Termination? || Misrouted(e) then 0 else 1)
  {
    if e.Termination? || Misrouted(e) then fel
    else
      ScheduleKeepsQueue(fel, FollowUpOf(e));
      InsertByTime(fel, FollowUpOf(e))
  }

  /**
   * Handling one event on a state: the clock moves to it, the channels and
   * counters change as its handler says, and an initiation or a routable
   * handover schedules its follow-up.
   */
  function DispatchOf(s: Snapshot, e: Event, admit: Admission): (r: Snapshot)
    requires SnapshotValid(s) && Schedulable(e)
    ensures SnapshotValid(r) && r.clock == e.time && r.inits == s.inits
    ensures |r.fel| == |s.fel| + (if e.Termination? || Misrouted(e) then 0 else 1)
  {
    Snapshot(e.time,
             s.blocked + BlockedBy(s.channels, e, admit),
             s.dropped + DroppedBy(s.channels, e, admit),
             s.handovers + HandedOverBy(e),
             FelAfter(s.fel, e), s.inits, ChannelsAfter(s.channels, e, admit))
  }

  /** One pass of the driver loop on a state: take the next event, then handle it. */
  function StepOf(s: Snapshot, admit: Admission): (r: (Snapshot, StepOutcome))
    requires SnapshotValid(s) && (s.inits != [] || s.fel != [])
    ensures SnapshotValid(r.0)
    ensures r.1.side == SelectFixed(s.inits, s.fel) && r.1.e == Head(s.inits, s.fel, r.1.side)
    ensures r.1.Faulted? <==> Misrouted(r.1.e)
    ensures r.0.clock == r.1.e.time
    ensures |r.0.inits| + |r.0.fel| ==
              |s.inits| + |s.fel| - (if r.1.e.Termination? || r.1.Faulted? then 1 else 0)
  {
    var (e, side, taken) := TakeOf(s);
    (DispatchOf(taken, e, admit), if Misrouted(e) then Faulted(e, side) else Handled(e, side))
  }

  /** The bound left after one pass of the driver loop. */
  function Less(fuel: nat): (left: nat)
    requires fuel > 0
    ensures left < fuel
  {
    fuel - 1
  }

  /**
   * The driver loop on a state, for at most `fuel` passes: it completes
   * when both queues are empty, and stops at the first misrouted handover.
   */
  function RunOf(s: Snapshot, fuel: nat, admit: Admission): (r: (Snapshot, RunOutcome))
    requires SnapshotValid(s)
    ensures SnapshotValid(r.0)
    decreases fuel
  {
    if s.inits == [] && s.fel == [] then (s, Completed)
    else if fuel == 0 then (s, OutOfFuel)
    else
      var step := StepOf(s, admit);
      if step.1.Faulted? then (step.0, NeighbourOutOfRange(step.1.e))
      else RunOf(step.0, Less(fuel), admit)
  }

  /** A run with fuel left and an event pending is one pass followed by the rest of the run. */
  lemma RunOfUnfold(s: Snapshot, fuel: nat, admit: Admission)
    requires SnapshotValid(s) && (s.inits != [] || s.fel != []) && fuel > 0
    ensures var (next, outcome) := StepOf(s, admit);
            RunOf(s, fuel, admit) ==
              if outcome.Faulted? then (next, NeighbourOutOfRange(outcome.e)) else RunOf(next, Less(fuel), admit)
  {
  }

  /** The clock invariant on a state: initiations in time order, both queues due from the clock. */
  predicate OnScheduleOf(s: Snapshot)
  {
    Sorted(s.inits) && DueFrom(s.inits, s.clock) && DueFrom(s.fel, s.clock)
  }

  /** One pass keeps the clock invariant and never turns the clock back. */
  lemma StepOfOnSchedule(s: Snapshot, admit: Admission)
    requires SnapshotValid(s) && (s.inits != [] || s.fel != []) && OnScheduleOf(s)
    ensures OnScheduleOf(StepOf(s, admit).0) && s.clock <= StepOf(s, admit).0.clock
  {
    TakenHeadIsDue(s.inits, s.fel, s.clock);
    var (e, side, taken) := TakeOf(s);
    if side == FromInitiations {
      SortedTail(s.inits);
    }
    if !e.Termination? && !Misrouted(e) {
      FollowUpNotInPast(e);
      ScheduleDueFrom(taken.fel, FollowUpOf(e), e.time);
    }
  }

  /** A whole run keeps the clock invariant and never turns the clock back. */
  lemma {:induction false} RunOfOnSchedule(s: Snapshot, fuel: nat, admit: Admission)
    requires SnapshotValid(s) && OnScheduleOf(s)
    ensures OnScheduleOf(RunOf(s, fuel, admit).0) && s.clock <= RunOf(s, fuel, admit).0.clock
    decreases fuel
  {
    if !(s.inits == [] && s.fel == []) && fuel != 0 {
      StepOfOnSchedule(s, admit);
      var step := StepOf(s, admit);
      if !step.1.Faulted? {
        RunOfOnSchedule(step.0, Less(fuel), admit);
      }
    }
  }

  /**
   * What a run ends with: a completed run has handled every event, one out
   * of fuel still has some, a fault names a misrouted handover; counters
   * never fall, and every dropped call was a handover.
   */
  lemma {:induction false} RunOfOutcome(s: Snapshot, fuel: nat, admit: Admission)
    requires SnapshotValid(s)
    ensures var (t, outcome) := RunOf(s, fuel, admit);
            (outcome == Completed ==> t.inits == [] && t.fel == []) &&
            (outcome == OutOfFuel ==> t.inits != [] || t.fel != []) &&
            (outcome.NeighbourOutOfRange? ==> Misrouted(outcome.e)) &&
            s.blocked <= t.blocked && s.handovers <= t.handovers && s.dropped <= t.dropped &&
            t.dropped - s.dropped <= t.handovers - s.handovers
    decreases fuel
  {
    if !(s.inits == [] && s.fel == []) && fuel != 0 {
      var step := StepOf(s, admit);
      if !step.1.Faulted? {
        RunOfOutcome(step.0, Less(fuel), admit);
      }
    }
  }

  class Engine {
    /** The FCA scheme's admission test `canHandleCall`. */
    const canHandleCall: Admission
    const baseStations: seq<BaseStation>
    var simClock: real
    var numCallsDropped: nat
    var numCallsBlocked: nat
    var numCallsHandover: nat
    /** The Future Event List, ordered by time. */
    var eventQueue: seq<Event>
    /** The pre-built call initiations, first in first out. */
    var callInitiationEvents: seq<Event>
    /** The channel state of every station, by index. */
    ghost var Channels: seq<StationState>

    ghost predicate Valid()
      reads this, baseStations
    {
      StationsValid() && QueuesValid()
    }

    /** Station `i` has id `i`, and `Channels` mirrors the stations' channel counts. */
    ghost predicate StationsValid()
      reads this`Channels, baseStations
    {
      |baseStations| == NumStations && |Channels| == NumStations &&
      forall i :: 0 <= i < NumStations ==>
        baseStations[i].id == i && baseStations[i].State() == Channels[i]
    }

    /** The FEL is time-ordered, and every queued event can be handled. */
    ghost predicate QueuesValid()
      reads this`eventQueue, this`callInitiationEvents
    {
      Sorted(eventQueue) && AllSchedulable(eventQueue) &&
      AllSchedulable(callInitiationEvents) &&
      (forall i :: 0 <= i < |callInitiationEvents| ==> callInitiationEvents[i].Initiation?)
    }

    /**
     * Sets up a run: an empty FEL, a zero clock and counters, the stations
     * with ids 0 to 19 and every channel free, and one initiation per data
     * row, in row order.
     */
    constructor (rows: seq<Row>, draws: seq<Draw>, channels: nat, reserved: nat, canHandleCall: Admission)
      requires |draws| == |rows|
      requires forall i :: 0 <= i < |rows| ==> rows[i].station < NumStations && rows[i].speed != 0.0
      ensures Valid()
      ensures this.canHandleCall == canHandleCall
      ensures simClock == 0.0
      ensures numCallsDropped == 0 && numCallsBlocked == 0 && numCallsHandover == 0
      ensures eventQueue == []
      ensures callInitiationEvents == QueuedInitiations(rows, draws)
      ensures forall i :: 0 <= i < |baseStations| ==> fresh(baseStations[i])
      ensures forall i :: 0 <= i < NumStations ==> Channels[i] == StationState(i, channels, channels, reserved)
      ensures InOrder(rows, draws) ==> OnSchedule()
    {
      var stations: seq<BaseStation> := [];
      ghost var states: seq<StationState> := [];
      for num := 0 to NumStations
        invariant |stations| == num && |states| == num
        invariant forall i :: 0 <= i < num ==>
                    fresh(stations[i]) && stations[i].id == i &&
                    stations[i].State() == states[i] == StationState(i, channels, channels, reserved)
      {
        var station := new BaseStation(num, channels, reserved);
        stations := stations + [station];
        states := states + [station.State()];
      }
      var initiations: seq<Event> := [];
      for row := 0 to |rows|
        invariant |initiations| == row
        invariant forall i :: 0 <= i < row ==> initiations[i] == InitiationFor(rows[i], draws[i])
      {
        var direction := DirectionOf(draws[row].direction);
        var currData := rows[row];
        var event := Initiation(currData.id, currData.time, direction, currData.speed,
                                currData.station, draws[row].position, currData.duration);
        initiations := initiations + [event];
      }
      this.canHandleCall := canHandleCall;
      baseStations := stations;
      Channels := states;
      simClock := 0.0;
      numCallsDropped, numCallsBlocked, numCallsHandover := 0, 0, 0;
      eventQueue := [];
      callInitiationEvents := initiations;
    }

    /**
     * Schedules the follow-up of an initiation or a handover that is being
     * handled now: the next event computed from the car's stretch, added to
     * the FEL in time order.
     */
    method ScheduleFollowUp(E: Event)
      requires StationsValid() && QueuesValid()
      requires Schedulable(E) && !E.Termination? && simClock == E.time
      modifies this`eventQueue
      ensures QueuesValid()
      ensures eventQueue == InsertByTime(old(eventQueue), FollowUpOf(E))
    {
      var currStation := baseStations[E.station];
      var position := if E.Initiation? then E.position else 0.0;
      var nextEvent := NextEvent(simClock, E.id, E.direction, E.speed, E.station, currStation.id,
                                 position, E.duration);
      ScheduleKeepsQueue(eventQueue, nextEvent);
      eventQueue := InsertByTime(eventQueue, nextEvent);
    }

    /** Station `k` frees one channel, and `Channels` follows. */
    method ReleaseAt(k: nat)
      requires StationsValid() && k < NumStations
      modifies this`Channels, baseStations[k]
      ensures StationsValid()
      ensures Channels == old(Channels)[k := Released(old(Channels)[k])]
    {
      baseStations[k].ReleaseChannel();
      Channels := Channels[k := Released(Channels[k])];
    }

    /** Station `k` assigns one channel, and `Channels` follows. */
    method AssignAt(k: nat)
      requires StationsValid() && k < NumStations
      modifies this`Channels, baseStations[k]
      ensures StationsValid()
      ensures Channels == old(Channels)[k := Assigned(old(Channels)[k])]
    {
      baseStations[k].AssignChannel();
      Channels := Channels[k := Assigned(Channels[k])];
    }

    /**
     * Handles a call initiation: the clock moves to the event, its follow-up
     * is scheduled whether or not the call gets a channel, and the station
     * either assigns one channel or the call counts as blocked.
     */
    method HandleCallInitiation(E: Event)
      requires Valid() && E.Initiation? && Schedulable(E)
      modifies this, baseStations[E.station]
      ensures Valid()
      ensures simClock == E.time
      ensures eventQueue == InsertByTime(old(eventQueue), FollowUpOf(E))
      ensures callInitiationEvents == old(callInitiationEvents)
      ensures numCallsDropped == old(numCallsDropped) && numCallsHandover == old(numCallsHandover)
      ensures Channels == AfterInitiation(old(Channels), E.station, canHandleCall)
      ensures numCallsBlocked == old(numCallsBlocked) + if old(canHandleCall(Channels[E.station])) then 0 else 1
    {
      simClock := E.time;
      var currStation := baseStations[E.station];
      ScheduleFollowUp(E);
      if canHandleCall(currStation.State()) {
        AssignAt(E.station);
      } else {
        numCallsBlocked := numCallsBlocked + 1;
      }
    }

    /**
     * Handles a handover: the clock moves to the event, the handover is
     * counted, the current station frees its channel, and the neighbour in
     * the direction of travel either assigns one channel or the call counts
     * as dropped. One follow-up is scheduled either way, and it still refers
     * to the station the handover left. The neighbour index must lie inside
     * the station array.
     */
    method HandleCallHandover(E: Event)
      requires Valid() && E.Handover? && Schedulable(E)
      requires 0 <= TargetIndex(E.station, E.direction) < NumStations
      modifies this, baseStations[E.station], baseStations[TargetIndex(E.station, E.direction)]
      ensures Valid()
      ensures simClock == E.time
      ensures numCallsHandover == old(numCallsHandover) + 1
      ensures numCallsBlocked == old(numCallsBlocked)
      ensures eventQueue == InsertByTime(old(eventQueue), FollowUpOf(E))
      ensures callInitiationEvents == old(callInitiationEvents)
      ensures Channels == AfterHandover(old(Channels), E.station, TargetIndex(E.station, E.direction), canHandleCall)
      ensures numCallsDropped ==
                old(numCallsDropped) + if old(canHandleCall(Channels[TargetIndex(E.station, E.direction)])) then 0 else 1
    {
      ghost var before := Channels;
      simClock := E.time;
      numCallsHandover := numCallsHandover + 1;
      var currStation := baseStations[E.station];
      var next := TargetIndex(currStation.id, E.direction);
      ghost var k, t := E.station, next;
      ReleaseAt(E.station);
      if canHandleCall(baseStations[next].State()) {
        AssignAt(next);
      } else {
        numCallsDropped := numCallsDropped + 1;
      }
      assert Channels == AfterHandover(before, k, t, canHandleCall);
      ScheduleFollowUp(E);
    }

    /**
     * Handles a call termination: the clock moves to the event and its
     * station frees one channel. Nothing is scheduled and no counter moves.
     */
    method HandleCallTermination(E: Event)
      requires Valid() && E.Termination? && Schedulable(E)
      modifies this, baseStations[E.station]
      ensures Valid()
      ensures simClock == E.time
      ensures Channels == AfterTermination(old(Channels), E.station)
      ensures eventQueue == old(eventQueue) && callInitiationEvents == old(callInitiationEvents)
      ensures numCallsDropped == old(numCallsDropped) && numCallsBlocked == old(numCallsBlocked)
      ensures numCallsHandover == old(numCallsHandover)
    {
      simClock := E.time;
      ReleaseAt(E.station);
    }

    /** The engine's state as a value. */
    ghost function Snap(): Snapshot
      reads this
    {
      Snapshot(simClock, numCallsBlocked, numCallsDropped, numCallsHandover,
               eventQueue, callInitiationEvents, Channels)
    }

    /** The clock never runs ahead of a pending event, and the initiations come in time order. */
    ghost predicate OnSchedule()
      reads this`simClock, this`eventQueue, this`callInitiationEvents
    {
      Sorted(callInitiationEvents) && DueFrom(callInitiationEvents, simClock) && DueFrom(eventQueue, simClock)
    }

    /**
     * Takes the next event off one of the two queues: the next initiation
     * when no event is pending or the pending head is strictly later, and
     * the pending head otherwise (a tie goes to the pending event).
     */
    method Take() returns (e: Event, side: Side)
      requires StationsValid() && QueuesValid() && (callInitiationEvents != [] || eventQueue != [])
      modifies this`callInitiationEvents, this`eventQueue
      ensures QueuesValid() && Schedulable(e)
      ensures (e, side, Snap()) == TakeOf(old(Snap()))
      ensures side == SelectFixed(old(callInitiationEvents), old(eventQueue))
      ensures side == FromInitiations ==>
                e == old(callInitiationEvents)[0] && e.Initiation? &&
                callInitiationEvents == old(callInitiationEvents)[1..] && eventQueue == old(eventQueue)
      ensures side == FromEvents ==>
                e == old(eventQueue)[0] &&
                eventQueue == old(eventQueue)[1..] && callInitiationEvents == old(callInitiationEvents)
    {
      if eventQueue == [] || (callInitiationEvents != [] && eventQueue[0].time > callInitiationEvents[0].time) {
        e := callInitiationEvents[0];
        callInitiationEvents := callInitiationEvents[1..];
        side := FromInitiations;
      } else {
        e := eventQueue[0];
        SortedTail(eventQueue);
        eventQueue := eventQueue[1..];
        side := FromEvents;
      }
    }

    /**
     * Hands an event to its handler by kind. A handover whose neighbour
     * index falls outside the station array gets as far as the handler does
     * before the lookup, moving the clock and counting the handover, and is
     * reported as a fault.
     */
    method Dispatch(e: Event) returns (faulted: bool)
      requires Valid() && Schedulable(e)
      modifies this, baseStations
      ensures Valid()
      ensures faulted <==> Misrouted(e)
      ensures simClock == e.time
      ensures callInitiationEvents == old(callInitiationEvents)
      ensures eventQueue ==
                if e.Termination? || faulted then old(eventQueue) else InsertByTime(old(eventQueue), FollowUpOf(e))
      ensures Channels == ChannelsAfter(old(Channels), e, canHandleCall)
      ensures numCallsBlocked == old(numCallsBlocked) + BlockedBy(old(Channels), e, canHandleCall)
      ensures numCallsDropped == old(numCallsDropped) + DroppedBy(old(Channels), e, canHandleCall)
      ensures numCallsHandover == old(numCallsHandover) + HandedOverBy(e)
      ensures Snap() == DispatchOf(old(Snap()), e, canHandleCall)
    {
      faulted := false;
      if e.Initiation? {
        HandleCallInitiation(e);
      } else if e.Handover? {
        if 0 <= TargetIndex(e.station, e.direction) < NumStations {
          HandleCallHandover(e);
        } else {
          simClock := e.time;
          numCallsHandover := numCallsHandover + 1;
          faulted := true;
        }
      } else {
        HandleCallTermination(e);
      }
    }

    /**
     * One pass of the driver loop: take the earliest head of the two queues
     * and handle it. Handling events in this order keeps the clock from
     * running backwards.
     */
    method Step() returns (outcome: StepOutcome)
      requires Valid() && (callInitiationEvents != [] || eventQueue != [])
      modifies this, baseStations
      ensures Valid() && Schedulable(outcome.e)
      ensures outcome.side == SelectFixed(old(callInitiationEvents), old(eventQueue))
      ensures outcome.e == Head(old(callInitiationEvents), old(eventQueue), outcome.side)
      ensures callInitiationEvents ==
                if outcome.side == FromInitiations then old(callInitiationEvents)[1..] else old(callInitiationEvents)
      ensures var pending := if outcome.side == FromEvents then old(eventQueue)[1..] else old(eventQueue);
              eventQueue ==
                if outcome.e.Termination? || outcome.Faulted? then pending
                else InsertByTime(pending, FollowUpOf(outcome.e))
      ensures outcome.Faulted? <==> Misrouted(outcome.e)
      ensures simClock == outcome.e.time
      ensures Channels == ChannelsAfter(old(Channels), outcome.e, canHandleCall)
      ensures numCallsBlocked == old(numCallsBlocked) + BlockedBy(old(Channels), outcome.e, canHandleCall)
      ensures numCallsDropped == old(numCallsDropped) + DroppedBy(old(Channels), outcome.e, canHandleCall)
      ensures numCallsHandover == old(numCallsHandover) + HandedOverBy(outcome.e)
      ensures old(OnSchedule()) ==> OnSchedule() && old(simClock) <= simClock
      ensures (Snap(), outcome) == StepOf(old(Snap()), canHandleCall)
    {
      ghost var before := Snap();
      var e, side := Take();
      var faulted := Dispatch(e);
      outcome := if faulted then Faulted(e, side) else Handled(e, side);
      if OnScheduleOf(before) {
        StepOfOnSchedule(before, canHandleCall);
      }
    }

    /**
     * One pass of the driver loop, as the first step of the run of `left`
     * passes that ends in `target`; it uses up one pass of the bound.
     */
    method Pass(left: nat, ghost target: (Snapshot, RunOutcome)) returns (step: StepOutcome, rest: nat)
      requires Valid() && (callInitiationEvents != [] || eventQueue != []) && left > 0
      requires RunOf(Snap(), left, canHandleCall) == target
      modifies this, baseStations
      ensures Valid() && rest == Less(left)
      ensures step.Faulted? ==> (Snap(), NeighbourOutOfRange(step.e)) == target
      ensures !step.Faulted? ==> RunOf(Snap(), rest, canHandleCall) == target
    {
      rest := Less(left);
      ghost var before := Snap();
      step := Step();
      RunOfUnfold(before, left, canHandleCall);
    }

    /**
     * The driver loop: handles events while either queue holds one, for at
     * most `fuel` passes, and stops at the first misrouted handover.
     */
    method Run(fuel: nat) returns (outcome: RunOutcome)
      requires Valid()
      modifies this, baseStations
      ensures Valid()
      ensures outcome == Completed ==> callInitiationEvents == [] && eventQueue == []
      ensures outcome == OutOfFuel ==> callInitiationEvents != [] || eventQueue != []
      ensures outcome.NeighbourOutOfRange? ==> Misrouted(outcome.e)
      ensures old(numCallsBlocked) <= numCallsBlocked && old(numCallsHandover) <= numCallsHandover
      ensures old(numCallsDropped) <= numCallsDropped
      ensures numCallsDropped - old(numCallsDropped) <= numCallsHandover - old(numCallsHandover)
      ensures old(OnSchedule()) ==> OnSchedule() && old(simClock) <= simClock
      ensures (Snap(), outcome) == RunOf(old(Snap()), fuel, canHandleCall)
    {
      RunOfOutcome(Snap(), fuel, canHandleCall);
      if OnSchedule() {
        RunOfOnSchedule(Snap(), fuel, canHandleCall);
      }
      ghost var target := RunOf(Snap(), fuel, canHandleCall);
      var left := fuel;
      while left > 0 && (callInitiationEvents != [] || eventQueue != [])
        invariant Valid()
        invariant RunOf(Snap(), left, canHandleCall) == target
        decreases left
      {
        var step;
        step, left := Pass(left, target);
        if step.Faulted? {
          return NeighbourOutOfRange(step.e);
        }
      }
      outcome := if callInitiationEvents == [] && eventQueue == [] then Completed else OutOfFuel;
    }
  }
}
