# Cellular route simulation: the event engine

This project models the event engine of a discrete-event simulation of a
straight road covered by 20 base stations under Fixed Channel Allocation
(FCA). Cars make calls while they drive. A call is admitted or blocked at its
first station, handed over (or dropped) at every station boundary it crosses,
and finally terminates.

The main routine sets up the run:
- an array of 20 base stations;
- a first-in-first-out queue of call initiations, one per data row;
- an empty Future Event List (FEL).

Its loop then repeatedly compares the heads of the two queues, takes one and
hands it to one of three handlers. As written, the comparison takes nothing
when the two heads are due at the same time, and it reads the head of the
initiation queue even after that queue is empty. The engine modelled here runs
the corrected comparison: the earlier head, with ties going to the FEL. The
comparison as written is modelled beside it (see Findings). Initiation and handover each schedule exactly one
follow-up event: a handover if the call outlasts the current stretch of road
and a next station exists, otherwise a termination. Termination frees the
channel.

Files:

- `Events.dfy` (module `Events`): the three event kinds, and the FEL as a time-ordered sequence with insertion after events of equal time.
- `Stations.dfy` (module `Stations`):
  - the `BaseStation` class, with constant id, capacity and reservation and a mutable count of free channels;
  - the admission test `canHandleCall` as a parameter;
  - the pure channel transitions of each handler, with their effect on the route's busy-channel total and on the channel bound.
- `FollowUp.dfy` (module `FollowUp`): the follow-up rule shared by the initiation and handover handlers.
- `Selection.dfy` (module `Selection`): choosing between the two queue heads, both as written and corrected.
- `Engine.dfy` (module `Simulation`):
  - the `Engine` class, holding the main routine's state;
  - its constructor (the set-up);
  - the three handlers;
  - the loop, split into `Take`, `Dispatch`, `Step` and `Run`;
  - the same loop on plain values: a `Snapshot` of the clock, counters, queues and channels, one pass `StepOf` and a whole run `RunOf`.
- `Report.dfy` (module `Report`): the run-size constants and the percentages computed at the end.

The engine keeps a ghost sequence `Channels`, the state of every station by
index. `Valid()` ties it to the station objects. Each handler's new channel
state is stated as a pure function of the old one (`AfterInitiation`,
`AfterHandover`, `AfterTermination`). The properties of the whole route are
proved about those functions. `Snap()` reads the engine's state as a
`Snapshot`. `Step` and `Run` end in the state that `StepOf` and `RunOf`
give, so what is proved about a run of values holds for the engine.

Behaviour of the code that the model keeps as written:

- A blocked call still gets its follow-up event, scheduled before the admission test. A dropped call also still gets one.
- The follow-up of a handover refers to the station the car left, not the one it entered.
- Stations are built with ids 0 to 19, but the end-of-route tests look for ids 20 and 1. `HandleCallHandover` therefore requires its neighbour index to lie in 0..19. `Run` stops with `NeighbourOutOfRange` at the first handover that breaks this; `NeighbourTestOffByOne` names the three places where the test and the array bounds disagree, and `LastBuiltStationHandsOverPastEnd` and `FirstBuiltStationHandsOverBeforeStart` show such handovers are scheduled.
- `remainingTime` is read as the same value as `timeRemaining`.
- A termination is due at the clock plus the time left on the stretch.

The project's full simulator (`Simulation Code/Simulator.java`) behaves
differently in three ways, and the model follows the pseudocode:
- The full simulator times a short call's termination at the clock plus its duration (Simulator.java:173). The pseudocode times every termination at the end of the stretch.
- The full simulator schedules nothing for a blocked call (Simulator.java:153-156) or a dropped call (Simulator.java:235-239). The pseudocode gives both a follow-up.
- The full simulator resets the blocked and dropped counters after warm-up (Simulator.java:125-128). The pseudocode never does.

## Model

| member | source | states |
|---|---|---|
| Events.HeadIsEarliest | Pseudocode/MainFunction.java:76-78 | the head of a time-ordered FEL is due no later than any pending event |
| Events.InsertByTime | Pseudocode/CallInitiationEvent.java:45-46 | adding to the FEL keeps exactly the old events plus the new one, and the new head is either the new event or the old head |
| Events.Slot | Pseudocode/CallInitiationEvent.java:45-46 | the place a new event takes: every event before it is due no later than the new one, and the event right after it is due strictly later |
| Events.InsertByTimeAtSlot | Pseudocode/CallInitiationEvent.java:45-46 | adding to the FEL puts the new event at its slot, after every pending event due at the same time, and keeps all other events in their order |
| Events.InsertKeepsSorted | Pseudocode/CallInitiationEvent.java:45-46 | adding an event at its time keeps the FEL time-ordered |
| Events.SortedTail | Pseudocode/MainFunction.java:77-78 | removing the FEL head leaves it time-ordered |
| Events.InsertedMembers | Pseudocode/CallHandoverEvent.java:72-73 | every event in the FEL after an insertion was pending before or is the one scheduled |
| Stations.ReservationAdmissionSound | Pseudocode/CallInitiationEvent.java:51-53 | the reservation scheme admits a call only where a channel is free |
| Stations.ReservationMonotone | Pseudocode/CallInitiationEvent.java:51-53 | withholding more channels never admits a call that fewer would refuse |
| Stations.BusyChannelsUpdate | Pseudocode/CallTerminationEvent.java:8-11 | changing one station changes the route's busy-channel total by that station's change only |
| Stations.AfterInitiation | Pseudocode/CallInitiationEvent.java:49-60 | only the event's station may change; it assigns one channel iff it admits the call, so the busy total rises by one on admission and not otherwise; with a sound admission test the channel bound is kept |
| Stations.AfterHandover | Pseudocode/CallHandoverEvent.java:24-35 | the current station frees one channel, the target assigns one iff it admits the call, every other station is unchanged; the busy total falls by one exactly when the call is dropped; the channel bound is kept when the current station had a busy channel and the test is sound |
| Stations.AfterTermination | Pseudocode/CallTerminationEvent.java:8-11 | only the event's station changes, freeing one channel; the busy total falls by one; the channel bound is kept when that station had a busy channel |
| Stations.BaseStation.constructor | Pseudocode/MainFunction.java:38-39 | a new station has the given id, capacity and reservation, with every channel free |
| Stations.BaseStation.AssignChannel | Pseudocode/CallInitiationEvent.java:56 | the station has one free channel fewer, nothing else changes |
| Stations.BaseStation.ReleaseChannel | Pseudocode/CallTerminationEvent.java:11 | the station has one free channel more, nothing else changes |
| FollowUp.TargetIndex | Pseudocode/CallHandoverEvent.java:18-22 | from a built station, the target index lies inside the 20-station array exactly when the car is not at index 19 heading up or at index 0 heading down |
| FollowUp.NeighbourTestOffByOne | Pseudocode/CallHandoverEvent.java:18-22 | the 20/1 end-of-route test agrees with the array bounds at every built station except three: index 19 heading up and index 0 heading down pass the test with an index outside the array, and index 1 heading down fails it although station 0 exists |
| FollowUp.NextEvent | Pseudocode/CallInitiationEvent.java:12-43 | the follow-up is due at the clock plus (2000 - position) / speed; it is a handover iff the call outlasts that time and the car is not at id 20 heading up or id 1 heading down, otherwise a termination; a handover keeps id, direction, speed and station and carries the duration minus that time |
| FollowUp.NextEventNotInPast | Pseudocode/CallInitiationEvent.java:13-20 | for a car within its stretch and moving forward, the follow-up is never due before the clock |
| FollowUp.HandoverShortensCall | Pseudocode/CallInitiationEvent.java:23-32 | a scheduled handover carries a positive duration strictly shorter than the call had |
| FollowUp.EndOfRouteTerminates | Pseudocode/CallInitiationEvent.java:30-42 | at id 20 heading up or id 1 heading down, the follow-up is always a termination |
| FollowUp.LastBuiltStationHandsOverPastEnd | Pseudocode/CallHandoverEvent.java:57-59 | a long call at the last built station (id 19) heading up gets a handover whose target index is 20, past the array |
| FollowUp.FirstBuiltStationHandsOverBeforeStart | Pseudocode/CallHandoverEvent.java:63-64 | a long call at station 0 heading down gets a handover whose target index is -1 |
| Selection.Select | Pseudocode/MainFunction.java:64-79 | as written, the loop takes the initiation head when the FEL is empty or its head is strictly later, and the FEL head when strictly earlier; the chosen head is the earliest; it selects nothing exactly on equal head times, and peeks the empty initiation queue exactly when that queue is drained while events are pending |
| Selection.SelectFixed | Pseudocode/MainFunction.java:64-79 | the corrected selection always takes a head due no later than the other one; ties go to the FEL |
| Selection.SelectFixedAgrees | Pseudocode/MainFunction.java:64-79 | wherever the loop as written picks a head, the corrected selection picks the same one |
| Selection.SelectedIsEarliestPending | Pseudocode/MainFunction.java:63-79 | with a time-ordered FEL, the selected event is due no later than every pending event and the next initiation |
| Selection.TieSelectsNothing | Pseudocode/MainFunction.java:70-79 | two heads due at the same time: the loop as written takes neither, the corrected one takes the FEL head |
| Selection.DrainedInitiationsPeekEmpty | Pseudocode/MainFunction.java:64-70 | with the initiations used up and an event pending, the loop as written reads the empty queue's head |
| Simulation.QueuedInitiations | Pseudocode/MainFunction.java:43-53 | one initiation per data row, in row order, copying the row's id, time, speed, station and duration, heading towards the last station exactly when its direction draw is at least 0.5 |
| Simulation.LastInitiationLeavesPeekOnEmpty | Pseudocode/MainFunction.java:64-70 | once the last initiation is handled its follow-up is pending, so the loop as written reads the head of the empty initiation queue |
| Simulation.FollowUpOf | Pseudocode/CallHandoverEvent.java:39-70 | the follow-up of an event refers to the same station and can itself be handled; a handover follow-up keeps the speed |
| Simulation.ScheduleKeepsQueue | Pseudocode/CallInitiationEvent.java:45-46 | scheduling a follow-up keeps the FEL time-ordered and every event in it processable |
| Simulation.FollowUpNotInPast | Pseudocode/CallHandoverEvent.java:41-47 | the follow-up of a forward-moving car is due no earlier than the event it follows |
| Simulation.ScheduleDueFrom | Pseudocode/CallHandoverEvent.java:72-73 | scheduling an event due from the clock keeps the whole FEL due from the clock |
| Simulation.TakenHeadIsDue | Pseudocode/MainFunction.java:63-79 | the head the loop takes is due from the clock and everything left in both queues is due from its time |
| Simulation.TakeOf | Pseudocode/MainFunction.java:63-79 | on a state: the head the corrected selection names is the event taken; it leaves its own queue, the other queue is unchanged, the taken event can be handled, and nothing else in the state changes |
| Simulation.FelAfter | Pseudocode/CallInitiationEvent.java:45-46 | the FEL after handling an event (the same add is at CallHandoverEvent.java:72-73) stays time-ordered and processable, and gains exactly one event unless the handled event ends a call or is a misrouted handover |
| Simulation.DispatchOf | Pseudocode/MainFunction.java:82-93 | on a state: the clock moves to the event's time, the initiation queue is unchanged, and the FEL gains one event unless the event ends a call or cannot be routed |
| Simulation.StepOf | Pseudocode/MainFunction.java:58-93 | one pass on a state: the earlier head is handled; the pass faults exactly on a misrouted handover; the clock moves to the handled event; the two queues together shrink by one on a termination or a fault and otherwise keep their size |
| Simulation.StepOfOnSchedule | Pseudocode/MainFunction.java:58-93 | one pass on time-ordered data never turns the clock back and leaves no pending event due before it |
| Simulation.RunOf | Pseudocode/MainFunction.java:57-94 | the driver loop on plain values, for at most `fuel` passes, ends in a well-formed state; what it ends with is stated by `RunOfOutcome` and `RunOfOnSchedule` |
| Simulation.RunOfOnSchedule | Pseudocode/MainFunction.java:57-94 | a whole run on time-ordered data never turns the clock back and leaves no pending event due before it |
| Simulation.RunOfOutcome | Pseudocode/MainFunction.java:57-94 | a run completes only with both queues empty, runs out of passes only with an event left, and faults only on a misrouted handover; counters never fall; calls dropped never outnumber handovers |
| Simulation.Engine.constructor | Pseudocode/MainFunction.java:6-53 | the clock and counters start at zero, the FEL is empty, station `num` gets id `num` for each of the 20 stations with every channel free, the initiation queue holds one event per row in row order, and time-ordered data starts a run in which no event is due before the clock |
| Simulation.Engine.ScheduleFollowUp | Pseudocode/CallInitiationEvent.java:12-46 | exactly one event, the follow-up of the handled one, is added to the FEL at its time |
| Simulation.Engine.ReleaseAt | Pseudocode/CallHandoverEvent.java:25 | the station frees one channel and the route state follows |
| Simulation.Engine.AssignAt | Pseudocode/CallHandoverEvent.java:30 | the station assigns one channel and the route state follows |
| Simulation.Engine.HandleCallInitiation | Pseudocode/CallInitiationEvent.java:1-61 | the clock is the event's time; exactly one follow-up enters the FEL, admitted or not; the route's channels become `AfterInitiation`; blocked rises by one exactly when the station refuses; dropped, handovers and the initiation queue are unchanged |
| Simulation.Engine.HandleCallHandover | Pseudocode/CallHandoverEvent.java:1-74 | the clock is the event's time and handovers rise by one; the route's channels become `AfterHandover` towards the neighbour in the direction of travel; dropped rises by one exactly when the neighbour refuses; exactly one follow-up enters the FEL; blocked and the initiation queue are unchanged; the neighbour index must lie in 0..19 |
| Simulation.Engine.HandleCallTermination | Pseudocode/CallTerminationEvent.java:1-12 | the clock is the event's time; the route's channels become `AfterTermination`; no queue and no counter changes |
| Simulation.Engine.Take | Pseudocode/MainFunction.java:63-79 | exactly one head is removed from the queue the corrected selection names, and the other queue is unchanged |
| Simulation.Engine.Dispatch | Pseudocode/MainFunction.java:82-93 | the event goes to the handler of its kind and no other; channels and counters change as that handler says; a handover with an out-of-range neighbour only moves the clock and counts the handover, and is reported |
| Simulation.Engine.Step | Pseudocode/MainFunction.java:58-93 | one pass: the earlier head is taken, handled by kind, and its follow-up scheduled, ending in the state `StepOf` gives; on time-ordered data the clock never runs backwards and no pending event is due before it |
| Simulation.Engine.Run | Pseudocode/MainFunction.java:57-94 | the final clock, counters, queues and channels, and the outcome, are those of `RunOf`: pass after pass, each taken event is handled as `StepOf` says; the loop ends complete only with both queues empty; counters never fall; calls dropped never outnumber handovers; on time-ordered data the clock never runs backwards |
| Report.CallsAfterWarmup | Pseudocode/MainFunction.java:12-20 | 10700 calls less 700 warm-up calls leave 10000 |
| Report.PercentageAsWritten | Pseudocode/MainFunction.java:97-98 | the integer quotient scaled by 100 is a multiple of 100, and 0 for any count below 10000 |
| Report.PercentageAsWrittenLosesFraction | Pseudocode/MainFunction.java:97 | 250 blocked calls are reported as 0 percent instead of 2.5 |
| Report.Percentage | Pseudocode/MainFunction.java:97-98 | the corrected percentage times the 10000 calls is 100 times the count |
| Report.PercentageBounds | Pseudocode/MainFunction.java:97-98 | a count up to 10000 gives 0 to 100 percent |
| Report.PercentageMonotone | Pseudocode/MainFunction.java:97-98 | more calls counted never give a lower percentage |
| Report.AsWrittenIsWholeHundreds | Pseudocode/MainFunction.java:97-98 | the reported value is the exact percentage rounded down to a multiple of 100 |

## Left out

- Reading the call data from a spreadsheet is file input. The rows come in as a sequence.
- The one `Math.random()` draw per call, for its direction, comes in as the `direction` part of a `Draw` value, one per row. The initiation's constructor is given no car position, yet the handler reads one. The model adds the position as an input too: the `position` part of the same `Draw`, placed within the stretch as the handler's comment describes.
- Writing the statistics report is output and is not modelled. Only the percentages it reports are.
- `BaseStation` is not part of the pseudocode. The model follows the project's full station class: an unguarded decrement and increment of the free count.
- The admission test is a parameter. `ReservationAdmission` is the new-call test of the full simulator.
- Stations.AfterInitiation, Stations.AfterHandover, Stations.AfterTermination: the channel bound is kept per handler only, under explicit preconditions. The code does not keep it over a whole run, because blocked calls still terminate and follow-ups keep the originating station. `Run` therefore does not promise it.
- Times, speeds, positions and durations are mathematical reals, not doubles. Rounding is not modelled.
- Every car's speed must be non-zero so the division is defined. For the time-order results it must be positive.
- Counters are unbounded naturals. Java `int` overflow is not modelled.
- A handover event carries no car position, and the code reads one anyway. The model uses 0, the start of the new stretch.
- Simulation.Engine.Take: the engine runs the corrected selection `SelectFixed`, not the comparison as written. As written, a tie between the two heads takes nothing, and once the initiation queue is drained (right after the last initiation, whose follow-up is pending) the loop reads that empty queue's head. `Run` therefore does not show how the code as written ends; `Select`, `TieSelectsNothing`, `DrainedInitiationsPeekEmpty` and `LastInitiationLeavesPeekOnEmpty` state what it does instead.
- Simulation.Engine.Run: it takes a fuel bound on the number of passes. The code gives no measure for the loop, so `Run` does not prove that the loop ends.
- Java's `Queue` order is not part of the code shown. The initiation queue is modelled as first-in-first-out. The FEL is ordered by time, with equal times leaving in the order they were scheduled.
- The warm-up constant is never used to reset counters, and the model adds no reset.
- A thrown out-of-bounds exception is modelled as a `Faulted` step that ends `Run`. The clock and handover counter changes made before the lookup are kept.

## Findings

| source | as written | input that shows it | evidently intended | confidence | as-written member | corrected member |
|---|---|---|---|---|---|---|
| Pseudocode/MainFunction.java:70-79 | the two strict comparisons leave equal head times unhandled, so the pass dispatches an unset event | an initiation and a pending event both due at time 5.0 | take one of the two heads; the model gives ties to the FEL | not executed | Selection.TieSelectsNothing | Selection.SelectFixed |
| Pseudocode/MainFunction.java:70 | once the initiation queue is drained, the loop still peeks its head while events are pending | no initiation left and one pending termination | take the FEL head when no initiation is left | not executed | Selection.DrainedInitiationsPeekEmpty | Selection.SelectFixed |
| Pseudocode/MainFunction.java:97-98 | the counter is divided by 10000 in integer arithmetic before scaling, so any count below 10000 reports 0 percent | 250 blocked calls | 100 times the count divided by 10000, as a real | not executed | Report.PercentageAsWrittenLosesFraction | Report.Percentage |
