// Choosing the next event to handle from the two queues of the driver loop:
// the FIFO of pre-built call initiations and the time-ordered FEL.

module Selection {
  import opened Events

  /** Which of the two queues the next event comes from. */
  datatype Side = FromInitiations | FromEvents

  /** What one pass of the driver loop, as written, makes of the two queue heads. */
  datatype Selection =
    | Picked(side: Side)
      /** Both heads are due at the same time: no branch of the loop applies. */
    | NothingSelected
      /** The initiation queue is drained while events are pending: its head is read anyway. */
    | InitiationPeekOnEmpty

  /** The head of the chosen queue is due no later than the head of the other one. */
  predicate EarliestHead(inits: seq<Event>, events: seq<Event>, side: Side)
  {
    match side
    case FromInitiations => inits != [] && (events != [] ==> inits[0].time <= events[0].time)
    case FromEvents => events != [] && (inits != [] ==> events[0].time <= inits[0].time)
  }

  /**
   * The selection of the driver loop as written: the initiation head when
   * no event is pending or the event head is strictly later, the event head
   * when it is strictly earlier, and nothing otherwise.
   */
  function Select(inits: seq<Event>, events: seq<Event>): (r: Selection)
    requires inits != [] || events != []
    ensures r.Picked? ==> EarliestHead(inits, events, r.side)
    ensures r.Picked? && inits != [] && events != [] ==> inits[0].time != events[0].time
    ensures r == NothingSelected <==> inits != [] && events != [] && inits[0].time == events[0].time
    ensures r == InitiationPeekOnEmpty <==> inits == [] && events != []
  {
    if events == [] then Picked(FromInitiations)
    else if inits == [] then InitiationPeekOnEmpty
    else if events[0].time > inits[0].time then Picked(FromInitiations)
    else if events[0].time < inits[0].time then Picked(FromEvents)
    else NothingSelected
  }

  /**
   * The selection the loop evidently intends: whenever something is pending
   * exactly one head is taken, the earlier one, with a tie going to the
   * pending event (the last test of the loop read as a plain `else`).
   */
  function SelectFixed(inits: seq<Event>, events: seq<Event>): (side: Side)
    requires inits != [] || events != []
    ensures EarliestHead(inits, events, side)
    ensures inits != [] && events != [] && inits[0].time == events[0].time ==> side == FromEvents
  {
    if events == [] then FromInitiations
    else if inits == [] then FromEvents
    else if events[0].time > inits[0].time then FromInitiations
    else FromEvents
  }

  /** Wherever the loop as written does pick a head, the corrected selection picks the same one. */
  lemma SelectFixedAgrees(inits: seq<Event>, events: seq<Event>)
    requires inits != [] || events != []
    ensures Select(inits, events).Picked? ==> SelectFixed(inits, events) == Select(inits, events).side
  {
  }

  /**
   * With the FEL time-ordered, the selected event is due no later than
   * anything pending in the FEL and no later than the next initiation.
   */
  lemma SelectedIsEarliestPending(inits: seq<Event>, events: seq<Event>)
    requires inits != [] || events != []
    requires Sorted(events)
    ensures var side := SelectFixed(inits, events);
            var e := if side == FromInitiations then inits[0] else events[0];
            (forall i :: 0 <= i < |events| ==> e.time <= events[i].time) &&
            (inits != [] ==> e.time <= inits[0].time)
  {
    if events != [] {
      HeadIsEarliest(events);
    }
  }

  /** Two heads due at the same time: the loop as written takes neither. */
  lemma TieSelectsNothing(init: Event, pending: Event)
    requires init.time == pending.time
    ensures Select([init], [pending]) == NothingSelected
    ensures SelectFixed([init], [pending]) == FromEvents
  {
  }

  /** Once the initiations are used up, a pending event makes the loop as written read an empty queue. */
  lemma DrainedInitiationsPeekEmpty(pending: Event)
    ensures Select([], [pending]) == InitiationPeekOnEmpty
    ensures SelectFixed([], [pending]) == FromEvents
  {
  }
}
