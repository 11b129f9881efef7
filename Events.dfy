// Events of the cellular-route simulation and the Future Event List (FEL)
// that orders the pending ones by time.

module Events {

  /** Direction of travel along the route of base stations. */
  datatype Direction = ToFirstStation | ToLastStation

  /**
   * The three kinds of event. `station` is the index, in the engine's array
   * of base stations, of the station the event refers to; stations are built
   * with id equal to their index, so it is also that station's id.
   * Times, speeds, positions and durations are reals: the pseudocode only adds,
   * subtracts and divides them.
   */
  datatype Event =
    | Initiation(id: int, time: real, direction: Direction, speed: real,
                 station: nat, position: real, duration: real)
    | Handover(id: int, time: real, direction: Direction, speed: real,
               station: nat, duration: real)
    | Termination(id: int, time: real, station: nat)

  /** A queue of events is time-ordered when no event follows a later one. */
  predicate Sorted(q: seq<Event>)
  {
    forall i :: 0 < i < |q| ==> q[i - 1].time <= q[i].time
  }

  /** The head of a time-ordered queue is the earliest pending event. */
  lemma {:induction false} HeadIsEarliest(q: seq<Event>)
    requires Sorted(q) && q != []
    ensures forall i :: 0 <= i < |q| ==> q[0].time <= q[i].time
  {
    if |q| > 1 {
      var tail := q[1..];
      assert forall i :: 0 < i < |tail| ==> tail[i - 1] == q[i] && tail[i] == q[i + 1];
      HeadIsEarliest(tail);
      forall i | 0 < i < |q|
        ensures q[0].time <= q[i].time
      {
        assert tail[i - 1] == q[i];
      }
    }
  }

  /**
   * Adds an event to the FEL, keeping it time-ordered. An event goes after
   * every pending event with the same time, so equal times leave in the
   * order they were scheduled.
   */
  function InsertByTime(q: seq<Event>, e: Event): (r: seq<Event>)
    ensures |r| == |q| + 1
    ensures multiset(r) == multiset(q) + multiset{e}
    ensures r[0] == e || (q != [] && r[0] == q[0])
  {
    if q == [] then [e]
    else if e.time < q[0].time then [e] + q
    else
      assert q == [q[0]] + q[1..];
      [q[0]] + InsertByTime(q[1..], e)
  }

  /**
   * Where an insertion puts `e`: past the leading run of events due no
   * later than it, and before the first one due strictly later.
   */
  function Slot(q: seq<Event>, e: Event): (j: nat)
    ensures j <= |q|
    ensures forall i :: 0 <= i < j ==> q[i].time <= e.time
    ensures j < |q| ==> e.time < q[j].time
  {
    if q == [] || e.time < q[0].time then 0
    else
      var k := Slot(q[1..], e);
      assert forall i :: 0 < i < k + 1 ==> q[i] == q[1..][i - 1];
      1 + k
  }

  /**
   * The tie rule: insertion puts the new event at its slot, so an event
   * never overtakes a pending one due at the same time.
   */
  lemma {:induction false} InsertByTimeAtSlot(q: seq<Event>, e: Event)
    ensures InsertByTime(q, e) == q[..Slot(q, e)] + [e] + q[Slot(q, e)..]
  {
    if q != [] && e.time >= q[0].time {
      InsertByTimeAtSlot(q[1..], e);
      SplitAfterHead(q, Slot(q[1..], e), e);
    } else {
      assert q[..0] + [e] + q[0..] == [e] + q;
    }
  }

  /** Splitting a queue after its head and `k` more events splits its tail after `k`. */
  lemma SplitAfterHead(q: seq<Event>, k: nat, e: Event)
    requires k < |q|
    ensures [q[0]] + (q[1..][..k] + [e] + q[1..][k..]) == q[..k + 1] + [e] + q[k + 1..]
  {
    assert q[..k + 1] == [q[0]] + q[1..][..k];
    assert q[k + 1..] == q[1..][k..];
  }

  /** Insertion keeps a time-ordered queue time-ordered. */
  lemma {:induction false} InsertKeepsSorted(q: seq<Event>, e: Event)
    requires Sorted(q)
    ensures Sorted(InsertByTime(q, e))
  {
    if q != [] && e.time >= q[0].time {
      var tail := q[1..];
      assert Sorted(tail) by {
        assert forall i :: 0 < i < |tail| ==> tail[i - 1] == q[i] && tail[i] == q[i + 1];
      }
      InsertKeepsSorted(tail, e);
      var rest := InsertByTime(tail, e);
      assert InsertByTime(q, e) == [q[0]] + rest;
      assert q[0].time <= rest[0].time by {
        if tail != [] { assert tail[0] == q[1]; }
      }
    }
  }

  /** Removing the head keeps a time-ordered queue time-ordered. */
  lemma SortedTail(q: seq<Event>)
    requires Sorted(q) && q != []
    ensures Sorted(q[1..])
  {
    var tail := q[1..];
    assert forall i :: 0 < i < |tail| ==> tail[i - 1] == q[i] && tail[i] == q[i + 1];
  }

  /** Every event of the queue after an insertion was pending before it or is the inserted one. */
  lemma InsertedMembers(q: seq<Event>, e: Event, x: Event)
    requires x in InsertByTime(q, e)
    ensures x in q || x == e
  {
    var r := InsertByTime(q, e);
    assert x in multiset(r);
  }
}
