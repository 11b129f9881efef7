// Base stations and their channel bookkeeping under Fixed Channel Allocation.

module Stations {

  /** The observable state of one base station. */
  datatype StationState = StationState(id: int, available: int, total: nat, reserved: nat)

  /**
   * The admission test `canHandleCall`. Which calls a station admits depends
   * on the FCA scheme in use, so the engine takes it as a parameter.
   */
  type Admission = StationState -> bool

  /** A scheme is sound when it only admits a call where a channel is free. */
  ghost predicate Sound(admit: Admission)
  {
    forall s :: admit(s) ==> s.available > 0
  }

  /**
   * The reservation scheme: a call is admitted only while more channels are
   * free than the station withholds for handed-over calls.
   */
  function ReservationAdmission(s: StationState): bool
  {
    s.available > s.reserved
  }

  lemma ReservationAdmissionSound()
    ensures Sound(ReservationAdmission)
  {
  }

  /** Withholding more channels never admits a call that fewer would refuse. */
  lemma ReservationMonotone(s: StationState, more: nat)
    requires s.reserved <= more
    ensures ReservationAdmission(s.(reserved := more)) ==> ReservationAdmission(s)
  {
  }

  function Assigned(s: StationState): StationState
  {
    s.(available := s.available - 1)
  }

  function Released(s: StationState): StationState
  {
    s.(available := s.available + 1)
  }

  /** Channels in use at one station. */
  function Busy(s: StationState): int
  {
    s.total - s.available
  }

  /** Channels in use along the whole route. */
  function BusyChannels(ss: seq<StationState>): int
  {
    if ss == [] then 0 else Busy(ss[0]) + BusyChannels(ss[1..])
  }

  /** Replacing one station's state changes the route's busy count by that station's change alone. */
  lemma {:induction false} BusyChannelsUpdate(ss: seq<StationState>, k: nat, s: StationState)
    requires k < |ss|
    ensures BusyChannels(ss[k := s]) == BusyChannels(ss) - Busy(ss[k]) + Busy(s)
  {
    if k == 0 {
      assert ss[k := s][1..] == ss[1..];
    } else {
      assert ss[k := s][1..] == ss[1..][k - 1 := s];
      BusyChannelsUpdate(ss[1..], k - 1, s);
    }
  }

  /** The channel bound: between none and all channels are free. */
  predicate WithinCapacity(s: StationState)
  {
    0 <= s.available <= s.total
  }

  predicate AllWithinCapacity(ss: seq<StationState>)
  {
    forall i :: 0 <= i < |ss| ==> WithinCapacity(ss[i])
  }

  /**
   * The route's channels after a call initiation at station `k`: one channel
   * assigned there when the station admits the call, nothing otherwise.
   */
  function AfterInitiation(ss: seq<StationState>, k: nat, admit: Admission): (r: seq<StationState>)
    requires k < |ss|
    ensures |r| == |ss| && forall j :: 0 <= j < |ss| && j != k ==> r[j] == ss[j]
    ensures r[k] == if admit(ss[k]) then Assigned(ss[k]) else ss[k]
    ensures BusyChannels(r) == BusyChannels(ss) + if admit(ss[k]) then 1 else 0
    ensures Sound(admit) && AllWithinCapacity(ss) ==> AllWithinCapacity(r)
  {
    if admit(ss[k]) then
      BusyChannelsUpdate(ss, k, Assigned(ss[k]));
      ss[k := Assigned(ss[k])]
    else
      ss
  }

  /**
   * The route's channels after a handover from station `k` to station `t`:
   * one channel released at `k`, then one assigned at `t` when `t` admits
   * the call. A refused call leaves `t` as it was and is lost.
   */
  function AfterHandover(ss: seq<StationState>, k: nat, t: nat, admit: Admission): (r: seq<StationState>)
    requires k < |ss| && t < |ss| && k != t
    ensures |r| == |ss| && forall j :: 0 <= j < |ss| && j != k && j != t ==> r[j] == ss[j]
    ensures r[k] == Released(ss[k])
    ensures r[t] == if admit(ss[t]) then Assigned(ss[t]) else ss[t]
    ensures BusyChannels(r) == BusyChannels(ss) - if admit(ss[t]) then 0 else 1
    ensures Sound(admit) && AllWithinCapacity(ss) && ss[k].available < ss[k].total ==>
              AllWithinCapacity(r)
  {
    var released := ss[k := Released(ss[k])];
    BusyChannelsUpdate(ss, k, Released(ss[k]));
    if admit(released[t]) then
      BusyChannelsUpdate(released, t, Assigned(released[t]));
      released[t := Assigned(released[t])]
    else
      released
  }

  /** The route's channels after a call termination at station `k`: one channel released there. */
  function AfterTermination(ss: seq<StationState>, k: nat): (r: seq<StationState>)
    requires k < |ss|
    ensures |r| == |ss| && forall j :: 0 <= j < |ss| && j != k ==> r[j] == ss[j]
    ensures r[k] == Released(ss[k])
    ensures BusyChannels(r) == BusyChannels(ss) - 1
    ensures AllWithinCapacity(ss) && ss[k].available < ss[k].total ==> AllWithinCapacity(r)
  {
    BusyChannelsUpdate(ss, k, Released(ss[k]));
    ss[k := Released(ss[k])]
  }

  /**
   * A base station. Its channel operations are the unguarded decrement and
   * increment of the free count; keeping the count within bounds is up to
   * the callers.
   */
  class BaseStation {
    const id: int
    const total: nat
    const reserved: nat
    var available: int

    constructor (id: int, total: nat, reserved: nat)
      ensures this.id == id && this.total == total && this.reserved == reserved
      ensures available == total
    {
      this.id := id;
      this.total := total;
      this.reserved := reserved;
      available := total;
    }

    function State(): StationState
      reads this
    {
      StationState(id, available, total, reserved)
    }

    method AssignChannel()
      modifies this
      ensures State() == Assigned(old(State()))
    {
      available := available - 1;
    }

    method ReleaseChannel()
      modifies this
      ensures State() == Released(old(State()))
    {
      available := available + 1;
    }
  }
}
