/**
 * A train (src/models/train.py). Times are whole minutes. The fields that code in the repository
 * assigns after construction (status, actual arrival, current position) are mutable; every other
 * field is fixed when the train is built.
 */
module Trains {

  import opened Wrappers
  import opened Enums

  /** Base priority: 100 per rank, with a 10-point penalty when the status is DELAYED. */
  function CalculatePriority(kind: TrainType, status: TrainStatus): (p: int)
    ensures 90 <= p <= 300
    ensures p % 100 == 0 <==> status != Delayed
    ensures p / 100 == if status == Delayed then Rank(kind) - 1 else Rank(kind)
  {
    var basePriority := Rank(kind);
    var delayPenalty := if status == Delayed then -10 else 0;
    basePriority * 100 + delayPenalty
  }

  /**
   * The score follows the type's rank: a higher rank always outranks a lower one, whatever either
   * train's status, and the delay penalty only orders trains of the same type.
   */
  lemma PriorityFollowsRank(a: TrainType, sa: TrainStatus, b: TrainType, sb: TrainStatus)
    ensures Rank(a) < Rank(b) ==> CalculatePriority(a, sa) < CalculatePriority(b, sb)
    ensures a == b ==> (CalculatePriority(a, sa) < CalculatePriority(b, sb) <==> sa == Delayed && sb != Delayed)
    ensures CalculatePriority(a, sa) == CalculatePriority(b, sb) <==> a == b && (sa == Delayed <==> sb == Delayed)
  {
  }

  /** The documented values: FREIGHT undelayed 100, PASSENGER undelayed 200, EXPRESS delayed 290. */
  lemma PriorityExamples()
    ensures CalculatePriority(Freight, Scheduled) == 100
    ensures CalculatePriority(Passenger, Running) == 200
    ensures CalculatePriority(Express, Delayed) == 290
    ensures forall k: TrainType, s: TrainStatus :: s != Delayed ==> CalculatePriority(k, s) == 100 * Rank(k)
    ensures forall k: TrainType :: CalculatePriority(k, Delayed) == 100 * Rank(k) - 10
  {
  }

  /** Minutes a train of this type needs to cross the section. */
  function ExpectedTravelTime(kind: TrainType): (minutes: int)
    ensures minutes > 0
  {
    match kind
    case Express => 15
    case Passenger => 20
    case Freight => 30
  }

  /** The higher the rank, the shorter the travel time: 15, 20 and 30 minutes. */
  lemma TravelTimeByType()
    ensures ExpectedTravelTime(Express) == 15 && ExpectedTravelTime(Passenger) == 20 && ExpectedTravelTime(Freight) == 30
    ensures forall a: TrainType, b: TrainType :: Rank(a) < Rank(b) ==> ExpectedTravelTime(b) < ExpectedTravelTime(a)
  {
  }

  /** Python truthiness of an optional string: present and not the empty string. */
  predicate IsSet(p: Option<string>)
  {
    p.Some? && p.value != ""
  }

  /**
   * Delayed: with an actual arrival, exactly when it is later than the scheduled one (the status
   * is then ignored); without one, exactly when the status is DELAYED.
   */
  predicate Late(scheduledArrival: int, status: TrainStatus, actualArrival: Option<int>)
  {
    match actualArrival
    case Some(a) => a > scheduledArrival
    case None => status == Delayed
  }

  /**
   * Once an actual arrival is known the status no longer matters, and it is late exactly when it
   * is after the scheduled one; before that, only the DELAYED status makes a train late.
   */
  lemma LateIgnoresStatusOnceArrived(scheduledArrival: int, s1: TrainStatus, s2: TrainStatus, actualArrival: Option<int>)
    ensures actualArrival.Some? ==>
              Late(scheduledArrival, s1, actualArrival) == Late(scheduledArrival, s2, actualArrival) &&
              (Late(scheduledArrival, s1, actualArrival) <==> actualArrival.value > scheduledArrival)
    ensures actualArrival.None? ==> (Late(scheduledArrival, s1, actualArrival) <==> s1 == Delayed)
  {
  }

  class Train {
    const id: string
    const number: string
    const kind: TrainType
    const scheduledArrival: int
    const scheduledDeparture: Option<int>
    var position: Option<string>
    var status: TrainStatus
    var actualArrival: Option<int>
    const actualDeparture: Option<int>
    const priorityScore: int

    /** Builds a train; a priority score given here is kept, a missing one is computed. */
    constructor (id: string, number: string, kind: TrainType, scheduledArrival: int,
                 scheduledDeparture: Option<int>, position: Option<string> := None,
                 status: TrainStatus := Scheduled, actualArrival: Option<int> := None,
                 actualDeparture: Option<int> := None, priorityScore: Option<int> := None)
      ensures this.id == id && this.number == number && this.kind == kind
      ensures this.scheduledArrival == scheduledArrival && this.scheduledDeparture == scheduledDeparture
      ensures this.position == position && this.status == status
      ensures this.actualArrival == actualArrival && this.actualDeparture == actualDeparture
      ensures priorityScore.Some? ==> this.priorityScore == priorityScore.value
      ensures priorityScore.None? ==> this.priorityScore == CalculatePriority(kind, status)
    {
      this.id := id;
      this.number := number;
      this.kind := kind;
      this.scheduledArrival := scheduledArrival;
      this.scheduledDeparture := scheduledDeparture;
      this.position := position;
      this.status := status;
      this.actualArrival := actualArrival;
      this.actualDeparture := actualDeparture;
      this.priorityScore := if priorityScore.Some? then priorityScore.value else CalculatePriority(kind, status);
    }

    /** `is_delayed`, on the train's current fields. */
    predicate IsDelayed()
      reads this
    {
      Late(scheduledArrival, status, actualArrival)
    }

    /** Minutes between the actual and the scheduled arrival when the train is delayed, else 0. */
    function DelayMinutes(): (d: int)
      reads this
      ensures d >= 0
      ensures d > 0 <==> actualArrival.Some? && actualArrival.value > scheduledArrival
      ensures d > 0 ==> IsDelayed() && scheduledArrival + d == actualArrival.value
    {
      if !IsDelayed() || actualArrival.None? then 0 else actualArrival.value - scheduledArrival
    }

    /** The train has a current position (in Python's truthiness sense). */
    predicate Positioned()
      reads this
    {
      IsSet(position)
    }

    /** End of the train's occupancy: the scheduled departure, or arrival plus travel time. */
    function EffectiveDeparture(): int
    {
      scheduledDeparture.GetOr(scheduledArrival + ExpectedTravelTime(kind))
    }

    /** Moves the train; a SCHEDULED train starts RUNNING, any other status is kept. */
    method UpdatePosition(newPosition: string)
      modifies this
      ensures position == Some(newPosition)
      ensures status == if old(status) == Scheduled then Running else old(status)
      ensures actualArrival == old(actualArrival)
    {
      position := Some(newPosition);
      if status == Scheduled {
        status := Running;
      }
    }

    /**
     * A positive delay marks the train DELAYED and, only if no actual arrival is known yet, sets it
     * to the scheduled arrival plus the delay; a delay of 0 or less marks it RUNNING. The priority
     * score is not recomputed.
     */
    method SetDelay(delay: int)
      modifies this
      ensures delay > 0 ==> status == Delayed
      ensures delay <= 0 ==> status == Running
      ensures actualArrival == if delay > 0 && old(actualArrival).None? then Some(scheduledArrival + delay) else old(actualArrival)
      ensures position == old(position)
      ensures delay > 0 && old(actualArrival).None? ==> IsDelayed() && DelayMinutes() == delay
      ensures old(status) != Delayed && delay > 0 && priorityScore == CalculatePriority(kind, old(status)) ==>
                priorityScore != CalculatePriority(kind, status)
    {
      if delay > 0 {
        status := Delayed;
        if actualArrival.None? {
          actualArrival := Some(scheduledArrival + delay);
        }
      } else {
        status := Running;
      }
    }
  }

  /** Every field of a train at one moment, as a value. */
  datatype TrainValue = TrainValue(id: string, number: string, kind: TrainType, scheduledArrival: int,
                                   scheduledDeparture: Option<int>, position: Option<string>,
                                   status: TrainStatus, actualArrival: Option<int>,
                                   actualDeparture: Option<int>, priorityScore: int)
  {
    predicate IsDelayed()
    {
      Late(scheduledArrival, status, actualArrival)
    }
  }

  function ValueOf(t: Train): TrainValue
    reads t
  {
    TrainValue(t.id, t.number, t.kind, t.scheduledArrival, t.scheduledDeparture, t.position,
               t.status, t.actualArrival, t.actualDeparture, t.priorityScore)
  }

  function ValuesOf(ts: seq<Train>): (vs: seq<TrainValue>)
    reads ts
    ensures |vs| == |ts|
    ensures forall i :: 0 <= i < |ts| ==> vs[i] == ValueOf(ts[i])
  {
    if ts == [] then [] else ValuesOf(ts[..|ts| - 1]) + [ValueOf(ts[|ts| - 1])]
  }

  /** How many of the trains are delayed (`len([t for t in trains if t.is_delayed])`). */
  function DelayedCount(vs: seq<TrainValue>): (n: nat)
    ensures n <= |vs|
    ensures n == 0 <==> forall i :: 0 <= i < |vs| ==> !vs[i].IsDelayed()
    ensures n == |vs| <==> forall i :: 0 <= i < |vs| ==> vs[i].IsDelayed()
  {
    if vs == [] then 0
    else DelayedCount(vs[..|vs| - 1]) + (if vs[|vs| - 1].IsDelayed() then 1 else 0)
  }
}
