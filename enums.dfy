/** The enumerations of the domain model (src/models/enums.py). */
module Enums {

  /** Train types; the integer value of each is its priority rank. */
  datatype TrainType = Freight | Passenger | Express

  /** The integer value of the type (`int(train_type)`): a higher rank means a higher priority. */
  function Rank(t: TrainType): (r: int)
    ensures 1 <= r <= 3
  {
    match t
    case Freight => 1
    case Passenger => 2
    case Express => 3
  }

  /** The types listed in rank order. */
  const AllTrainTypes: seq<TrainType> := [Freight, Passenger, Express]

  /** Ranks order the types FREIGHT < PASSENGER < EXPRESS, and no two types share a rank. */
  lemma RankOrderAndInjective()
    ensures Rank(Freight) < Rank(Passenger) < Rank(Express)
    ensures forall a: TrainType, b: TrainType :: Rank(a) == Rank(b) ==> a == b
    ensures forall t: TrainType :: Rank(t) == |AllTrainTypes[..Rank(t)]| && AllTrainTypes[Rank(t) - 1] == t
  {
  }

  /** The status of a train. */
  datatype TrainStatus = Scheduled | Running | Delayed | Held | Completed

  const AllStatuses: seq<TrainStatus> := [Scheduled, Running, Delayed, Held, Completed]

  /** TrainStatus has exactly the five members listed, each once. */
  lemma StatusesEnumerated()
    ensures |AllStatuses| == 5
    ensures forall s: TrainStatus :: s in AllStatuses
    ensures forall i, j :: 0 <= i < j < |AllStatuses| ==> AllStatuses[i] != AllStatuses[j]
  {
    forall s: TrainStatus ensures s in AllStatuses {
      match s
      case Scheduled => assert AllStatuses[0] == s;
      case Running => assert AllStatuses[1] == s;
      case Delayed => assert AllStatuses[2] == s;
      case Held => assert AllStatuses[3] == s;
      case Completed => assert AllStatuses[4] == s;
    }
  }

  /** The kinds of scheduling conflict. */
  datatype ConflictType = SameTrack | Crossing | Platform | Headway

  const AllConflictTypes: seq<ConflictType> := [SameTrack, Crossing, Platform, Headway]

  /** ConflictType has exactly the four members listed, each once, in declaration order. */
  lemma ConflictTypesEnumerated()
    ensures |AllConflictTypes| == 4
    ensures forall c: ConflictType :: c in AllConflictTypes
    ensures forall i, j :: 0 <= i < j < |AllConflictTypes| ==> AllConflictTypes[i] != AllConflictTypes[j]
  {
    forall c: ConflictType ensures c in AllConflictTypes {
      match c
      case SameTrack => assert AllConflictTypes[0] == c;
      case Crossing => assert AllConflictTypes[1] == c;
      case Platform => assert AllConflictTypes[2] == c;
      case Headway => assert AllConflictTypes[3] == c;
    }
  }
}
