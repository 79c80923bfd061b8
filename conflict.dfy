/**
 * A scheduling conflict (src/models/conflict.py). The involved train ids and the resolution
 * state change after construction; the other fields are fixed.
 */
module Conflicts {

  import opened Wrappers
  import opened Enums
  import opened Lists
  import opened Text

  /** `train_ids` after `add_train(id)`: the id is appended only when it is not already listed. */
  function WithTrain(ids: seq<string>, trainId: string): (r: seq<string>)
    ensures trainId in r
    ensures forall x :: x in r <==> x in ids || x == trainId
    ensures NoDuplicates(ids) ==> NoDuplicates(r)
  {
    if trainId in ids then ids else ids + [trainId]
  }

  /** Adding the same train twice is the same as adding it once. */
  lemma WithTrainIdempotent(ids: seq<string>, trainId: string)
    ensures WithTrain(WithTrain(ids, trainId), trainId) == WithTrain(ids, trainId)
    ensures trainId in ids ==> WithTrain(ids, trainId) == ids
    ensures trainId !in ids ==> |WithTrain(ids, trainId)| == |ids| + 1
  {
  }

  /** The text `generate_description` builds when no description was stored. */
  function DefaultDescription(kind: ConflictType, segmentId: Option<string>, trainIds: seq<string>): string
  {
    match kind
    case SameTrack =>
      "Track occupancy conflict on segment " + OptionText(segmentId) + " involving " +
      NatToString(|trainIds|) + " trains"
    case Headway => "Insufficient headway between trains " + Join(", ", trainIds)
    case Platform =>
      "Platform capacity exceeded at " + OptionText(segmentId) + " with trains " + Join(", ", trainIds)
    case Crossing => "Crossing conflict between trains " + Join(", ", trainIds)
  }

  /**
   * `to_dict` of a conflict: its fields at that moment, the description as `generate_description`
   * returns it, and the two derived figures (the id and the resolution time are not modelled).
   */
  datatype ConflictRecord = ConflictRecord(
    conflictType: ConflictType, trainIds: seq<string>, segmentId: Option<string>, scheduledTime: Option<int>,
    description: string, severity: int, isResolved: bool, resolutionAction: Option<string>,
    affectedTrainCount: nat, priorityWeight: int)

  class Conflict {
    const conflictType: ConflictType
    var trainIds: seq<string>
    const segmentId: Option<string>
    const scheduledTime: Option<int>
    const description: string
    const severity: int
    var isResolved: bool
    var resolutionAction: Option<string>

    /** A new conflict is unresolved and has no resolution action; the severity defaults to 1. */
    constructor (conflictType: ConflictType, trainIds: seq<string>, segmentId: Option<string> := None,
                 scheduledTime: Option<int> := None, description: string := "", severity: int := 1)
      ensures this.conflictType == conflictType && this.trainIds == trainIds
      ensures this.segmentId == segmentId && this.scheduledTime == scheduledTime
      ensures this.description == description && this.severity == severity
      ensures !isResolved && resolutionAction == None
    {
      this.conflictType := conflictType;
      this.trainIds := trainIds;
      this.segmentId := segmentId;
      this.scheduledTime := scheduledTime;
      this.description := description;
      this.severity := severity;
      this.isResolved := false;
      this.resolutionAction := None;
    }

    function AffectedTrainCount(): nat
      reads this
    {
      |trainIds|
    }

    /** Severity counts ten times as much as one more affected train. */
    function PriorityWeight(): int
      reads this
    {
      severity * 10 + AffectedTrainCount()
    }

    /** Lists the train unless it is already listed. */
    method AddTrain(trainId: string)
      modifies this
      ensures trainIds == WithTrain(old(trainIds), trainId)
      ensures AffectedTrainCount() == old(AffectedTrainCount()) + (if trainId in old(trainIds) then 0 else 1)
      ensures isResolved == old(isResolved) && resolutionAction == old(resolutionAction)
    {
      if trainId !in trainIds {
        trainIds := trainIds + [trainId];
      }
    }

    /** Drops the first listing of the train; an unlisted train changes nothing. */
    method RemoveTrain(trainId: string)
      modifies this
      ensures trainIds == RemoveFirst(old(trainIds), trainId)
      ensures AffectedTrainCount() == old(AffectedTrainCount()) - (if trainId in old(trainIds) then 1 else 0)
      ensures isResolved == old(isResolved) && resolutionAction == old(resolutionAction)
    {
      if trainId in trainIds {
        RemoveFirstCounts(trainIds, trainId);
        trainIds := RemoveFirst(trainIds, trainId);
      }
    }

    /** Marks the conflict resolved by `action`; the involved trains stay as they are. */
    method Resolve(action: string)
      modifies this
      ensures isResolved && resolutionAction == Some(action)
      ensures trainIds == old(trainIds)
    {
      isResolved := true;
      resolutionAction := Some(action);
    }

    /** The stored description when there is one, otherwise a text built from the kind. */
    function GenerateDescription(): (text: string)
      reads this
      ensures description != "" ==> text == description
      ensures text != ""
    {
      if description != "" then description else DefaultDescription(conflictType, segmentId, trainIds)
    }

    function ToDict(): ConflictRecord
      reads this
    {
      ConflictRecord(conflictType, trainIds, segmentId, scheduledTime, GenerateDescription(), severity,
                     isResolved, resolutionAction, AffectedTrainCount(), PriorityWeight())
    }
  }

  /** `[c.to_dict() for c in conflicts]`. */
  function ToDicts(cs: seq<Conflict>): (rs: seq<ConflictRecord>)
    reads cs
    ensures |rs| == |cs|
    ensures forall i :: 0 <= i < |cs| ==> rs[i] == cs[i].ToDict()
  {
    if cs == [] then [] else ToDicts(cs[..|cs| - 1]) + [cs[|cs| - 1].ToDict()]
  }

  /**
   * Severity dominates the priority weight: with fewer than ten trains involved, a more severe
   * conflict always weighs more, and among equally severe ones more trains weigh more.
   */
  lemma WeightOrdersBySeverity(a: Conflict, b: Conflict)
    requires |a.trainIds| < 10 && |b.trainIds| < 10
    ensures a.severity > b.severity ==> a.PriorityWeight() > b.PriorityWeight()
    ensures a.severity == b.severity ==> (a.PriorityWeight() > b.PriorityWeight() <==> |a.trainIds| > |b.trainIds|)
  {
  }
}
