/**
 * Track segments and the section that holds them (src/models/section.py). A segment's occupancy
 * list is the only state that changes after construction.
 */
module Sections {

  import opened Wrappers
  import opened Lists

  class TrackSegment {
    const id: string
    const name: string
    const lengthKm: real
    const capacity: int
    const isPlatform: bool
    const platformCapacity: int
    var occupancy: seq<string>

    /** A missing occupancy list becomes a fresh empty one. */
    constructor (id: string, name: string, lengthKm: real, capacity: int := 1,
                 isPlatform: bool := false, platformCapacity: int := 1,
                 occupancy: Option<seq<string>> := None)
      ensures this.id == id && this.name == name && this.lengthKm == lengthKm
      ensures this.capacity == capacity && this.isPlatform == isPlatform
      ensures this.platformCapacity == platformCapacity
      ensures this.occupancy == if occupancy.Some? then occupancy.value else []
    {
      this.id := id;
      this.name := name;
      this.lengthKm := lengthKm;
      this.capacity := capacity;
      this.isPlatform := isPlatform;
      this.platformCapacity := platformCapacity;
      this.occupancy := if occupancy.Some? then occupancy.value else [];
    }

    /** The limit that applies: the platform capacity on a platform, the plain capacity elsewhere. */
    function EffectiveCapacity(): int
    {
      if isPlatform then platformCapacity else capacity
    }

    /** Room for one more train. */
    predicate IsAvailable()
      reads this
    {
      |occupancy| < EffectiveCapacity()
    }

    /**
     * The limit that applies is the platform capacity on a platform and the plain capacity
     * elsewhere; a segment that keeps its invariant and has no room is exactly full.
     */
    lemma FullWhenUnavailable()
      requires Valid()
      ensures isPlatform ==> (IsAvailable() <==> |occupancy| < platformCapacity)
      ensures !isPlatform ==> (IsAvailable() <==> |occupancy| < capacity)
      ensures !IsAvailable() <==> |occupancy| == EffectiveCapacity()
    {
    }

    /** What adding and removing maintain: no train twice, and no more trains than the limit. */
    ghost predicate Valid()
      reads this
    {
      NoDuplicates(occupancy) && |occupancy| <= EffectiveCapacity()
    }

    /** Appends the train when there is room and it is not already here; otherwise changes nothing. */
    method AddTrain(trainId: string) returns (added: bool)
      modifies this
      ensures added <==> old(IsAvailable()) && trainId !in old(occupancy)
      ensures occupancy == if added then old(occupancy) + [trainId] else old(occupancy)
      ensures old(Valid()) ==> Valid()
    {
      if IsAvailable() && trainId !in occupancy {
        occupancy := occupancy + [trainId];
        added := true;
      } else {
        added := false;
      }
    }

    /** Removes the first occurrence of the train; a train that is not here changes nothing. */
    method RemoveTrain(trainId: string) returns (removed: bool)
      modifies this
      ensures removed <==> trainId in old(occupancy)
      ensures occupancy == RemoveFirst(old(occupancy), trainId)
      ensures removed ==> |occupancy| == |old(occupancy)| - 1
      ensures old(Valid()) ==> Valid() && trainId !in occupancy
    {
      if trainId in occupancy {
        RemoveFirstCounts(occupancy, trainId);
        if Valid() {
          RemoveFirstKeepsNoDuplicates(occupancy, trainId);
        }
        occupancy := RemoveFirst(occupancy, trainId);
        removed := true;
      } else {
        removed := false;
      }
    }
  }

  /**
   * Index of the segment the id lookup table keeps for `segmentId`: the table is built from the
   * list in order, so a later segment with the same id replaces an earlier one; -1 when none has it.
   */
  function LookupIndex(segments: seq<TrackSegment>, segmentId: string): (k: int)
    ensures -1 <= k < |segments|
    ensures k >= 0 ==> segments[k].id == segmentId
    ensures forall j :: k < j < |segments| ==> segments[j].id != segmentId
  {
    if segments == [] then -1
    else if segments[|segments| - 1].id == segmentId then |segments| - 1
    else LookupIndex(segments[..|segments| - 1], segmentId)
  }

  /** The segments with room for one more train, in list order. */
  function AvailableIn(segments: seq<TrackSegment>): (r: seq<TrackSegment>)
    reads segments
    ensures multiset(r) <= multiset(segments)
    ensures forall i :: 0 <= i < |r| ==> r[i].IsAvailable()
    ensures forall i :: 0 <= i < |segments| && segments[i].IsAvailable() ==> segments[i] in r
  {
    if segments == [] then []
    else
      var rest := AvailableIn(segments[..|segments| - 1]);
      var last := segments[|segments| - 1];
      assert segments == segments[..|segments| - 1] + [last];
      if last.IsAvailable() then rest + [last] else rest
  }

  /** The platform segments, in list order. */
  function PlatformsIn(segments: seq<TrackSegment>): (r: seq<TrackSegment>)
    ensures multiset(r) <= multiset(segments)
    ensures forall i :: 0 <= i < |r| ==> r[i].isPlatform
    ensures forall i :: 0 <= i < |segments| && segments[i].isPlatform ==> segments[i] in r
  {
    if segments == [] then []
    else
      var rest := PlatformsIn(segments[..|segments| - 1]);
      var last := segments[|segments| - 1];
      assert segments == segments[..|segments| - 1] + [last];
      if last.isPlatform then rest + [last] else rest
  }

  /** Filtering for availability preserves order: filtering a concatenation concatenates the parts. */
  lemma {:induction false} AvailableAppend(a: seq<TrackSegment>, b: seq<TrackSegment>)
    ensures AvailableIn(a + b) == AvailableIn(a) + AvailableIn(b)
    decreases |b|
  {
    if b == [] {
      assert a + b == a;
    } else {
      var b' := b[..|b| - 1];
      var ab := a + b;
      assert ab[..|ab| - 1] == a + b' && ab[|ab| - 1] == b[|b| - 1];
      AvailableAppend(a, b');
      assert AvailableIn(ab) == AvailableIn(a + b') + (if b[|b| - 1].IsAvailable() then [b[|b| - 1]] else []);
      assert AvailableIn(b) == AvailableIn(b') + (if b[|b| - 1].IsAvailable() then [b[|b| - 1]] else []);
    }
  }

  /** Filtering for platforms preserves order: filtering a concatenation concatenates the parts. */
  lemma {:induction false} PlatformsAppend(a: seq<TrackSegment>, b: seq<TrackSegment>)
    ensures PlatformsIn(a + b) == PlatformsIn(a) + PlatformsIn(b)
    decreases |b|
  {
    if b == [] {
      assert a + b == a;
    } else {
      var b' := b[..|b| - 1];
      var ab := a + b;
      assert ab[..|ab| - 1] == a + b' && ab[|ab| - 1] == b[|b| - 1];
      PlatformsAppend(a, b');
      assert PlatformsIn(ab) == PlatformsIn(a + b') + (if b[|b| - 1].isPlatform then [b[|b| - 1]] else []);
      assert PlatformsIn(b) == PlatformsIn(b') + (if b[|b| - 1].isPlatform then [b[|b| - 1]] else []);
    }
  }

  /** Sum of the plain capacities; platform capacities play no part. */
  function CapacitySum(segments: seq<TrackSegment>): int
  {
    if segments == [] then 0 else CapacitySum(segments[..|segments| - 1]) + segments[|segments| - 1].capacity
  }

  /** Number of train ids held across the segments. */
  function OccupancySum(segments: seq<TrackSegment>): (n: nat)
    reads segments
    ensures n == 0 <==> forall i :: 0 <= i < |segments| ==> segments[i].occupancy == []
  {
    if segments == [] then 0
    else
      var last := segments[|segments| - 1];
      assert segments == segments[..|segments| - 1] + [last];
      OccupancySum(segments[..|segments| - 1]) + |last.occupancy|
  }

  /** Both sums distribute over concatenation. */
  lemma {:induction false} SumsAppend(a: seq<TrackSegment>, b: seq<TrackSegment>)
    ensures CapacitySum(a + b) == CapacitySum(a) + CapacitySum(b)
    ensures OccupancySum(a + b) == OccupancySum(a) + OccupancySum(b)
    decreases |b|
  {
    if b == [] {
      assert a + b == a;
    } else {
      var b' := b[..|b| - 1];
      assert (a + b)[..|a + b| - 1] == a + b';
      SumsAppend(a, b');
    }
  }

  /** The plain capacities bound the total from both sides when none is negative. */
  lemma {:induction false} CapacitySumBounds(segments: seq<TrackSegment>)
    requires forall i :: 0 <= i < |segments| ==> segments[i].capacity >= 0
    ensures CapacitySum(segments) >= 0
    ensures forall i :: 0 <= i < |segments| ==> segments[i].capacity <= CapacitySum(segments)
  {
    if segments != [] {
      var init := segments[..|segments| - 1];
      CapacitySumBounds(init);
      assert forall i :: 0 <= i < |init| ==> init[i] == segments[i];
    }
  }

  /** A part over a positive whole is at most 1. */
  lemma QuotientAtMostOne(part: real, whole: real)
    requires 0.0 <= part <= whole && whole > 0.0
    ensures part / whole <= 1.0
  {
    var inv := 1.0 / whole;
    assert inv > 0.0;
    calc {
      part / whole;
    ==
      part * inv;
    <=
      whole * inv;
    ==
      1.0;
    }
  }

  /** Segments without platforms that respect their capacity hold at most the sum of the capacities. */
  lemma {:induction false} OccupancyWithinCapacity(segments: seq<TrackSegment>)
    requires forall i :: 0 <= i < |segments| ==> segments[i].Valid() && !segments[i].isPlatform
    ensures OccupancySum(segments) <= CapacitySum(segments)
  {
    if segments != [] {
      var init := segments[..|segments| - 1];
      assert forall i :: 0 <= i < |init| ==> init[i] == segments[i];
      OccupancyWithinCapacity(init);
    }
  }

  /**
   * A platform segment of capacity 1 and platform capacity 3 takes three trains while keeping
   * its invariant, and the section made of it reports a utilization rate of 3.
   */
  method PlatformUtilizationExample() returns (segment: TrackSegment, rate: real)
    ensures segment.capacity == 1 && segment.isPlatform && segment.platformCapacity == 3
    ensures segment.Valid() && |segment.occupancy| == 3
    ensures rate == 3.0
  {
    segment := new TrackSegment("P1", "Platform 1", 0.5, 1, true, 3);
    var a := segment.AddTrain("T1");
    var b := segment.AddTrain("T2");
    var c := segment.AddTrain("T3");
    assert a && b && c;
    var section := new Section("S1", "Station", [segment]);
    assert [segment][..0] == [];
    assert CapacitySum([segment]) == segment.capacity;
    assert section.TotalCapacity() == 1;
    assert section.CurrentOccupancy() == 3;
    rate := section.UtilizationRate();
  }

  class Section {
    const id: string
    const name: string
    const segments: seq<TrackSegment>
    const minHeadway: int

    constructor (id: string, name: string, segments: seq<TrackSegment>, minHeadway: int := 5)
      ensures this.id == id && this.name == name && this.segments == segments && this.minHeadway == minHeadway
    {
      this.id := id;
      this.name := name;
      this.segments := segments;
      this.minHeadway := minHeadway;
    }

    /** The segment registered under `segmentId`; with duplicate ids the last one wins. */
    function GetSegment(segmentId: string): (r: Option<TrackSegment>)
      ensures r.None? <==> forall i :: 0 <= i < |segments| ==> segments[i].id != segmentId
      ensures r.Some? ==> r.value.id == segmentId
      ensures r.Some? ==> exists k :: (0 <= k < |segments| && segments[k] == r.value &&
                                       forall j :: k < j < |segments| ==> segments[j].id != segmentId)
    {
      var k := LookupIndex(segments, segmentId);
      if k < 0 then None else Some(segments[k])
    }

    function AvailableSegments(): seq<TrackSegment>
      reads segments
    {
      AvailableIn(segments)
    }

    function PlatformSegments(): seq<TrackSegment>
    {
      PlatformsIn(segments)
    }

    function TotalCapacity(): int
    {
      CapacitySum(segments)
    }

    function CurrentOccupancy(): nat
      reads segments
    {
      OccupancySum(segments)
    }

    /**
     * Occupancy over total capacity, or 0 when the total capacity is not positive. The total
     * counts plain capacities only, so the rate is not bounded by 1 once platforms hold more.
     */
    function UtilizationRate(): (r: real)
      reads segments
      ensures TotalCapacity() > 0 ==> r * TotalCapacity() as real == CurrentOccupancy() as real
      ensures TotalCapacity() > 0 ==> r >= 0.0
      ensures TotalCapacity() <= 0 ==> r == 0.0
      ensures r == 0.0 <==> TotalCapacity() <= 0 || CurrentOccupancy() == 0
    {
      if TotalCapacity() > 0 then CurrentOccupancy() as real / TotalCapacity() as real else 0.0
    }

    /** Without platforms, segments that keep their invariant hold no more trains than the total capacity. */
    lemma UtilizationAtMostOneWithoutPlatforms()
      requires forall i :: 0 <= i < |segments| ==> segments[i].Valid() && !segments[i].isPlatform
      ensures 0.0 <= UtilizationRate() <= 1.0
    {
      OccupancyWithinCapacity(segments);
      if TotalCapacity() > 0 {
        QuotientAtMostOne(CurrentOccupancy() as real, TotalCapacity() as real);
      }
    }

    /** An unknown segment cannot take a train; a known one can when it has room. */
    predicate CanAccommodateTrain(segmentId: string)
      reads segments
    {
      match GetSegment(segmentId)
      case Some(s) => s.IsAvailable()
      case None => false
    }

    /** A segment can take a train exactly when the section knows it and lists it among its segments with room. */
    lemma AccommodatingMeansAvailable(segmentId: string)
      ensures CanAccommodateTrain(segmentId) <==>
                GetSegment(segmentId).Some? && GetSegment(segmentId).value in AvailableSegments()
    {
      var all := segments;
      if GetSegment(segmentId).Some? {
        var s := GetSegment(segmentId).value;
        var k :| 0 <= k < |all| && all[k] == s && forall j :: k < j < |all| ==> all[j].id != segmentId;
        if s in AvailableSegments() {
          var r := AvailableSegments();
          var i :| 0 <= i < |r| && r[i] == s;
        }
      }
    }

    /** Adds the train to the segment registered under `segmentId`; an unknown id changes nothing. */
    method AssignTrainToSegment(trainId: string, segmentId: string) returns (accepted: bool)
      modifies segments
      ensures GetSegment(segmentId).None? ==> !accepted
      ensures forall s :: s in segments && Some(s) != GetSegment(segmentId) ==> s.occupancy == old(s.occupancy)
      ensures GetSegment(segmentId).Some? ==>
                var s := GetSegment(segmentId).value;
                (accepted <==> old(s.IsAvailable()) && trainId !in old(s.occupancy)) &&
                s.occupancy == (if accepted then old(s.occupancy) + [trainId] else old(s.occupancy))
      ensures accepted ==> old(CanAccommodateTrain(segmentId))
    {
      match GetSegment(segmentId) {
        case Some(s) =>
          accepted := s.AddTrain(trainId);
        case None =>
          accepted := false;
      }
    }

    /** Removes the train from the segment registered under `segmentId`; an unknown id changes nothing. */
    method RemoveTrainFromSegment(trainId: string, segmentId: string) returns (removed: bool)
      modifies segments
      ensures GetSegment(segmentId).None? ==> !removed
      ensures forall s :: s in segments && Some(s) != GetSegment(segmentId) ==> s.occupancy == old(s.occupancy)
      ensures GetSegment(segmentId).Some? ==>
                var s := GetSegment(segmentId).value;
                (removed <==> trainId in old(s.occupancy)) &&
                s.occupancy == RemoveFirst(old(s.occupancy), trainId)
    {
      match GetSegment(segmentId) {
        case Some(s) =>
          removed := s.RemoveTrain(trainId);
        case None =>
          removed := false;
      }
    }

    /** Id of the first segment, in list order, whose occupancy holds the train. */
    function FindTrainPosition(trainId: string): (r: Option<string>)
      reads segments
      ensures r.None? <==> forall i :: 0 <= i < |segments| ==> trainId !in segments[i].occupancy
      ensures r.Some? ==> exists k :: (0 <= k < |segments| && segments[k].id == r.value &&
                                       trainId in segments[k].occupancy &&
                                       forall j :: 0 <= j < k ==> trainId !in segments[j].occupancy)
    {
      FirstHolding(segments, trainId)
    }
  }

  function FirstHolding(segments: seq<TrackSegment>, trainId: string): (r: Option<string>)
    reads segments
    ensures r.None? <==> forall i :: 0 <= i < |segments| ==> trainId !in segments[i].occupancy
    ensures r.Some? ==> exists k :: (0 <= k < |segments| && segments[k].id == r.value &&
                                     trainId in segments[k].occupancy &&
                                     forall j :: 0 <= j < k ==> trainId !in segments[j].occupancy)
  {
    if segments == [] then None
    else if trainId in segments[0].occupancy then Some(segments[0].id)
    else
      var r := FirstHolding(segments[1..], trainId);
      assert r.Some? ==> exists k :: (1 <= k < |segments| && segments[k].id == r.value &&
                                      trainId in segments[k].occupancy &&
                                      forall j :: 0 <= j < k ==> trainId !in segments[j].occupancy) by {
        if r.Some? {
          var k' :| 0 <= k' < |segments[1..]| && segments[1..][k'].id == r.value &&
                    trainId in segments[1..][k'].occupancy &&
                    forall j :: 0 <= j < k' ==> trainId !in segments[1..][j].occupancy;
          assert segments[k' + 1] == segments[1..][k'];
        }
      }
      r
  }
}
