/**
 * Conflict detection over one section (src/optimization/conflict_detector.py). The detector sorts
 * the trains by scheduled arrival and reports, in this order, same-track overflows, headway
 * violations between consecutive trains and platform overflows. The trains are only read.
 *
 * Each detection method is proved against a specification function that yields the conflicts as
 * plain values (`Finding`); a created `Conflict` object realizes a finding when its fields carry
 * the finding's values and it is still unresolved.
 */
module ConflictDetection {

  import opened Wrappers
  import opened Enums
  import opened Lists
  import opened Text
  import opened Sorting
  import opened Trains
  import opened Sections
  import opened Conflicts

  function Max(a: int, b: int): int { if a >= b then a else b }

  function Min(a: int, b: int): int { if a <= b then a else b }

  /** What the detector reads of a train: id, occupancy interval and position. */
  datatype TrainState = TrainState(id: string, arrival: int, departure: int, position: Option<string>)
  {
    predicate Positioned()
    {
      IsSet(position)
    }
  }

  /** The train as the detector sees it; a missing departure becomes arrival plus travel time. */
  function StateOf(t: Train): TrainState
    reads t
  {
    TrainState(t.id, t.scheduledArrival, t.EffectiveDeparture(), t.position)
  }

  function StatesOf(ts: seq<Train>): (vs: seq<TrainState>)
    reads ts
    ensures |vs| == |ts|
    ensures forall i :: 0 <= i < |ts| ==> vs[i] == StateOf(ts[i])
  {
    if ts == [] then [] else [StateOf(ts[0])] + StatesOf(ts[1..])
  }

  /** The sort key of `detect_conflicts`. */
  function ArrivalKey(t: Train): int
  {
    t.scheduledArrival
  }

  function StateArrival(v: TrainState): int
  {
    v.arrival
  }

  /** The values a conflict's description text is formatted from. */
  datatype Detail =
    | TrackDetail(segment: string, capacity: int)
    | HeadwayDetail(gap: int, required: int)
    | PlatformDetail(name: string, capacity: int)

  /** A conflict as a value: what a `Conflict` is built from. */
  datatype Finding = Finding(kind: ConflictType, trainIds: seq<string>, segmentId: Option<string>,
                             time: Option<int>, severity: int, detail: Detail)

  /** The description text the detector stores with the conflict. */
  function Describe(f: Finding): string
  {
    match f.detail
    case TrackDetail(segment, capacity) => TrackDescription(|f.trainIds|, segment, capacity)
    case HeadwayDetail(gap, required) => HeadwayDescription(gap, required)
    case PlatformDetail(name, capacity) => PlatformDescription(|f.trainIds|, name, capacity)
  }

  /** `c` was built from `f` and has not been resolved or acted on since. */
  predicate Realizes(c: Conflict, f: Finding)
    reads c
  {
    c.conflictType == f.kind && c.trainIds == f.trainIds && c.segmentId == f.segmentId &&
    c.scheduledTime == f.time && c.severity == f.severity && c.description == Describe(f) &&
    !c.isResolved && c.resolutionAction == None
  }

  predicate RealizesAll(cs: seq<Conflict>, fs: seq<Finding>)
    reads cs
  {
    |cs| == |fs| && forall i :: 0 <= i < |cs| ==> Realizes(cs[i], fs[i])
  }

  /**
   * Builds one `Conflict` per finding, in order. Each new conflict is unresolved and carries the
   * finding's type, trains, segment, time, severity and description text.
   */
  method Materialize(fs: seq<Finding>) returns (cs: seq<Conflict>)
    ensures RealizesAll(cs, fs)
    ensures forall c :: c in cs ==> fresh(c)
  {
    cs := [];
    for k := 0 to |fs|
      invariant |cs| == k
      invariant forall i :: 0 <= i < k ==> Realizes(cs[i], fs[i])
      invariant forall c :: c in cs ==> fresh(c)
    {
      var f := fs[k];
      var c := new Conflict(f.kind, f.trainIds, f.segmentId, f.time, Describe(f), f.severity);
      cs := cs + [c];
    }
  }

  // ---------------------------------------------------------------------------------------------
  // Same-track conflicts

  /** One train's occupancy of its segment: `{'train', 'start', 'end'}`. */
  datatype Entry = Entry(id: string, start: int, end: int)

  function StartKey(e: Entry): int
  {
    e.start
  }

  function IdsOf(es: seq<Entry>): (ids: seq<string>)
  {
    seq(|es|, i requires 0 <= i < |es| => es[i].id)
  }

  lemma IdsOfCons(es: seq<Entry>)
    requires es != []
    ensures IdsOf(es) == [es[0].id] + IdsOf(es[1..])
  {
    assert IdsOf(es)[1..] == IdsOf(es[1..]);
  }

  /** The segment ids of the positioned trains, in the order they are first met (dict insertion order). */
  function SegOrder(vs: seq<TrainState>): seq<string>
  {
    if vs == [] then []
    else
      var order := SegOrder(vs[..|vs| - 1]);
      var v := vs[|vs| - 1];
      if v.Positioned() && v.position.value !in order then order + [v.position.value] else order
  }

  /** The occupancies recorded for segment `sid`, in train order. */
  function ScheduleFor(vs: seq<TrainState>, sid: string): seq<Entry>
  {
    if vs == [] then []
    else
      var v := vs[|vs| - 1];
      ScheduleFor(vs[..|vs| - 1], sid) +
      (if v.Positioned() && v.position.value == sid then [Entry(v.id, v.arrival, v.departure)] else [])
  }

  /**
   * The trains that join a cluster from index `j` on, given the running end `end` of the trains
   * already in it: a train joins while it starts strictly before that end, and the scan stops at
   * the first one that does not.
   */
  function ChainRest(s: seq<Entry>, j: nat, end: int): seq<string>
    requires j <= |s|
    decreases |s| - j
  {
    if j == |s| || s[j].start >= end then []
    else [s[j].id] + ChainRest(s, j + 1, Max(end, s[j].end))
  }

  /** The overlapping trains gathered from sorted index `i`. */
  function Cluster(s: seq<Entry>, i: nat): seq<string>
    requires i < |s|
  {
    [s[i].id] + ChainRest(s, i + 1, s[i].end)
  }

  /** The running end after the entries `s[j..k]` have been merged into a cluster whose end was `e`. */
  function Reach(s: seq<Entry>, j: nat, k: nat, e: int): int
    requires j <= k <= |s|
    decreases k - j
  {
    if k == j then e else Max(Reach(s, j, k - 1, e), s[k - 1].end)
  }

  function TrackDescription(count: nat, sid: string, capacity: int): string
  {
    "Track capacity exceeded: " + NatToString(count) + " trains on segment " + sid +
    " (capacity: " + IntToString(capacity) + ")"
  }

  /** The same-track conflict for the trains `ids` overlapping from time `start` on segment `sid`. */
  function TrackFinding(ids: seq<string>, sid: string, start: int, capacity: int): Finding
  {
    Finding(SameTrack, ids, Some(sid), Some(start), Min(5, |ids|), TrackDetail(sid, capacity))
  }

  /** The same-track findings of the clusters starting at indices below `n`. */
  function ClusterFindings(s: seq<Entry>, n: nat, sid: string, capacity: int): seq<Finding>
    requires n <= |s|
  {
    if n == 0 then []
    else
      ClusterFindings(s, n - 1, sid, capacity) +
      (if |Cluster(s, n - 1)| > capacity then [TrackFinding(Cluster(s, n - 1), sid, s[n - 1].start, capacity)] else [])
  }

  /** The same-track findings of the segments listed in `order`; unknown segments contribute none. */
  function TrackOver(section: Section, vs: seq<TrainState>, order: seq<string>): seq<Finding>
  {
    if order == [] then []
    else
      var sid := order[|order| - 1];
      TrackOver(section, vs, order[..|order| - 1]) + SegmentFindings(section, vs, sid)
  }

  function TrackSpec(section: Section, vs: seq<TrainState>): seq<Finding>
  {
    TrackOver(section, vs, SegOrder(vs))
  }

  /** Groups the positioned trains by segment, keeping the order segments are first met. */
  method GroupBySegment(vs: seq<TrainState>) returns (order: seq<string>, schedules: map<string, seq<Entry>>)
    ensures order == SegOrder(vs)
    ensures forall sid :: sid in order ==> sid in schedules && schedules[sid] == ScheduleFor(vs, sid)
  {
    order := [];
    schedules := map[];
    for k := 0 to |vs|
      invariant order == SegOrder(vs[..k])
      invariant forall sid :: sid in schedules <==> sid in order
      invariant forall sid :: sid in order ==> schedules[sid] == ScheduleFor(vs[..k], sid)
    {
      var v := vs[k];
      assert vs[..k + 1][..k] == vs[..k] && vs[..k + 1][k] == v;
      if v.Positioned() {
        var sid := v.position.value;
        if sid !in schedules {
          SegOrderMatchesSchedules(vs[..k], sid);
          order := order + [sid];
          schedules := schedules[sid := []];
        }
        schedules := schedules[sid := schedules[sid] + [Entry(v.id, v.arrival, v.departure)]];
      }
    }
    assert vs[..|vs|] == vs;
  }

  /**
   * The inner scan from sorted index `i`: gathers the trains that start before the running end,
   * stopping at the first that does not. The result is exactly the maximal chain `Cluster(s, i)`.
   */
  method GatherOverlapping(s: seq<Entry>, i: nat) returns (overlapping: seq<string>)
    requires i < |s|
    ensures overlapping == Cluster(s, i)
  {
    overlapping := [s[i].id];
    var currentEnd := s[i].end;
    for j := i + 1 to |s|
      invariant overlapping + ChainRest(s, j, currentEnd) == Cluster(s, i)
    {
      if s[j].start < currentEnd {
        overlapping := overlapping + [s[j].id];
        currentEnd := Max(currentEnd, s[j].end);
      } else {
        assert overlapping == Cluster(s, i);
        break;
      }
    }
  }

  /**
   * The forward chain scan over one segment's sorted schedule: one conflict per start index whose
   * cluster has more trains than the segment's capacity.
   */
  method ClusterConflicts(s: seq<Entry>, sid: string, capacity: int) returns (fs: seq<Finding>)
    ensures fs == ClusterFindings(s, |s|, sid, capacity)
  {
    fs := [];
    for i := 0 to |s|
      invariant fs == ClusterFindings(s, i, sid, capacity)
    {
      var overlapping := GatherOverlapping(s, i);
      if |overlapping| > capacity {
        fs := fs + [TrackFinding(overlapping, sid, s[i].start, capacity)];
      }
    }
  }

  /** The same-track findings of one segment: none when the section does not know it. */
  function SegmentFindings(section: Section, vs: seq<TrainState>, sid: string): seq<Finding>
  {
    match section.GetSegment(sid)
    case None => []
    case Some(segment) =>
      var s := SortBy(ScheduleFor(vs, sid), StartKey);
      ClusterFindings(s, |s|, sid, segment.capacity)
  }

  /** `_detect_track_conflicts` on trains already sorted by arrival. */
  method DetectTrackConflicts(section: Section, vs: seq<TrainState>) returns (fs: seq<Finding>)
    ensures fs == TrackSpec(section, vs)
  {
    var order, schedules := GroupBySegment(vs);
    fs := [];
    for g := 0 to |order|
      invariant fs == TrackOver(section, vs, order[..g])
    {
      var sid := order[g];
      assert order[..g + 1][..g] == order[..g] && order[..g + 1][g] == sid;
      assert TrackOver(section, vs, order[..g + 1]) == TrackOver(section, vs, order[..g]) + SegmentFindings(section, vs, sid);
      var segment := section.GetSegment(sid);
      if segment.Some? {
        var schedule := SortBy(schedules[sid], StartKey);
        var found := ClusterConflicts(schedule, sid, segment.value.capacity);
        assert found == SegmentFindings(section, vs, sid);
        fs := fs + found;
      } else {
        assert SegmentFindings(section, vs, sid) == [];
      }
    }
    assert order[..|order|] == order;
  }

  // ---------------------------------------------------------------------------------------------
  // Headway conflicts

  /**
   * Two trains count as sharing a path whenever both have a position, whichever segments those
   * are.
   */
  predicate TrainsOnSamePath(a: TrainState, b: TrainState)
  {
    a.Positioned() && b.Positioned()
  }

  predicate HeadwayViolated(a: TrainState, b: TrainState, minHeadway: int)
  {
    TrainsOnSamePath(a, b) && b.arrival - a.departure < minHeadway
  }

  function HeadwayDescription(gap: int, minHeadway: int): string
  {
    "Insufficient headway: " + IntToString(gap) + ".0 min (required: " + IntToString(minHeadway) + " min)"
  }

  function HeadwayFinding(a: TrainState, b: TrainState, minHeadway: int): Finding
  {
    Finding(Headway, [a.id, b.id], None, Some(b.arrival), 3, HeadwayDetail(b.arrival - a.departure, minHeadway))
  }

  /** The headway findings of the consecutive pairs `(k, k + 1)` with `k < n`. */
  function HeadwayUpTo(vs: seq<TrainState>, n: nat, minHeadway: int): seq<Finding>
    requires n == 0 || n < |vs|
  {
    if n == 0 then []
    else
      HeadwayUpTo(vs, n - 1, minHeadway) +
      (if HeadwayViolated(vs[n - 1], vs[n], minHeadway) then [HeadwayFinding(vs[n - 1], vs[n], minHeadway)] else [])
  }

  function HeadwaySpec(vs: seq<TrainState>, minHeadway: int): seq<Finding>
  {
    if vs == [] then [] else HeadwayUpTo(vs, |vs| - 1, minHeadway)
  }

  /** `_detect_headway_conflicts`: checks each consecutive pair once. */
  method DetectHeadwayConflicts(vs: seq<TrainState>, minHeadway: int) returns (fs: seq<Finding>)
    ensures fs == HeadwaySpec(vs, minHeadway)
  {
    fs := [];
    var i := 0;
    while i < |vs| - 1
      invariant i == 0 || i < |vs|
      invariant fs == HeadwayUpTo(vs, i, minHeadway)
    {
      var current := vs[i];
      var next := vs[i + 1];
      if TrainsOnSamePath(current, next) {
        var actualHeadway := next.arrival - current.departure;
        if actualHeadway < minHeadway {
          fs := fs + [HeadwayFinding(current, next, minHeadway)];
        }
      }
      i := i + 1;
    }
  }

  // ---------------------------------------------------------------------------------------------
  // Platform conflicts

  /** Ids of the trains whose position is exactly `pid`, in train order. */
  function IdsAt(vs: seq<TrainState>, pid: string): seq<string>
  {
    if vs == [] then []
    else
      var v := vs[|vs| - 1];
      IdsAt(vs[..|vs| - 1], pid) + (if v.position == Some(pid) then [v.id] else [])
  }

  function PlatformDescription(count: nat, name: string, capacity: int): string
  {
    "Platform capacity exceeded: " + NatToString(count) + " trains at platform " + name +
    " (capacity: " + IntToString(capacity) + ")"
  }

  /** More trains are positioned at the platform than its platform capacity. */
  predicate Overfull(p: TrackSegment, vs: seq<TrainState>)
  {
    |IdsAt(vs, p.id)| > p.platformCapacity
  }

  function PlatformFinding(p: TrackSegment, ids: seq<string>): Finding
  {
    Finding(Platform, ids, Some(p.id), None, 4, PlatformDetail(p.name, p.platformCapacity))
  }

  /** One finding per listed platform whose train count exceeds its platform capacity. */
  function PlatformOver(platforms: seq<TrackSegment>, vs: seq<TrainState>): seq<Finding>
  {
    if platforms == [] then []
    else
      var p := platforms[|platforms| - 1];
      PlatformOver(platforms[..|platforms| - 1], vs) +
      (if Overfull(p, vs) then [PlatformFinding(p, IdsAt(vs, p.id))] else [])
  }

  function PlatformSpec(section: Section, vs: seq<TrainState>): seq<Finding>
  {
    PlatformOver(section.PlatformSegments(), vs)
  }

  /** The inner loop of the platform check: ids of the trains positioned at `pid`, in train order. */
  method TrainsAtPlatform(vs: seq<TrainState>, pid: string) returns (platformTrains: seq<string>)
    ensures platformTrains == IdsAt(vs, pid)
  {
    platformTrains := [];
    for k := 0 to |vs|
      invariant platformTrains == IdsAt(vs[..k], pid)
    {
      assert vs[..k + 1][..k] == vs[..k];
      if vs[k].position == Some(pid) {
        platformTrains := platformTrains + [vs[k].id];
      }
    }
    assert vs[..|vs|] == vs;
  }

  /** `_detect_platform_conflicts`: counts the trains at each platform, whatever their times. */
  method DetectPlatformConflicts(section: Section, vs: seq<TrainState>) returns (fs: seq<Finding>)
    ensures fs == PlatformSpec(section, vs)
  {
    var platforms := section.PlatformSegments();
    fs := [];
    for g := 0 to |platforms|
      invariant fs == PlatformOver(platforms[..g], vs)
    {
      assert platforms[..g + 1][..g] == platforms[..g];
      var platform := platforms[g];
      var platformTrains := TrainsAtPlatform(vs, platform.id);
      if |platformTrains| > platform.platformCapacity {
        fs := fs + [PlatformFinding(platform, platformTrains)];
      }
    }
    assert platforms[..|platforms|] == platforms;
  }

  // ---------------------------------------------------------------------------------------------
  // All conflicts

  /** Track findings, then headway findings, then platform findings, over arrival-sorted trains. */
  function Detection(section: Section, vs: seq<TrainState>): seq<Finding>
  {
    TrackSpec(section, vs) + HeadwaySpec(vs, section.minHeadway) + PlatformSpec(section, vs)
  }

  /**
   * `detect_conflicts`: sorts the trains stably by scheduled arrival, runs the three checks on
   * what it reads of the sorted trains, and returns the conflicts in that order.
   */
  method DetectConflicts(section: Section, trains: seq<Train>) returns (cs: seq<Conflict>)
    ensures RealizesAll(cs, Detection(section, old(StatesOf(SortBy(trains, ArrivalKey)))))
    ensures forall c :: c in cs ==> fresh(c)
  {
    var sorted := SortBy(trains, ArrivalKey);
    var vs := StatesOf(sorted);
    var track := DetectTrackConflicts(section, vs);
    var headway := DetectHeadwayConflicts(vs, section.minHeadway);
    var platform := DetectPlatformConflicts(section, vs);
    cs := Materialize(track + headway + platform);
  }

  // ---------------------------------------------------------------------------------------------
  // Summary

  datatype Query = Resolved | Pending | HighSeverity | MediumSeverity | LowSeverity | OfKind(kind: ConflictType)

  predicate Matches(c: ConflictRecord, q: Query)
  {
    match q
    case Resolved => c.isResolved
    case Pending => !c.isResolved
    case HighSeverity => c.severity >= 4
    case MediumSeverity => c.severity == 3
    case LowSeverity => c.severity <= 2
    case OfKind(k) => c.conflictType == k
  }

  /** Number of conflicts matching the query (a `len([c for c in conflicts if ...])`). */
  function CountMatching(cs: seq<ConflictRecord>, q: Query): (n: nat)
    ensures n <= |cs|
  {
    if cs == [] then 0
    else CountMatching(cs[..|cs| - 1], q) + (if Matches(cs[|cs| - 1], q) then 1 else 0)
  }

  datatype ConflictSummary = ConflictSummary(
    totalConflicts: nat, resolvedConflicts: nat, pendingConflicts: nat,
    highSeverity: nat, mediumSeverity: nat, lowSeverity: nat,
    sameTrackConflicts: nat, crossingConflicts: nat, platformConflicts: nat, headwayConflicts: nat)

  /** Every conflict is resolved or pending, of high, medium or low severity, and of one kind. */
  lemma {:induction false} CountsPartition(cs: seq<ConflictRecord>)
    ensures CountMatching(cs, Resolved) + CountMatching(cs, Pending) == |cs|
    ensures CountMatching(cs, HighSeverity) + CountMatching(cs, MediumSeverity) + CountMatching(cs, LowSeverity) == |cs|
    ensures CountMatching(cs, OfKind(SameTrack)) + CountMatching(cs, OfKind(Crossing)) +
            CountMatching(cs, OfKind(Platform)) + CountMatching(cs, OfKind(Headway)) == |cs|
  {
    if cs != [] {
      CountsPartition(cs[..|cs| - 1]);
    }
  }

  /**
   * `get_conflict_summary`, on the fields it reads of each conflict: the counts partition the
   * conflicts three ways.
   */
  function GetConflictSummary(cs: seq<ConflictRecord>): (r: ConflictSummary)
    ensures r.totalConflicts == |cs|
    ensures r.resolvedConflicts + r.pendingConflicts == r.totalConflicts
    ensures r.highSeverity + r.mediumSeverity + r.lowSeverity == r.totalConflicts
    ensures r.sameTrackConflicts + r.crossingConflicts + r.platformConflicts + r.headwayConflicts == r.totalConflicts
  {
    CountsPartition(cs);
    ConflictSummary(
      |cs|, CountMatching(cs, Resolved), CountMatching(cs, Pending),
      CountMatching(cs, HighSeverity), CountMatching(cs, MediumSeverity), CountMatching(cs, LowSeverity),
      CountMatching(cs, OfKind(SameTrack)), CountMatching(cs, OfKind(Crossing)),
      CountMatching(cs, OfKind(Platform)), CountMatching(cs, OfKind(Headway)))
  }

  /** The `to_dict` of a conflict freshly built from `f`. */
  function PendingRecord(f: Finding): ConflictRecord
  {
    ConflictRecord(f.kind, f.trainIds, f.segmentId, f.time, Describe(f), f.severity, false, None,
                   |f.trainIds|, f.severity * 10 + |f.trainIds|)
  }

  function PendingRecords(fs: seq<Finding>): seq<ConflictRecord>
  {
    seq(|fs|, i requires 0 <= i < |fs| => PendingRecord(fs[i]))
  }

  /** Every finding is described by a non-empty text, so `to_dict` keeps it as it is. */
  lemma DescriptionGiven(f: Finding)
    ensures Describe(f) != ""
  {
    match f.detail
    case TrackDetail(_, _) =>
    case HeadwayDetail(_, _) =>
    case PlatformDetail(_, _) =>
  }

  /** A conflict that realizes a finding serializes to that finding's pending record. */
  lemma RealizedToDict(c: Conflict, f: Finding)
    requires Realizes(c, f)
    ensures c.ToDict() == PendingRecord(f)
  {
    DescriptionGiven(f);
  }

  /** Conflicts that realize the findings serialize to the findings' pending records, in order. */
  lemma RealizedToDicts(cs: seq<Conflict>, fs: seq<Finding>)
    requires RealizesAll(cs, fs)
    ensures ToDicts(cs) == PendingRecords(fs)
  {
    forall i | 0 <= i < |cs|
      ensures ToDicts(cs)[i] == PendingRecords(fs)[i]
    {
      RealizedToDict(cs[i], fs[i]);
    }
  }

  /** Freshly detected conflicts are all pending. */
  lemma {:induction false} DetectedConflictsArePending(fs: seq<Finding>)
    ensures GetConflictSummary(PendingRecords(fs)).resolvedConflicts == 0
    ensures GetConflictSummary(PendingRecords(fs)).pendingConflicts == |fs|
  {
    if fs != [] {
      DetectedConflictsArePending(fs[..|fs| - 1]);
      assert PendingRecords(fs)[..|fs| - 1] == PendingRecords(fs[..|fs| - 1]);
    }
  }

  // ---------------------------------------------------------------------------------------------
  // Properties of the specification

  /** A segment is listed in the grouping order exactly when some train is scheduled on it; no segment twice. */
  lemma {:induction false} SegOrderMatchesSchedules(vs: seq<TrainState>, sid: string)
    ensures sid in SegOrder(vs) <==> ScheduleFor(vs, sid) != []
    ensures NoDuplicates(SegOrder(vs))
  {
    if vs != [] {
      SegOrderMatchesSchedules(vs[..|vs| - 1], sid);
      var v := vs[|vs| - 1];
      if v.Positioned() {
        SegOrderMatchesSchedules(vs[..|vs| - 1], v.position.value);
      }
    }
  }

  lemma {:induction false} ReachShift(s: seq<Entry>, j: nat, k: nat, e: int)
    requires j < k <= |s|
    ensures Reach(s, j + 1, k, Max(e, s[j].end)) == Reach(s, j, k, e)
    decreases k
  {
    if k > j + 1 {
      ReachShift(s, j, k - 1, e);
    }
  }

  /** The chain gathered from index `j` is the ids of the entries `s[j..]` it runs over. */
  lemma {:induction false} ChainRestIds(s: seq<Entry>, j: nat, e: int)
    requires j <= |s|
    ensures j + |ChainRest(s, j, e)| <= |s|
    ensures ChainRest(s, j, e) == IdsOf(s[j..j + |ChainRest(s, j, e)|])
    decreases |s| - j
  {
    if j < |s| && s[j].start < e {
      var e' := Max(e, s[j].end);
      ChainRestIds(s, j + 1, e');
      var n := |ChainRest(s, j + 1, e')|;
      assert ChainRest(s, j, e) == [s[j].id] + ChainRest(s, j + 1, e');
      IdsOfCons(s[j..j + 1 + n]);
      assert s[j..j + 1 + n][1..] == s[j + 1..j + 1 + n];
    }
  }

  /** Every entry the chain runs over starts before the running end of the entries before it. */
  lemma {:induction false} ChainRestJoined(s: seq<Entry>, j: nat, e: int)
    requires j <= |s|
    ensures j + |ChainRest(s, j, e)| <= |s|
    ensures forall k :: j <= k < j + |ChainRest(s, j, e)| ==> s[k].start < Reach(s, j, k, e)
    decreases |s| - j
  {
    if j < |s| && s[j].start < e {
      var e' := Max(e, s[j].end);
      ChainRestJoined(s, j + 1, e');
      var n := |ChainRest(s, j + 1, e')|;
      assert |ChainRest(s, j, e)| == 1 + n;
      forall k | j + 1 <= k < j + 1 + n
        ensures s[k].start < Reach(s, j, k, e)
      {
        ReachShift(s, j, k, e);
      }
      assert s[j].start < Reach(s, j, j, e);
    }
  }

  /** The entry right after the chain, if any, starts at or after the chain's running end. */
  lemma {:induction false} ChainRestStops(s: seq<Entry>, j: nat, e: int)
    requires j <= |s|
    ensures j + |ChainRest(s, j, e)| <= |s|
    ensures j + |ChainRest(s, j, e)| < |s| ==>
              s[j + |ChainRest(s, j, e)|].start >= Reach(s, j, j + |ChainRest(s, j, e)|, e)
    decreases |s| - j
  {
    if j < |s| && s[j].start < e {
      var e' := Max(e, s[j].end);
      ChainRestStops(s, j + 1, e');
      var n := |ChainRest(s, j + 1, e')|;
      assert |ChainRest(s, j, e)| == 1 + n;
      ReachShift(s, j, j + 1 + n, e);
    } else {
      assert ChainRest(s, j, e) == [];
    }
  }

  /**
   * The cluster from sorted index `i` is the longest run `s[i..i+n]` in which every train starts
   * strictly before the latest end among the earlier members; the next train, if any, starts at
   * or after that end. In particular a train that starts exactly when the previous one ends does
   * not join it.
   */
  lemma ClusterIsMaximalChain(s: seq<Entry>, i: nat)
    requires i < |s|
    ensures var n := |Cluster(s, i)|;
      i + n <= |s| && Cluster(s, i) == IdsOf(s[i..i + n]) &&
      (forall k :: i < k < i + n ==> s[k].start < Reach(s, i + 1, k, s[i].end)) &&
      (i + n < |s| ==> s[i + n].start >= Reach(s, i + 1, i + n, s[i].end))
    ensures i + 1 < |s| && s[i + 1].start >= s[i].end ==> Cluster(s, i) == [s[i].id]
  {
    var rest := ChainRest(s, i + 1, s[i].end);
    var n := 1 + |rest|;
    assert Cluster(s, i) == [s[i].id] + rest;
    ChainRestIds(s, i + 1, s[i].end);
    ChainRestJoined(s, i + 1, s[i].end);
    ChainRestStops(s, i + 1, s[i].end);
    IdsOfCons(s[i..i + n]);
    assert s[i..i + n][1..] == s[i + 1..i + n];
    if i + 1 < |s| && s[i + 1].start >= s[i].end {
      assert rest == [];
    }
  }

  lemma {:induction false} ClusterFindingsWellFormed(s: seq<Entry>, n: nat, sid: string, capacity: int)
    requires n <= |s|
    ensures |ClusterFindings(s, n, sid, capacity)| <= n
    ensures forall f :: f in ClusterFindings(s, n, sid, capacity) ==>
              f.kind == SameTrack && f.segmentId == Some(sid) && |f.trainIds| > capacity &&
              f.severity == Min(5, |f.trainIds|) && 1 <= f.severity <= 5
  {
    if n > 0 {
      ClusterFindingsWellFormed(s, n - 1, sid, capacity);
    }
  }

  /**
   * Each same-track finding of a segment is the cluster gathered from some start index, over the
   * capacity, and stamped with the start of the train at that index.
   */
  lemma {:induction false} ClusterFindingsSound(s: seq<Entry>, n: nat, sid: string, capacity: int)
    requires n <= |s|
    ensures forall f :: f in ClusterFindings(s, n, sid, capacity) ==>
              exists i :: 0 <= i < n && |Cluster(s, i)| > capacity &&
                          f == TrackFinding(Cluster(s, i), sid, s[i].start, capacity)
  {
    if n > 0 {
      ClusterFindingsSound(s, n - 1, sid, capacity);
      forall f | f in ClusterFindings(s, n, sid, capacity)
        ensures exists i :: 0 <= i < n && |Cluster(s, i)| > capacity &&
                            f == TrackFinding(Cluster(s, i), sid, s[i].start, capacity)
      {
        if f !in ClusterFindings(s, n - 1, sid, capacity) {
          assert |Cluster(s, n - 1)| > capacity && f == TrackFinding(Cluster(s, n - 1), sid, s[n - 1].start, capacity);
        }
      }
    }
  }

  /** Every start index whose cluster exceeds the capacity gives its same-track finding. */
  lemma {:induction false} ClusterFindingsComplete(s: seq<Entry>, n: nat, sid: string, capacity: int)
    requires n <= |s|
    ensures forall i :: 0 <= i < n && |Cluster(s, i)| > capacity ==>
              TrackFinding(Cluster(s, i), sid, s[i].start, capacity) in ClusterFindings(s, n, sid, capacity)
  {
    if n > 0 {
      ClusterFindingsComplete(s, n - 1, sid, capacity);
    }
  }

  /**
   * `f` is the same-track finding for the cluster gathered from index `i` of segment `sid`'s
   * sorted schedule, on a segment the section knows and over that segment's capacity.
   */
  predicate TrackOverflow(section: Section, vs: seq<TrainState>, sid: string, i: int, f: Finding)
  {
    match section.GetSegment(sid)
    case None => false
    case Some(segment) =>
      var s := SortBy(ScheduleFor(vs, sid), StartKey);
      0 <= i < |s| && |Cluster(s, i)| > segment.capacity &&
      f == TrackFinding(Cluster(s, i), sid, s[i].start, segment.capacity)
  }

  lemma {:induction false} TrackOverCharacterized(section: Section, vs: seq<TrainState>, order: seq<string>)
    ensures forall f :: f in TrackOver(section, vs, order) <==>
              exists sid, i :: sid in order && TrackOverflow(section, vs, sid, i, f)
  {
    if order != [] {
      var init := order[..|order| - 1];
      var sid := order[|order| - 1];
      TrackOverCharacterized(section, vs, init);
      match section.GetSegment(sid) {
        case None =>
        case Some(segment) =>
          var s := SortBy(ScheduleFor(vs, sid), StartKey);
          ClusterFindingsSound(s, |s|, sid, segment.capacity);
          ClusterFindingsComplete(s, |s|, sid, segment.capacity);
      }
      forall f | f in TrackOver(section, vs, order)
        ensures exists sid', i :: sid' in order && TrackOverflow(section, vs, sid', i, f)
      {
        if f !in TrackOver(section, vs, init) {
          var segment := section.GetSegment(sid).value;
          var s := SortBy(ScheduleFor(vs, sid), StartKey);
          var i :| 0 <= i < |s| && |Cluster(s, i)| > segment.capacity &&
                   f == TrackFinding(Cluster(s, i), sid, s[i].start, segment.capacity);
          assert TrackOverflow(section, vs, sid, i, f);
        }
      }
      forall f, sid', i | sid' in order && TrackOverflow(section, vs, sid', i, f)
        ensures f in TrackOver(section, vs, order)
      {
        if sid' !in init {
          assert sid' == sid;
          var segment := section.GetSegment(sid).value;
          var s := SortBy(ScheduleFor(vs, sid), StartKey);
          assert f in ClusterFindings(s, |s|, sid, segment.capacity);
        }
      }
    }
  }

  /**
   * The same-track findings are exactly the overflowing clusters: for every segment the section
   * knows and every start index of its sorted schedule whose cluster exceeds the plain capacity,
   * one finding for that cluster at that train's start, and no other.
   */
  lemma TrackSpecCharacterized(section: Section, vs: seq<TrainState>)
    ensures forall f :: f in TrackSpec(section, vs) <==> exists sid, i :: TrackOverflow(section, vs, sid, i, f)
  {
    TrackOverCharacterized(section, vs, SegOrder(vs));
    forall sid, i, f | TrackOverflow(section, vs, sid, i, f) ensures sid in SegOrder(vs) {
      SegOrderMatchesSchedules(vs, sid);
      SortByPermutes(ScheduleFor(vs, sid), StartKey);
    }
  }

  lemma {:induction false} ClusterFindingsAvoid(s: seq<Entry>, n: nat, sid: string, capacity: int, id: string)
    requires n <= |s|
    requires forall k :: 0 <= k < |s| ==> s[k].id != id
    ensures forall f :: f in ClusterFindings(s, n, sid, capacity) ==> id !in f.trainIds
  {
    if n > 0 {
      ClusterFindingsAvoid(s, n - 1, sid, capacity, id);
      var i := n - 1;
      ClusterIsMaximalChain(s, i);
      var ids := IdsOf(s[i..i + |Cluster(s, i)|]);
      forall k | 0 <= k < |ids| ensures ids[k] != id {
        assert ids[k] == s[i + k].id;
      }
      assert id !in Cluster(s, i);
    }
  }

  /**
   * Every same-track finding names a segment the section knows, lists more trains than that
   * segment's plain capacity, and has severity `min(5, trains)`, hence between 1 and 5.
   */
  lemma {:induction false} TrackFindingsWellFormed(section: Section, vs: seq<TrainState>, order: seq<string>)
    ensures forall f :: f in TrackOver(section, vs, order) ==>
              f.kind == SameTrack && f.segmentId.Some? && section.GetSegment(f.segmentId.value).Some? &&
              |f.trainIds| > section.GetSegment(f.segmentId.value).value.capacity &&
              f.severity == Min(5, |f.trainIds|) && 1 <= f.severity <= 5
  {
    if order != [] {
      TrackFindingsWellFormed(section, vs, order[..|order| - 1]);
      var sid := order[|order| - 1];
      match section.GetSegment(sid) {
        case None =>
        case Some(segment) =>
          var s := SortBy(ScheduleFor(vs, sid), StartKey);
          ClusterFindingsWellFormed(s, |s|, sid, segment.capacity);
      }
    }
  }

  lemma {:induction false} ScheduleAvoids(vs: seq<TrainState>, sid: string, id: string)
    requires forall k :: 0 <= k < |vs| && vs[k].id == id ==> !vs[k].Positioned()
    ensures forall e :: e in ScheduleFor(vs, sid) ==> e.id != id
  {
    if vs != [] {
      ScheduleAvoids(vs[..|vs| - 1], sid, id);
    }
  }

  lemma {:induction false} TrackOverAvoids(section: Section, vs: seq<TrainState>, order: seq<string>, id: string)
    requires forall k :: 0 <= k < |vs| && vs[k].id == id ==> !vs[k].Positioned()
    ensures forall f :: f in TrackOver(section, vs, order) ==> id !in f.trainIds
  {
    if order != [] {
      TrackOverAvoids(section, vs, order[..|order| - 1], id);
      var sid := order[|order| - 1];
      match section.GetSegment(sid) {
        case None =>
        case Some(segment) =>
          var schedule := ScheduleFor(vs, sid);
          var s := SortBy(schedule, StartKey);
          ScheduleAvoids(vs, sid, id);
          SortByPermutes(schedule, StartKey);
          forall k | 0 <= k < |s| ensures s[k].id != id {
            assert s[k] in multiset(schedule);
          }
          ClusterFindingsAvoid(s, |s|, sid, segment.capacity, id);
      }
    }
  }

  /** When the trains are sorted by arrival, each segment's schedule already is, so sorting it changes nothing. */
  lemma {:induction false} ScheduleAlreadySorted(vs: seq<TrainState>, sid: string)
    requires SortedBy(vs, StateArrival)
    ensures SortedBy(ScheduleFor(vs, sid), StartKey)
    ensures SortBy(ScheduleFor(vs, sid), StartKey) == ScheduleFor(vs, sid)
  {
    if vs != [] {
      var init := vs[..|vs| - 1];
      var v := vs[|vs| - 1];
      assert SortedBy(init, StateArrival);
      ScheduleAlreadySorted(init, sid);
      ScheduleBounded(init, sid, v.arrival);
    }
    SortBySortedIsIdentity(ScheduleFor(vs, sid), StartKey);
  }

  lemma {:induction false} ScheduleBounded(vs: seq<TrainState>, sid: string, bound: int)
    requires forall k :: 0 <= k < |vs| ==> vs[k].arrival <= bound
    ensures forall e :: e in ScheduleFor(vs, sid) ==> e.start <= bound
  {
    if vs != [] {
      ScheduleBounded(vs[..|vs| - 1], sid, bound);
    }
  }

  lemma {:induction false} HeadwayUpToSound(vs: seq<TrainState>, n: nat, h: int)
    requires n == 0 || n < |vs|
    ensures |HeadwayUpTo(vs, n, h)| <= n
    ensures forall f :: f in HeadwayUpTo(vs, n, h) ==>
              exists k :: 0 <= k < n && HeadwayViolated(vs[k], vs[k + 1], h) && f == HeadwayFinding(vs[k], vs[k + 1], h)
  {
    if n > 0 {
      HeadwayUpToSound(vs, n - 1, h);
      forall f | f in HeadwayUpTo(vs, n, h)
        ensures exists k :: 0 <= k < n && HeadwayViolated(vs[k], vs[k + 1], h) && f == HeadwayFinding(vs[k], vs[k + 1], h)
      {
        if f !in HeadwayUpTo(vs, n - 1, h) {
          assert HeadwayViolated(vs[n - 1], vs[n], h) && f == HeadwayFinding(vs[n - 1], vs[n], h);
        }
      }
    }
  }

  lemma {:induction false} HeadwayUpToComplete(vs: seq<TrainState>, n: nat, h: int)
    requires n == 0 || n < |vs|
    ensures forall k :: 0 <= k < n && HeadwayViolated(vs[k], vs[k + 1], h) ==>
              HeadwayFinding(vs[k], vs[k + 1], h) in HeadwayUpTo(vs, n, h)
  {
    if n > 0 {
      HeadwayUpToComplete(vs, n - 1, h);
    }
  }

  /**
   * Headway findings come exactly from the consecutive pairs that are both positioned and whose
   * gap (next arrival minus current departure) is below the minimum headway; there are at most
   * `n - 1` of them for `n` trains.
   */
  lemma HeadwayCharacterized(vs: seq<TrainState>, h: int)
    ensures |HeadwaySpec(vs, h)| <= if vs == [] then 0 else |vs| - 1
    ensures forall k :: 0 <= k < |vs| - 1 && HeadwayViolated(vs[k], vs[k + 1], h) ==>
              HeadwayFinding(vs[k], vs[k + 1], h) in HeadwaySpec(vs, h)
    ensures forall f :: f in HeadwaySpec(vs, h) ==>
              exists k :: 0 <= k < |vs| - 1 && HeadwayViolated(vs[k], vs[k + 1], h) && f == HeadwayFinding(vs[k], vs[k + 1], h)
  {
    if vs != [] {
      HeadwayUpToSound(vs, |vs| - 1, h);
      HeadwayUpToComplete(vs, |vs| - 1, h);
    }
  }

  lemma {:induction false} HeadwayAvoids(vs: seq<TrainState>, n: nat, h: int, id: string)
    requires n == 0 || n < |vs|
    requires forall k :: 0 <= k < |vs| && vs[k].id == id ==> !vs[k].Positioned()
    ensures forall f :: f in HeadwayUpTo(vs, n, h) ==> id !in f.trainIds
  {
    if n > 0 {
      HeadwayAvoids(vs, n - 1, h, id);
    }
  }

  lemma {:induction false} PlatformCount(platforms: seq<TrackSegment>, vs: seq<TrainState>)
    ensures |PlatformOver(platforms, vs)| <= |platforms|
  {
    if platforms != [] {
      PlatformCount(platforms[..|platforms| - 1], vs);
    }
  }

  lemma {:induction false} PlatformSound(platforms: seq<TrackSegment>, vs: seq<TrainState>)
    ensures forall f :: f in PlatformOver(platforms, vs) ==>
              exists i :: 0 <= i < |platforms| && Overfull(platforms[i], vs) &&
                          f == PlatformFinding(platforms[i], IdsAt(vs, platforms[i].id))
  {
    if platforms != [] {
      var init := platforms[..|platforms| - 1];
      var p := platforms[|platforms| - 1];
      PlatformSound(init, vs);
      forall f | f in PlatformOver(platforms, vs)
        ensures exists i :: 0 <= i < |platforms| && Overfull(platforms[i], vs) &&
                            f == PlatformFinding(platforms[i], IdsAt(vs, platforms[i].id))
      {
        if f in PlatformOver(init, vs) {
          var i :| 0 <= i < |init| && Overfull(init[i], vs) &&
                   f == PlatformFinding(init[i], IdsAt(vs, init[i].id));
          assert platforms[i] == init[i];
        } else {
          assert platforms[|platforms| - 1] == p;
        }
      }
    }
  }

  lemma {:induction false} PlatformComplete(platforms: seq<TrackSegment>, vs: seq<TrainState>)
    ensures forall i :: 0 <= i < |platforms| && Overfull(platforms[i], vs) ==>
              PlatformFinding(platforms[i], IdsAt(vs, platforms[i].id)) in PlatformOver(platforms, vs)
  {
    if platforms != [] {
      var init := platforms[..|platforms| - 1];
      PlatformComplete(init, vs);
      forall i | 0 <= i < |platforms| && Overfull(platforms[i], vs)
        ensures PlatformFinding(platforms[i], IdsAt(vs, platforms[i].id)) in PlatformOver(platforms, vs)
      {
        if i < |init| {
          assert platforms[i] == init[i];
        }
      }
    }
  }

  /**
   * Platform findings: at most one per platform, and a platform has one exactly when more trains
   * are positioned on it than its platform capacity allows; the finding lists those trains in
   * train order with severity 4.
   */
  lemma PlatformCharacterized(platforms: seq<TrackSegment>, vs: seq<TrainState>)
    ensures |PlatformOver(platforms, vs)| <= |platforms|
    ensures forall i :: 0 <= i < |platforms| && Overfull(platforms[i], vs) ==>
              PlatformFinding(platforms[i], IdsAt(vs, platforms[i].id)) in PlatformOver(platforms, vs)
    ensures forall f :: f in PlatformOver(platforms, vs) ==>
              exists i :: 0 <= i < |platforms| && Overfull(platforms[i], vs) &&
                          f == PlatformFinding(platforms[i], IdsAt(vs, platforms[i].id))
  {
    PlatformCount(platforms, vs);
    PlatformComplete(platforms, vs);
    PlatformSound(platforms, vs);
  }

  lemma {:induction false} IdsAtIgnoresTime(vs: seq<TrainState>, ws: seq<TrainState>, pid: string)
    requires |vs| == |ws|
    requires forall k :: 0 <= k < |vs| ==> vs[k].id == ws[k].id && vs[k].position == ws[k].position
    ensures IdsAt(vs, pid) == IdsAt(ws, pid)
  {
    if vs != [] {
      IdsAtIgnoresTime(vs[..|vs| - 1], ws[..|ws| - 1], pid);
    }
  }

  /** Platform findings depend on the trains' ids and positions only, never on their times. */
  lemma {:induction false} PlatformIgnoresTime(platforms: seq<TrackSegment>, vs: seq<TrainState>, ws: seq<TrainState>)
    requires |vs| == |ws|
    requires forall k :: 0 <= k < |vs| ==> vs[k].id == ws[k].id && vs[k].position == ws[k].position
    ensures PlatformOver(platforms, vs) == PlatformOver(platforms, ws)
  {
    if platforms != [] {
      PlatformIgnoresTime(platforms[..|platforms| - 1], vs, ws);
      IdsAtIgnoresTime(vs, ws, platforms[|platforms| - 1].id);
    }
  }

  lemma {:induction false} IdsAtAvoids(vs: seq<TrainState>, pid: string, id: string)
    requires forall k :: 0 <= k < |vs| && vs[k].id == id ==> vs[k].position.None?
    ensures id !in IdsAt(vs, pid)
  {
    if vs != [] {
      IdsAtAvoids(vs[..|vs| - 1], pid, id);
    }
  }

  lemma {:induction false} PlatformAvoids(platforms: seq<TrackSegment>, vs: seq<TrainState>, id: string)
    requires forall k :: 0 <= k < |vs| && vs[k].id == id ==> vs[k].position.None?
    ensures forall f :: f in PlatformOver(platforms, vs) ==> id !in f.trainIds
  {
    if platforms != [] {
      PlatformAvoids(platforms[..|platforms| - 1], vs, id);
      IdsAtAvoids(vs, platforms[|platforms| - 1].id, id);
    }
  }

  /**
   * A train without a position (under that id) is never named by a same-track or headway
   * finding, and, when its position is None, by no finding at all.
   */
  lemma UnpositionedTrainsNeverFlagged(section: Section, vs: seq<TrainState>, id: string)
    requires forall k :: 0 <= k < |vs| && vs[k].id == id ==> !vs[k].Positioned()
    ensures forall f :: f in TrackSpec(section, vs) ==> id !in f.trainIds
    ensures forall f :: f in HeadwaySpec(vs, section.minHeadway) ==> id !in f.trainIds
  {
    TrackOverAvoids(section, vs, SegOrder(vs), id);
    assert TrackSpec(section, vs) == TrackOver(section, vs, SegOrder(vs));
    if vs != [] {
      HeadwayAvoids(vs, |vs| - 1, section.minHeadway, id);
      assert HeadwaySpec(vs, section.minHeadway) == HeadwayUpTo(vs, |vs| - 1, section.minHeadway);
    } else {
      assert HeadwaySpec(vs, section.minHeadway) == [];
    }
  }

  /** A train whose position is None is named by no detected conflict at all. */
  lemma UnplacedTrainsNeverFlagged(section: Section, vs: seq<TrainState>, id: string)
    requires forall k :: 0 <= k < |vs| && vs[k].id == id ==> vs[k].position.None?
    ensures forall f :: f in Detection(section, vs) ==> id !in f.trainIds
  {
    UnpositionedTrainsNeverFlagged(section, vs, id);
    PlatformAvoids(section.PlatformSegments(), vs, id);
    var t, h, p := TrackSpec(section, vs), HeadwaySpec(vs, section.minHeadway), PlatformSpec(section, vs);
    assert Detection(section, vs) == t + h + p;
    forall f: Finding | f in t + h + p ensures id !in f.trainIds {
      assert f in t || f in h || f in p;
    }
  }

  /** Every detected conflict has severity between 1 and 5: headway ones 3, platform ones 4. */
  lemma DetectionSeverities(section: Section, vs: seq<TrainState>)
    ensures forall f :: f in Detection(section, vs) ==> 1 <= f.severity <= 5
    ensures forall f :: f in HeadwaySpec(vs, section.minHeadway) ==> f.kind == Headway && f.severity == 3 && f.segmentId == None
    ensures forall f :: f in PlatformSpec(section, vs) ==> f.kind == Platform && f.severity == 4
  {
    TrackFindingsWellFormed(section, vs, SegOrder(vs));
    HeadwayCharacterized(vs, section.minHeadway);
    PlatformCharacterized(section.PlatformSegments(), vs);
  }
}
