/**
 * The optimization engine (src/optimization/optimizer.py): detects the conflicts among the trains,
 * reschedules them when there is at least one (otherwise every train proceeds as planned),
 * computes counting metrics, and keeps the last 100 results in a history. The clock readings that
 * stamp a result are parameters.
 */
module Optimization {

  import opened Wrappers
  import opened Enums
  import opened Trains
  import opened Sections
  import opened Conflicts
  import opened ConflictDetection
  import opened Scheduling
  import opened Lists
  import opened Sorting

  /** The history keeps at most this many results. */
  const HistoryLimit := 100

  /** The number of results `get_optimization_history` returns when no limit is given. */
  const DefaultHistoryLimit := 10

  // ---------------------------------------------------------------------------------------------
  // Counting

  /** How many of the trains are of type `kind`. */
  function CountKind(vs: seq<TrainValue>, kind: TrainType): (n: nat)
    ensures n <= |vs|
  {
    if vs == [] then 0
    else CountKind(vs[..|vs| - 1], kind) + (if vs[|vs| - 1].kind == kind then 1 else 0)
  }

  /** Every train is express, passenger or freight: the three counts add up to the total. */
  lemma {:induction false} KindsPartition(vs: seq<TrainValue>)
    ensures CountKind(vs, Express) + CountKind(vs, Passenger) + CountKind(vs, Freight) == |vs|
  {
    if vs != [] {
      KindsPartition(vs[..|vs| - 1]);
    }
  }

  /** The `action` field of a recommendation. */
  datatype Action = ProceedAction | DelayAction | HoldAction

  function ActionOf(r: Recommendation): Action
  {
    match r
    case Proceed(_, _) => ProceedAction
    case Delay(_, _, _, _) => DelayAction
    case Hold(_, _) => HoldAction
  }

  /** How many of the recommendations carry `action`. */
  function CountAction(recs: seq<Recommendation>, action: Action): (n: nat)
    ensures n <= |recs|
  {
    if recs == [] then 0
    else CountAction(recs[..|recs| - 1], action) + (if ActionOf(recs[|recs| - 1]) == action then 1 else 0)
  }

  /**
   * Both producers of recommendations emit only 'proceed', 'delay' and 'hold', so the three
   * counts add up to the number of recommendations.
   */
  lemma {:induction false} ActionsPartition(recs: seq<Recommendation>)
    ensures CountAction(recs, ProceedAction) + CountAction(recs, DelayAction) + CountAction(recs, HoldAction) == |recs|
  {
    if recs != [] {
      ActionsPartition(recs[..|recs| - 1]);
    }
  }

  /** `part` of `whole` in percent; 100 when `whole` is 0. */
  function Percentage(part: nat, whole: nat): (r: real)
    requires part <= whole
    ensures 0.0 <= r <= 100.0
    ensures whole == 0 || part == whole ==> r == 100.0
    ensures whole > 0 && part == 0 ==> r == 0.0
    ensures whole > 0 ==> r * whole as real == part as real * 100.0
  {
    if whole > 0 then
      var ratio := part as real / whole as real;
      assert ratio * whole as real == part as real;
      assert ratio <= 1.0;
      ratio * 100.0
    else 100.0
  }

  // ---------------------------------------------------------------------------------------------
  // Metrics

  /**
   * What one run of `optimize` reads of the world: the trains in input order, what the detector
   * reads of them in order of scheduled arrival, the trains in the scheduler's priority order, the
   * segments with room, and the section's capacity figures.
   */
  datatype Observation = Observation(
    trains: seq<TrainValue>, byArrival: seq<TrainState>, byPriority: seq<TrainValue>,
    available: seq<TrackSegment>, totalCapacity: int, currentOccupancy: nat, utilizationRate: real)

  function Observe(section: Section, trains: seq<Train>): Observation
    reads trains, section.segments
  {
    SortByDrawsFromInput(trains, ArrivalKey);
    SortByDrawsFromInput(trains, PriorityKey);
    Observation(ValuesOf(trains), StatesOf(SortBy(trains, ArrivalKey)), ValuesOf(SortBy(trains, PriorityKey)),
                section.AvailableSegments(), section.TotalCapacity(), section.CurrentOccupancy(),
                section.UtilizationRate())
  }

  datatype TrainMetrics = TrainMetrics(totalTrains: nat, delayedTrains: nat, onTimePercentage: real,
                                       expressTrains: nat, passengerTrains: nat, freightTrains: nat)

  datatype ConflictMetrics = ConflictMetrics(totalConflicts: nat, resolvedConflicts: nat, resolutionRate: real)

  datatype SectionMetrics = SectionMetrics(utilizationRate: real, availableCapacity: int, totalCapacity: int)

  datatype RecommendationMetrics = RecommendationMetrics(proceedRecommendations: nat, delayRecommendations: nat,
                                                         holdRecommendations: nat, totalDelayMinutes: int,
                                                         throughputImprovement: real)

  datatype Metrics = Metrics(trains: TrainMetrics, conflicts: ConflictMetrics, section: SectionMetrics,
                             recommendations: RecommendationMetrics)

  /**
   * `_calculate_metrics`: counts over the trains, the conflicts and the recommendations, and the
   * section's capacity figures. The type counts and the action counts each partition their list;
   * the on-time percentage and the resolution rate are 100 on an empty list.
   * Each figure is the count or percentage `_calculate_metrics` takes of its list.
   */
  function CalculateMetrics(o: Observation, conflicts: seq<ConflictRecord>, r: ScheduleResult): (m: Metrics)
    ensures m.trains.totalTrains == |o.trains| && m.trains.delayedTrains <= |o.trains|
    ensures m.trains.expressTrains + m.trains.passengerTrains + m.trains.freightTrains == |o.trains|
    ensures 0.0 <= m.trains.onTimePercentage <= 100.0
    ensures |o.trains| == 0 ==> m.trains.onTimePercentage == 100.0
    ensures m.trains.delayedTrains == 0 <==> m.trains.onTimePercentage == 100.0
    ensures m.conflicts.totalConflicts == |conflicts| && m.conflicts.resolvedConflicts <= |conflicts|
    ensures 0.0 <= m.conflicts.resolutionRate <= 100.0
    ensures |conflicts| == 0 ==> m.conflicts.resolutionRate == 100.0
    ensures m.recommendations.proceedRecommendations + m.recommendations.delayRecommendations +
            m.recommendations.holdRecommendations == |r.recommendations|
    ensures m.recommendations.totalDelayMinutes == r.totalDelayMinutes
    ensures m.recommendations.throughputImprovement == r.throughputImprovement
    ensures m.section.totalCapacity == o.totalCapacity
    ensures m.section.availableCapacity == o.totalCapacity - o.currentOccupancy
    ensures m.section.utilizationRate == o.utilizationRate
    ensures m.trains.delayedTrains == DelayedCount(o.trains)
    ensures m.trains.onTimePercentage == Percentage(|o.trains| - m.trains.delayedTrains, |o.trains|)
    ensures m.trains.expressTrains == CountKind(o.trains, Express)
    ensures m.trains.passengerTrains == CountKind(o.trains, Passenger)
    ensures m.trains.freightTrains == CountKind(o.trains, Freight)
    ensures m.conflicts.resolvedConflicts == CountMatching(conflicts, Resolved)
    ensures m.conflicts.resolutionRate == Percentage(m.conflicts.resolvedConflicts, |conflicts|)
    ensures m.recommendations.proceedRecommendations == CountAction(r.recommendations, ProceedAction)
    ensures m.recommendations.delayRecommendations == CountAction(r.recommendations, DelayAction)
    ensures m.recommendations.holdRecommendations == CountAction(r.recommendations, HoldAction)
  {
    var total := |o.trains|;
    var delayed := DelayedCount(o.trains);
    var resolved := CountMatching(conflicts, Resolved);
    KindsPartition(o.trains);
    ActionsPartition(r.recommendations);
    Metrics(
      TrainMetrics(total, delayed, Percentage(total - delayed, total),
                   CountKind(o.trains, Express), CountKind(o.trains, Passenger), CountKind(o.trains, Freight)),
      ConflictMetrics(|conflicts|, resolved, Percentage(resolved, |conflicts|)),
      SectionMetrics(o.utilizationRate, o.totalCapacity - o.currentOccupancy, o.totalCapacity),
      RecommendationMetrics(CountAction(r.recommendations, ProceedAction), CountAction(r.recommendations, DelayAction),
                            CountAction(r.recommendations, HoldAction), r.totalDelayMinutes, r.throughputImprovement))
  }

  // ---------------------------------------------------------------------------------------------
  // The result when there is no conflict

  /** Each train proceeds on its current position, in input order. */
  function ProceedAll(vs: seq<TrainValue>): (recs: seq<Recommendation>)
    ensures |recs| == |vs|
    ensures forall i :: 0 <= i < |vs| ==> recs[i] == Proceed(vs[i].id, vs[i].position)
  {
    if vs == [] then [] else ProceedAll(vs[..|vs| - 1]) + [Proceed(vs[|vs| - 1].id, vs[|vs| - 1].position)]
  }

  /** The trains as they are, one 'proceed' each, no delay and no improvement. */
  function DefaultResult(vs: seq<TrainValue>): ScheduleResult
  {
    ScheduleResult(vs, ProceedAll(vs), 0, 0.0)
  }

  /** `_generate_default_recommendations`: one 'proceed' per train on its current position. */
  method DefaultRecommendations(trains: seq<Train>) returns (result: ScheduleResult)
    ensures result == DefaultResult(ValuesOf(trains))
  {
    ghost var vs := ValuesOf(trains);
    var recommendations: seq<Recommendation> := [];
    for i := 0 to |trains|
      invariant recommendations == ProceedAll(vs[..i])
    {
      var train := trains[i];
      recommendations := recommendations + [Proceed(train.id, train.position)];
      assert vs[..i + 1][..i] == vs[..i];
    }
    assert vs[..|trains|] == vs;
    result := ScheduleResult(ValuesOf(trains), recommendations, 0, 0.0);
  }

  /** Without conflicts every recommendation is 'proceed', and nothing is delayed or held. */
  lemma {:induction false} DefaultAllProceed(vs: seq<TrainValue>)
    ensures CountAction(DefaultResult(vs).recommendations, ProceedAction) == |vs|
    ensures CountAction(DefaultResult(vs).recommendations, DelayAction) == 0
    ensures CountAction(DefaultResult(vs).recommendations, HoldAction) == 0
  {
    if vs != [] {
      DefaultAllProceed(vs[..|vs| - 1]);
      assert ProceedAll(vs)[..|vs| - 1] == ProceedAll(vs[..|vs| - 1]);
    }
  }

  // ---------------------------------------------------------------------------------------------
  // The engine

  /** A `what-if` label added to a result by `simulate_scenario`. */
  datatype Scenario = Scenario(name: string, timestamp: int)

  /** The dictionary `optimize` returns on success (without its processing time and status). */
  datatype OptimizationRecord = OptimizationRecord(
    timestamp: int, sectionId: string, trainsAnalyzed: nat, conflicts: seq<ConflictRecord>,
    conflictSummary: ConflictSummary, optimizationResult: ScheduleResult, metrics: Metrics,
    recommendations: seq<Recommendation>, scenario: Option<Scenario>)

  /** Step 3 of `optimize` on what it observed: the rescheduled result or the default one. */
  function ResultOn(section: Section, o: Observation, conflicting: bool): ScheduleResult
    requires section.minHeadway > 0
  {
    if conflicting then ResultFor(section, o.available, o.byPriority, o.trains) else DefaultResult(o.trains)
  }

  /**
   * What one call of `optimize` at time `now` reports on what it observed: the conflicts the
   * detector finds, their summary, the rescheduled result when there is a conflict and the default
   * result otherwise, the metrics of that result, and its recommendations again at the top level.
   */
  function ReportOf(section: Section, o: Observation, now: int): OptimizationRecord
    requires section.minHeadway > 0
  {
    var conflicts := PendingRecords(Detection(section, o.byArrival));
    var result := ResultOn(section, o, |conflicts| > 0);
    OptimizationRecord(now, section.id, |o.trains|, conflicts, GetConflictSummary(conflicts), result,
                       CalculateMetrics(o, conflicts, result), result.recommendations, None)
  }

  /**
   * A report covers every train: one recommendation and one resulting train each, and the
   * recommendation counts of its metrics add up to the number of trains.
   */
  lemma ReportCoversEveryTrain(section: Section, trains: seq<Train>, now: int)
    requires section.minHeadway > 0
    ensures var r := ReportOf(section, Observe(section, trains), now);
      r.trainsAnalyzed == |trains| && r.metrics.trains.totalTrains == |trains| &&
      |r.recommendations| == |trains| && |r.optimizationResult.optimizedTrains| == |trains| &&
      r.metrics.recommendations.proceedRecommendations + r.metrics.recommendations.delayRecommendations +
      r.metrics.recommendations.holdRecommendations == |trains|
  {
    SortByPermutes(trains, PriorityKey);
  }

  /**
   * The conflicts in a report are as detected, so none is resolved: the summary counts them all as
   * pending and the resolution rate is 0, or 100 when there is no conflict.
   */
  lemma ReportedConflictsArePending(section: Section, o: Observation, now: int)
    requires section.minHeadway > 0
    ensures var r := ReportOf(section, o, now);
      (forall i :: 0 <= i < |r.conflicts| ==> !r.conflicts[i].isResolved && r.conflicts[i].resolutionAction == None) &&
      r.conflictSummary.totalConflicts == r.conflictSummary.pendingConflicts == |r.conflicts| &&
      r.conflictSummary.resolvedConflicts == 0 && r.metrics.conflicts.resolvedConflicts == 0 &&
      r.metrics.conflicts.resolutionRate == if |r.conflicts| == 0 then 100.0 else 0.0
  {
    var fs := Detection(section, o.byArrival);
    DetectedConflictsArePending(fs);
  }

  /** Without a conflict every train proceeds unchanged: no delay, no hold, no improvement. */
  lemma QuietSectionProceeds(section: Section, o: Observation, now: int)
    requires section.minHeadway > 0
    ensures var r := ReportOf(section, o, now);
      |r.conflicts| == 0 ==>
        r.optimizationResult.optimizedTrains == o.trains &&
        (forall i :: 0 <= i < |o.trains| ==> r.recommendations[i] == Proceed(o.trains[i].id, o.trains[i].position)) &&
        r.metrics.recommendations.proceedRecommendations == |o.trains| &&
        r.metrics.recommendations.delayRecommendations == 0 && r.metrics.recommendations.holdRecommendations == 0 &&
        r.metrics.recommendations.totalDelayMinutes == 0
  {
    DefaultAllProceed(o.trains);
  }

  /** The total delay a report gives lies between 0 and 119 minutes per train. */
  lemma ReportDelayBounded(section: Section, trains: seq<Train>, now: int)
    requires section.minHeadway > 0
    ensures var r := ReportOf(section, Observe(section, trains), now);
      0 <= r.metrics.recommendations.totalDelayMinutes <= (SearchWindow - 1) * |trains|
  {
    var o := Observe(section, trains);
    SortByPermutes(trains, PriorityKey);
    DelayBounds(section, o.available, RequestsOf(o.byPriority));
  }

  /**
   * The history after recording `entry`: appended, then cut to its last 100 entries. It never
   * holds more than 100, ends with `entry`, and is the most recent part of the old history.
   */
  function Recorded(history: seq<OptimizationRecord>, entry: OptimizationRecord): (h: seq<OptimizationRecord>)
    ensures |h| == if |history| + 1 > HistoryLimit then HistoryLimit else |history| + 1
    ensures h[|h| - 1] == entry
    ensures h == (history + [entry])[|history| + 1 - |h|..]
  {
    var appended := history + [entry];
    if |appended| > HistoryLimit then SliceFrom(appended, -HistoryLimit) else appended
  }

  /** Replacing the entry just recorded is the same as having recorded the replacement. */
  lemma RecordedRelabel(history: seq<OptimizationRecord>, entry: OptimizationRecord, replacement: OptimizationRecord)
    ensures var h := Recorded(history, entry);
      h[..|h| - 1] + [replacement] == Recorded(history, replacement)
  {
  }

  /** `get_section_status`, without the section's dictionary and the current time. */
  datatype SectionStatus = SectionStatus(sectionId: string, optimizationCount: nat, lastOptimization: Option<int>)

  class OptimizationEngine {
    const section: Section
    var history: seq<OptimizationRecord>

    constructor (section: Section)
      ensures this.section == section && history == []
    {
      this.section := section;
      history := [];
    }

    /**
     * Step 1 of `optimize`: detects the conflicts in what it observes; the trains and the segments
     * are left as they were.
     */
    method Detect(trains: seq<Train>) returns (conflicts: seq<Conflict>)
      ensures RealizesAll(conflicts, Detection(section, old(Observe(section, trains)).byArrival))
      ensures Observe(section, trains) == old(Observe(section, trains))
    {
      conflicts := DetectConflicts(section, trains);
    }

    /**
     * Step 3 of `optimize`: reschedules when there is a conflict, otherwise every train proceeds.
     */
    method ScheduleIfConflicting(trains: seq<Train>, conflicts: seq<Conflict>) returns (r: ScheduleResult)
      requires section.minHeadway > 0
      ensures r == ResultOn(section, old(Observe(section, trains)), |conflicts| > 0)
    {
      if |conflicts| > 0 {
        r := OptimizeSchedule(section, trains, conflicts);
      } else {
        r := DefaultRecommendations(trains);
      }
    }

    /**
     * The body of `optimize` up to the history: observes the trains and the section once, and
     * reports on that observation as `ReportOf` says.
     */
    method Analyze(trains: seq<Train>, now: int) returns (result: OptimizationRecord, ghost observed: Observation)
      requires section.minHeadway > 0
      ensures observed == old(Observe(section, trains))
      ensures result == ReportOf(section, observed, now)
    {
      var seen := Observe(section, trains);
      observed := seen;
      var conflicts := Detect(trains);
      var records := ToDicts(conflicts);
      RealizedToDicts(conflicts, Detection(section, seen.byArrival));
      var conflictSummary := GetConflictSummary(records);
      var optimizationResult := ScheduleIfConflicting(trains, conflicts);
      var metrics := CalculateMetrics(seen, records, optimizationResult);
      result := OptimizationRecord(now, section.id, |trains|, records, conflictSummary, optimizationResult,
                                   metrics, optimizationResult.recommendations, None);
    }

    /**
     * `optimize`, on its success path: reports on the trains as `ReportOf` says and records the
     * report in the history, keeping the last 100.
     */
    method Optimize(trains: seq<Train>, now: int) returns (result: OptimizationRecord, ghost observed: Observation)
      requires section.minHeadway > 0
      modifies this
      ensures observed == old(Observe(section, trains))
      ensures result == ReportOf(section, observed, now)
      ensures history == Recorded(old(history), result)
    {
      result, observed := Analyze(trains, now);
      history := history + [result];
      if |history| > HistoryLimit {
        history := SliceFrom(history, -HistoryLimit);
      }
    }

    /**
     * `get_optimization_history`: Python's `history[-limit:]`, so the last `limit` entries (all
     * of them when there are fewer), the whole history for a limit of 0, and all but the first
     * `-limit` entries for a negative one.
     */
    function GetOptimizationHistory(limit: int := DefaultHistoryLimit): (r: seq<OptimizationRecord>)
      reads this
      ensures limit >= 1 ==> r == history[|history| - (if limit < |history| then limit else |history|)..]
      ensures limit == 0 ==> r == history
      ensures limit < 0 ==> r == history[(if -limit < |history| then -limit else |history|)..]
    {
      SliceFrom(history, -limit)
    }

    /** `get_section_status`: the number of results kept and the timestamp of the latest one. */
    function GetSectionStatus(): (s: SectionStatus)
      reads this
      ensures s.optimizationCount == |history|
      ensures s.lastOptimization.None? <==> history == []
      ensures history != [] ==> s.lastOptimization == Some(history[|history| - 1].timestamp)
    {
      SectionStatus(section.id, |history|,
                    if history == [] then None else Some(history[|history| - 1].timestamp))
    }

    /**
     * `simulate_scenario`: `optimize`, with the scenario's name and time added to the result.
     * The result is the very entry just recorded, so the history's last entry carries them too.
     */
    method SimulateScenario(trains: seq<Train>, now: int, scenarioTime: int, name: string := "Default")
      returns (result: OptimizationRecord)
      requires section.minHeadway > 0
      modifies this
      ensures result == ReportOf(section, old(Observe(section, trains)), now).(scenario := Some(Scenario(name, scenarioTime)))
      ensures history == Recorded(old(history), result)
    {
      ghost var observed;
      var report;
      report, observed := Optimize(trains, now);
      result := report.(scenario := Some(Scenario(name, scenarioTime)));
      RecordedRelabel(old(history), report, result);
      history := history[..|history| - 1] + [result];
    }
  }

  /**
   * However many results are recorded, the history holds the most recent of them (and of what it
   * held before), at most 100, oldest first.
   */
  lemma {:induction false} HistoryKeepsMostRecent(history: seq<OptimizationRecord>, entries: seq<OptimizationRecord>)
    requires |history| <= HistoryLimit
    ensures var all := history + entries;
      var r := RecordAll(history, entries);
      |r| == (if |all| > HistoryLimit then HistoryLimit else |all|) && r == all[|all| - |r|..]
  {
    if entries != [] {
      var n := |entries| - 1;
      var prev := RecordAll(history, entries[..n]);
      var all0 := history + entries[..n];
      var all := history + entries;
      HistoryKeepsMostRecent(history, entries[..n]);
      assert all == all0 + [entries[n]];
      assert prev + [entries[n]] == all[|all0| - |prev|..];
    }
  }

  /** The history after recording each of `entries` in turn. */
  function RecordAll(history: seq<OptimizationRecord>, entries: seq<OptimizationRecord>): seq<OptimizationRecord>
  {
    if entries == [] then history
    else Recorded(RecordAll(history, entries[..|entries| - 1]), entries[|entries| - 1])
  }
}
