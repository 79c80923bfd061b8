# Train-section allocation engine, modelled in Dafny

This project models the core of a railway section controller. The controller shares one
capacity-limited section among competing trains. It has four parts:

- **The domain model.** It covers trains and their priority score, delay and travel time. It
  covers track segments, whose live occupancy lists are mutated by `add_train`/`remove_train`. It
  covers the section, which looks up segments and sums their capacities and occupancies. It covers
  conflicts, whose train lists and resolution state are mutated.
- **The conflict detector.** It sorts the trains stably by scheduled arrival and reports three
  kinds of conflict, in this order:
  - same-track overflows, found by a forward chain scan over the occupancy intervals of each
    segment;
  - headway violations between consecutive positioned trains;
  - platform overflows, which ignore time.
  A counting summary is then built over the `Conflict` objects. The model counts over their
  `to_dict` records, which hold the same fields.
- **The scheduler.** It takes the trains in descending priority, with ties in input order. It keeps
  a per-segment reservation table. For each train it takes the desired interval on the preferred
  segment when that interval keeps the minimum headway to every reservation. Otherwise it probes
  forward in steps of one headway for up to two hours. A train with no slot is held for 15
  minutes. The scheduler also computes a throughput-improvement ratio.
- **The optimization engine.** It detects conflicts. With at least one conflict it reschedules;
  otherwise every train proceeds. It computes counting metrics, assembles a result, and keeps the
  last 100 results in a history. It also offers history and status readers, and a scenario run
  that labels a result.

Time is whole minutes. Clock readings (`now`, a scenario's time stamp) are parameters.

**How the model is built.**
- Entities whose fields the code assigns in place are classes: `Train`, `TrackSegment`, `Section`,
  `Conflict` and `OptimizationEngine`. Everything else is a value.
- Each looping operation is a method proved against a specification function on values:
  - the detector's three scans against `TrackSpec`, `HeadwaySpec` and `PlatformSpec`;
  - the slot search against `OptimalSlot`;
  - the scheduling pass against `Pass`/`Planned`;
  - the default recommendations against `DefaultResult`.
- Lemmas state what the specification functions guarantee.
- `optimize` reads the trains and the section once, as an `Observation`. Its result is proved equal
  to `ReportOf` of that observation, and the lemmas about `ReportOf` give the promised properties.

**Where the code and its design notes disagree, the model follows the code:**
- `priority_score` is not recomputed when `set_delay` changes the status.
- `is_delayed` ignores the status whenever an actual arrival is known.
- A rescheduled train that is late gets `set_delay` applied after its scheduled arrival has already
  been moved. Its actual arrival therefore ends up twice the delay after the original arrival
  (`Scheduling.RescheduledTrain`).
- Same-track overflow compares against plain `capacity`, even for platform segments.
- Platform conflicts ignore time.

## Model

| member | source | states |
|---|---|---|
| Enums.Rank | src/models/enums.py:3-7 | every train type's integer value is a rank between 1 and 3 |
| Enums.RankOrderAndInjective | src/models/enums.py:3-7 | FREIGHT < PASSENGER < EXPRESS; no two types share a rank; each type sits at its rank in the listing |
| Enums.StatusesEnumerated | src/models/enums.py:9-15 | exactly five distinct statuses exist |
| Enums.ConflictTypesEnumerated | src/models/enums.py:17-22 | exactly four distinct conflict types exist |
| Trains.CalculatePriority | src/models/train.py:26-36 | the score lies in 90..300; it is a multiple of 100 exactly when the status is not DELAYED; its hundreds digit is the type's rank, or one less when delayed (ordering: `Trains.PriorityFollowsRank`) |
| Trains.PriorityFollowsRank | src/models/train.py:26-36 | a higher type rank always gives a higher score; within a type, only the DELAYED status lowers it; equal scores mean equal type and equal delayed-ness |
| Trains.PriorityExamples | src/models/train.py:26-36 | FREIGHT undelayed scores 100, PASSENGER 200, EXPRESS delayed 290; an undelayed score is 100 times the rank and a delayed one 10 less |
| Trains.ExpectedTravelTime | src/models/train.py:53-61 | the travel time is positive |
| Trains.TravelTimeByType | src/models/train.py:53-61 | EXPRESS takes 15, PASSENGER 20, FREIGHT 30 minutes; a higher rank travels faster |
| Trains.Train.constructor | src/models/train.py:6-24 | fields are as given; a supplied priority score is kept, a missing one is computed from type and status |
| Trains.LateIgnoresStatusOnceArrived | src/models/train.py:38-43 | the `is_delayed` test (`Trains.Late`, used by `Trains.Train.IsDelayed` and `Trains.TrainValue.IsDelayed`): once an actual arrival is known the status is ignored and the train is late exactly when it arrived after schedule; before that, exactly when its status is DELAYED |
| Trains.Train.DelayMinutes | src/models/train.py:45-50 | the delay is never negative; it is positive exactly when an actual arrival later than the scheduled one is known, and then it is their difference |
| Trains.Train.UpdatePosition | src/models/train.py:63-67 | the position becomes the new one; SCHEDULED becomes RUNNING, any other status is kept |
| Trains.Train.SetDelay | src/models/train.py:69-76 | a positive delay gives DELAYED and sets the actual arrival only if none was known; otherwise the status is RUNNING; the priority score is left stale |
| Trains.DelayedCount | src/optimization/scheduler.py:206-207 | the count of delayed trains is at most the number of trains; it is 0 exactly when none is delayed and full exactly when all are |
| Sections.TrackSegment.constructor | src/models/section.py:5-19 | fields are as given; a missing occupancy list starts empty |
| Sections.TrackSegment.FullWhenUnavailable | src/models/section.py:21-25 | `is_available` (`Sections.TrackSegment.IsAvailable`) compares against the platform capacity on a platform and the plain capacity elsewhere (`Sections.TrackSegment.EffectiveCapacity`); a segment that keeps its invariant and has no room is exactly full |
| Sections.TrackSegment.AddTrain | src/models/section.py:33-38 | succeeds exactly when the segment has room and the id is absent, then appends it; keeps no-duplicates and occupancy within effective capacity |
| Sections.TrackSegment.RemoveTrain | src/models/section.py:40-45 | succeeds exactly when the id is present; removes only its first occurrence and keeps the invariant |
| Sections.LookupIndex | src/models/section.py:71-76 | finds the last segment with the id, or -1 when there is none |
| Sections.AvailableIn | src/models/section.py:78-80 | the result holds only segments with room, and every segment with room |
| Sections.AvailableAppend | src/models/section.py:78-80 | the filter keeps list order: filtering a concatenation concatenates the filtered parts |
| Sections.PlatformsIn | src/models/section.py:82-84 | the result holds only platforms, and every platform |
| Sections.PlatformsAppend | src/models/section.py:82-84 | the platform filter keeps list order |
| Sections.OccupancySum | src/models/section.py:91-94 | the occupancy total is 0 exactly when every segment is empty |
| Sections.SumsAppend | src/models/section.py:86-94 | both sums add up over a concatenation of segment lists |
| Sections.CapacitySumBounds | src/models/section.py:86-89 | with non-negative capacities, the total is non-negative and at least each segment's plain capacity |
| Sections.Section.constructor | src/models/section.py:62-72 | fields are as given; the default headway is 5 minutes |
| Sections.Section.GetSegment | src/models/section.py:71-76 | None exactly when no segment has the id; otherwise the last segment with that id |
| Sections.Section.UtilizationRate | src/models/section.py:96-99 | with a positive total capacity the rate times the total capacity is the current occupancy (so it is never negative); with a non-positive total it is 0; it is 0 exactly when the total is non-positive or no segment holds a train |
| Sections.Section.UtilizationAtMostOneWithoutPlatforms | src/models/section.py:96-99 | the documented range 0.0 to 1.0 holds when no segment is a platform and every segment keeps its invariant |
| Sections.PlatformUtilizationExample | src/models/section.py:86-99 | the documented range does not hold in general: a platform segment of capacity 1 and platform capacity 3 takes three trains through `add_train` and keeps its invariant, and the section made of it reports a rate of 3.0, because the total counts plain capacities only |
| Sections.Section.AccommodatingMeansAvailable | src/models/section.py:101-104 | `can_accommodate_train` (`Sections.Section.CanAccommodateTrain`) holds exactly when the section knows the segment and lists it among its segments with room |
| Sections.Section.AssignTrainToSegment | src/models/section.py:106-111 | an unknown id is refused and changes nothing; otherwise it acts as `add_train` on that segment; no other segment changes; an accepted train went to a segment that could accommodate it |
| Sections.Section.RemoveTrainFromSegment | src/models/section.py:113-118 | an unknown id is refused and changes nothing; otherwise it acts as `remove_train`; no other segment changes |
| Sections.Section.FindTrainPosition | src/models/section.py:120-125 | None exactly when no segment holds the train; otherwise the first such segment in list order |
| Lists.RemoveFirstSplits | src/models/section.py:43 | `list.remove` cuts out exactly the first occurrence |
| Lists.RemoveFirstCounts | src/models/section.py:43 | `list.remove` shortens the list by one and drops one copy of the id |
| Lists.RemoveFirstKeepsNoDuplicates | src/models/conflict.py:37-40 | on a list without duplicates, removing an id leaves no copy of it and no duplicates |
| Lists.SliceFrom | src/optimization/optimizer.py:160-162 | Python's `s[start:]` for every start: the result is a suffix of the list; a start of 0 or more drops the first `start` elements (all of them when it is past the end); a negative start keeps the last `-start` elements (the whole list when it is longer) |
| Sorting.SortByPermutes | src/optimization/conflict_detector.py:22 | `sorted` returns a permutation of its input, ordered by the key |
| Sorting.SortByStable | src/optimization/scheduler.py:28 | `sorted` is stable: the elements of each key keep their input order |
| Sorting.SortBySortedIsIdentity | src/optimization/conflict_detector.py:65 | sorting an already sorted list changes nothing |
| Conflicts.WithTrain | src/models/conflict.py:32-35 | after `add_train` the id is listed, nothing else is added, and a duplicate-free list stays duplicate-free |
| Conflicts.WithTrainIdempotent | src/models/conflict.py:32-35 | adding the same id twice equals adding it once; a present id changes nothing; an absent one adds one entry |
| Conflicts.Conflict.constructor | src/models/conflict.py:6-19 | fields are as given; a fresh conflict is unresolved and has no action |
| Conflicts.Conflict.AddTrain | src/models/conflict.py:32-35 | the train list becomes `WithTrain` of the old one; the affected count grows by one only for a new id; resolution state is unchanged |
| Conflicts.Conflict.RemoveTrain | src/models/conflict.py:37-40 | removes the first occurrence, if any; the affected count drops by one only when the id was listed |
| Conflicts.Conflict.Resolve | src/models/conflict.py:42-46 | the conflict becomes resolved with the given action; its trains are unchanged |
| Conflicts.Conflict.GenerateDescription | src/models/conflict.py:48-62 | a stored description is returned verbatim; the text is never empty |
| Conflicts.ToDicts | src/models/conflict.py:64-79 | one dictionary per conflict, in order, each the conflict's `to_dict` |
| Conflicts.WeightOrdersBySeverity | src/models/conflict.py:26-30 | carries the properties of `Conflicts.Conflict.AffectedTrainCount` and `Conflicts.Conflict.PriorityWeight`: with fewer than 10 trains each, a higher severity always means a higher priority weight; at equal severity, more trains mean a higher weight |
| ConflictDetection.Materialize | src/optimization/conflict_detector.py:81-90 | every conflict object created carries its finding's fields, is unresolved, and is fresh |
| ConflictDetection.GroupBySegment | src/optimization/conflict_detector.py:40-56 | segments are listed in order of first appearance, each with its positioned trains' intervals in arrival order |
| ConflictDetection.GatherOverlapping | src/optimization/conflict_detector.py:68-77 | the inner loop gathers exactly the forward chain cluster starting at `i` |
| ConflictDetection.ClusterConflicts | src/optimization/conflict_detector.py:68-90 | one same-track finding per start index whose cluster exceeds the capacity |
| ConflictDetection.DetectTrackConflicts | src/optimization/conflict_detector.py:35-92 | the same-track scan returns exactly `TrackSpec` of the sorted trains |
| ConflictDetection.DetectHeadwayConflicts | src/optimization/conflict_detector.py:94-123 | the headway scan returns exactly `HeadwaySpec` |
| ConflictDetection.TrainsAtPlatform | src/optimization/conflict_detector.py:131-135 | the trains positioned at the platform, in arrival order |
| ConflictDetection.DetectPlatformConflicts | src/optimization/conflict_detector.py:125-148 | the platform scan returns exactly `PlatformSpec` |
| ConflictDetection.DetectConflicts | src/optimization/conflict_detector.py:17-33 | track, then headway, then platform conflicts over the trains sorted by arrival, as fresh unresolved objects |
| ConflictDetection.SegOrderMatchesSchedules | src/optimization/conflict_detector.py:40-56 | a segment is grouped exactly when some positioned train is on it, and no segment is grouped twice |
| ConflictDetection.ClusterIsMaximalChain | src/optimization/conflict_detector.py:68-77 | the cluster at `i` is a contiguous run; every member starts before the running end; the next train does not; touching intervals do not join |
| ConflictDetection.ClusterFindingsWellFormed | src/optimization/conflict_detector.py:79-90 | at most as many findings as start indices; each is SAME_TRACK on its segment, over capacity, with severity min(5, size) in 1..5 |
| ConflictDetection.TrackFindingsWellFormed | src/optimization/conflict_detector.py:58-90 | every same-track finding names a known segment and exceeds that segment's plain capacity |
| ConflictDetection.ScheduleAlreadySorted | src/optimization/conflict_detector.py:64-65 | grouped after the arrival sort, a segment's schedule is already in start order, so `schedule.sort` keeps it |
| ConflictDetection.ScheduleBounded | src/optimization/conflict_detector.py:49-56 | every grouped interval starts at a train's arrival |
| ConflictDetection.HeadwayCharacterized | src/optimization/conflict_detector.py:99-121 | at most n-1 headway findings; one exactly for each adjacent positioned pair whose gap is below the headway |
| ConflictDetection.HeadwayUpToSound | src/optimization/conflict_detector.py:99-121 | every headway finding comes from an adjacent violating pair |
| ConflictDetection.HeadwayUpToComplete | src/optimization/conflict_detector.py:99-121 | every adjacent violating pair gives a finding |
| ConflictDetection.PlatformCharacterized | src/optimization/conflict_detector.py:130-146 | at most one finding per platform; one exactly for each overfull platform, listing its trains in arrival order |
| ConflictDetection.PlatformCount | src/optimization/conflict_detector.py:130-146 | no more platform findings than platforms |
| ConflictDetection.PlatformSound | src/optimization/conflict_detector.py:130-146 | every platform finding comes from an overfull platform |
| ConflictDetection.PlatformComplete | src/optimization/conflict_detector.py:130-146 | every overfull platform gives a finding |
| ConflictDetection.PlatformIgnoresTime | src/optimization/conflict_detector.py:133-137 | platform findings do not depend on arrival or departure times |
| ConflictDetection.IdsAtIgnoresTime | src/optimization/conflict_detector.py:133-135 | the trains listed at a platform do not depend on times |
| ConflictDetection.UnpositionedTrainsNeverFlagged | src/optimization/conflict_detector.py:40-42 | a train without a position appears in no same-track and no headway finding |
| ConflictDetection.UnplacedTrainsNeverFlagged | src/optimization/conflict_detector.py:150-153 | a train with no position at all appears in no finding of any kind |
| ConflictDetection.ClusterFindingsSound | src/optimization/conflict_detector.py:68-90 | every finding of a segment is the cluster gathered from some start index `i`, over the capacity, with time `s[i].start` |
| ConflictDetection.ClusterFindingsComplete | src/optimization/conflict_detector.py:68-90 | every start index whose cluster exceeds the capacity gives that cluster's finding |
| ConflictDetection.TrackOverCharacterized | src/optimization/conflict_detector.py:58-90 | over the listed segments, a finding exists exactly for each overflowing cluster of a known segment |
| ConflictDetection.TrackSpecCharacterized | src/optimization/conflict_detector.py:35-92 | the same-track findings are exactly the overflowing clusters of every known segment's sorted schedule, each at its first train's start, and nothing else |
| ConflictDetection.ClusterFindingsAvoid | src/optimization/conflict_detector.py:68-90 | a train absent from a schedule is in none of its clusters |
| ConflictDetection.ScheduleAvoids | src/optimization/conflict_detector.py:40-42 | an unpositioned train is in no segment's schedule |
| ConflictDetection.TrackOverAvoids | src/optimization/conflict_detector.py:58-90 | an unpositioned train is in no same-track finding |
| ConflictDetection.HeadwayAvoids | src/optimization/conflict_detector.py:150-153 | an unpositioned train is in no headway finding |
| ConflictDetection.IdsAtAvoids | src/optimization/conflict_detector.py:133-135 | a train without a position is at no platform |
| ConflictDetection.PlatformAvoids | src/optimization/conflict_detector.py:130-146 | a train without a position is in no platform finding |
| ConflictDetection.DetectionSeverities | src/optimization/conflict_detector.py:87-143 | every severity is in 1..5; headway findings are HEADWAY, severity 3, no segment; platform findings are PLATFORM, severity 4 |
| ConflictDetection.CountsPartition | src/optimization/conflict_detector.py:155-171 | resolved + pending, the three severity bands, and the four per-type counts each add up to the total |
| ConflictDetection.GetConflictSummary | src/optimization/conflict_detector.py:155-171 | the summary's total is the number of conflicts, and each of its three breakdowns adds up to it |
| ConflictDetection.DescriptionGiven | src/models/conflict.py:48-51 | the detector always stores a non-empty description, so `generate_description` returns it |
| ConflictDetection.RealizedToDict | src/models/conflict.py:64-79 | a freshly detected conflict serializes to its finding's fields, unresolved, with count and weight derived |
| ConflictDetection.RealizedToDicts | src/optimization/optimizer.py:58 | the conflicts' dictionaries are the findings' pending records, in order |
| ConflictDetection.DetectedConflictsArePending | src/optimization/conflict_detector.py:159-160 | in a summary of freshly detected conflicts, none is resolved and all are pending |
| Scheduling.SlotIsAvailable | src/optimization/scheduler.py:144-154 | a slot is available exactly when it keeps the headway before or after every reservation |
| Scheduling.SlotTestIgnoresOrder | src/optimization/scheduler.py:144-154 | availability does not depend on the order of the reservations |
| Scheduling.BestSegmentForTrain | src/optimization/scheduler.py:156-176 | None exactly when no segment has room; otherwise EXPRESS gets the first non-platform, PASSENGER the first platform, else the first segment |
| Scheduling.FindOptimalSlot | src/optimization/scheduler.py:94-142 | the slot search returns exactly `OptimalSlot` for the segments with room, the train and the reservations |
| Scheduling.SlotFor | src/optimization/scheduler.py:108-142 | the search on what was read of the train, including the forward probe loop, returns exactly `OptimalSlot` |
| Scheduling.ProbeFindsFirstFit | src/optimization/scheduler.py:126-141 | a probe result is the first headway step before the limit that fits; no result means no step fits |
| Scheduling.SlotIsSound | src/optimization/scheduler.py:94-142 | a slot is on the preferred, known segment, is available, starts within two hours of the desired arrival, and is either the desired interval or a probe step with travel-time length |
| Scheduling.SlotMissingOnlyWhenBlocked | src/optimization/scheduler.py:94-142 | no slot exactly when there is no preferred segment, the segment is unknown, or neither the desired interval nor any probe fits; an available desired interval is kept as is |
| Scheduling.Recommend | src/optimization/scheduler.py:53-84 | HOLD of 15 exactly without a slot; DELAY by the minutes late exactly for a later slot; PROCEED otherwise, on the slot's segment |
| Scheduling.RescheduledTrain | src/optimization/scheduler.py:178-198 | the new train keeps id, number, type and priority, and takes the slot's segment and times; a late one becomes delayed, with its actual arrival twice the delay after the original arrival |
| Scheduling.CreateOptimizedTrain | src/optimization/scheduler.py:178-198 | builds a fresh train whose fields are `Rescheduled` of the original |
| Scheduling.ReasonIdentifiesAction | src/optimization/scheduler.py:58-84 | the fixed reason texts (`Scheduling.Reason`) tell PROCEED, DELAY and HOLD apart: two recommendations share a reason exactly when they share an action |
| Scheduling.Improvement | src/optimization/scheduler.py:209-213 | the ratio lies in 0..100; it is 0 without original delays or without a reduction, 100 when all delays vanish; on a reduction it is exactly (o − p) / o · 100 |
| Scheduling.ThroughputImprovement | src/optimization/scheduler.py:200-213 | the ratio is `Improvement` of the delayed counts of the original and optimized trains, so it lies in 0..100, is 0 without original delays or without a reduction, and is 100 when all delays vanish |
| Scheduling.ScheduleTrain | src/optimization/scheduler.py:33-84 | one loop iteration: the slot, the outcome train, the recommendation and the delay are those the specification gives |
| Scheduling.PassPerTrain | src/optimization/scheduler.py:33-84 | the k-th train in processing order gets the recommendation and the outcome its own slot calls for |
| Scheduling.PassFollowsPlan | src/optimization/scheduler.py:33-84 | the pass reserves exactly the planned slots, and its recommendations, outcomes and total delay follow from them |
| Scheduling.SchedulePass | src/optimization/scheduler.py:33-84 | the loop returns exactly what `Pass` gives for the trains in processing order |
| Scheduling.OptimizeSchedule | src/optimization/scheduler.py:17-92 | the result is `ScheduleOf` the trains as they were on entry, with one outcome and one recommendation per train |
| Scheduling.ProcessingOrder | src/optimization/scheduler.py:28 | trains are processed in descending priority, each exactly once, equal scores in input order |
| Scheduling.ReservationsSeparated | src/optimization/scheduler.py:43-51 | any two reservations on the same segment keep the minimum headway between them |
| Scheduling.ReservationsAreProposedSlots | src/optimization/scheduler.py:43-51 | every reservation is the slot proposed for some train |
| Scheduling.ProposedSlotsAreReserved | src/optimization/scheduler.py:43-51 | every proposed slot is reserved on its segment |
| Scheduling.DelayBounds | src/optimization/scheduler.py:53-56 | each train's delay is between 0 and 119 minutes, so the total is between 0 and 119 per train |
| Optimization.KindsPartition | src/optimization/optimizer.py:115-117 | the express, passenger and freight counts add up to the number of trains |
| Optimization.ActionsPartition | src/optimization/optimizer.py:127-130 | the proceed, delay and hold counts add up to the number of recommendations |
| Optimization.Percentage | src/optimization/optimizer.py:136 | the percentage lies in 0..100, is 100 for an empty whole or a full part, 0 for an empty part, and is exactly part/whole·100 |
| Optimization.CalculateMetrics | src/optimization/optimizer.py:108-158 | totals match the trains and conflicts; the delayed, per-type, resolved and per-action figures are the counts `DelayedCount`, `CountKind`, `CountMatching` and `CountAction` of their lists, and the type and action counts partition them; the on-time percentage and resolution rate are `Percentage` of those counts, in 0..100 and 100 when empty; delay and improvement are copied; utilization and capacities come from the section |
| Optimization.ProceedAll | src/optimization/optimizer.py:91-98 | one PROCEED per train, in input order, on the train's current position |
| Optimization.DefaultRecommendations | src/optimization/optimizer.py:87-106 | the loop returns the trains unchanged with one PROCEED each, no delay and no improvement |
| Optimization.DefaultAllProceed | src/optimization/optimizer.py:87-106 | without conflicts, every recommendation is PROCEED and none is DELAY or HOLD |
| Optimization.ReportCoversEveryTrain | src/optimization/optimizer.py:26-65 | the report analyses every train; it has one recommendation and one resulting train per train; its action counts add up to the number of trains |
| Optimization.ReportedConflictsArePending | src/optimization/optimizer.py:34-58 | reported conflicts are unresolved with no action; the summary counts them all as pending; the resolution rate is 0, or 100 without conflicts |
| Optimization.QuietSectionProceeds | src/optimization/optimizer.py:41-48 | without conflicts the trains are returned unchanged, every recommendation is PROCEED on the train's position, and the total delay is 0 |
| Optimization.ReportDelayBounded | src/optimization/optimizer.py:41-51 | a report's total delay is between 0 and 119 minutes per train |
| Optimization.Recorded | src/optimization/optimizer.py:67-72 | after appending, the history holds at most 100 entries, ends with the new one, and is the most recent part of old history plus entry |
| Optimization.RecordedRelabel | src/optimization/optimizer.py:178-184 | relabelling the entry just recorded equals recording the relabelled entry |
| Optimization.HistoryKeepsMostRecent | src/optimization/optimizer.py:67-72 | over any number of runs the history is the last `min(100, n)` results, in order |
| Optimization.OptimizationEngine.constructor | src/optimization/optimizer.py:20-24 | the engine holds the section and an empty history |
| Optimization.OptimizationEngine.Detect | src/optimization/optimizer.py:34 | the conflicts realize the detector's findings on the trains as observed on entry; the observation is unchanged |
| Optimization.OptimizationEngine.ScheduleIfConflicting | src/optimization/optimizer.py:40-48 | the scheduler's result when there is a conflict, else the default result, on the trains as observed on entry |
| Optimization.OptimizationEngine.Analyze | src/optimization/optimizer.py:26-65 | the result is `ReportOf` the section and trains as observed on entry |
| Optimization.OptimizationEngine.Optimize | src/optimization/optimizer.py:26-75 | the result is `ReportOf` the observation on entry, and the history becomes `Recorded` of the old history and the result |
| Optimization.OptimizationEngine.GetOptimizationHistory | src/optimization/optimizer.py:160-162 | a limit of at least 1 gives the last `min(limit, n)` entries; 0 gives the whole history (Python's `[-0:]`); a negative limit drops entries from the front; the default limit is 10 |
| Optimization.OptimizationEngine.GetSectionStatus | src/optimization/optimizer.py:164-171 | the count is the history's length; the last time stamp is the last entry's, or None for an empty history |
| Optimization.OptimizationEngine.SimulateScenario | src/optimization/optimizer.py:173-184 | the result is the report labelled with the scenario; the history is as if the labelled result had been recorded, because the stored entry is the same dictionary; the default scenario name is "Default" |

## Left out

- Clock readings (`datetime.now()`) are parameters: the result's time stamp and the scenario's
  time stamp. `processing_time_ms`, `optimization_timestamp`, `current_time` and `resolved_at` are
  not modelled.
- `uuid.uuid4()` conflict ids are not modelled, and neither are the `conflict_id` and
  `resolved_at` entries of a conflict's `to_dict`.
- `logging` and the unused `import pulp` are left out. So is the `try/except` error result in
  `optimize`: no modelled step can raise. The error path leaves the history untouched, and that
  holds trivially.
- Optimization.OptimizationEngine.Optimize: the `status` field of the result is not modelled.
- The description texts are modelled as strings, but the `:.1f` float formatting of the headway gap
  is not. The gap is whole minutes here, and its text is the integer followed by `.0`, which is
  what `:.1f` prints for a whole number.
- `utilization_rate` and the percentages are `real`. Python's floating-point rounding is not
  modelled.
- `to_dict` of trains, segments and the section is left out. Optimized trains are values
  (`TrainValue`), not new `Train` objects. `Scheduling.CreateOptimizedTrain` shows the object
  version but is not used by the pass.
- Optimization.OptimizationEngine.GetSectionStatus: `section_info` (the section's `to_dict`) and
  `current_time` are left out.
- `generate_priority_explanation` and the `priority_explanation` text in default recommendations
  are left out. So are the reason strings beyond `Scheduling.Reason`.
- The in-place `existing_reservations.sort()` in `_find_optimal_slot` only reorders the scheduler's
  private reservation lists. It is not modelled, and `Scheduling.SlotTestIgnoresOrder` shows the
  order does not matter.
- Python's `sorted`/`list.sort` (Timsort) is modelled by one stable insertion sort. Its stability
  and permutation properties are proved.
- Optimization.OptimizationEngine.Analyze: the engine reads the trains and the section once, at
  entry. The summary and the metrics are computed on the conflicts' `to_dict` snapshots. These are
  equal to the live conflicts, because nothing resolves them between detection and reporting.
- Optimization.OptimizationEngine.SimulateScenario: Python adds the scenario fields to the very
  dictionary stored in the history. The model replaces the last history entry with the labelled
  copy. This has the same effect, but aliasing itself is not modelled.
- The `conflicts` argument of `optimize_schedule` is accepted and ignored, as in the source.
- Scheduling.OptimizeSchedule: the scheduler and the engine require `min_headway_minutes > 0`.
  With a zero headway the probe loop never ends once the desired interval is taken; with a
  negative one it probes backwards and can move a train earlier than scheduled (a negative
  delay and a PROCEED). Neither case is in the model.
