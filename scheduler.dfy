/**
 * The priority-greedy rescheduler (src/optimization/scheduler.py). Trains are taken in descending
 * priority; each gets the first slot on its preferred segment that keeps the section's minimum
 * headway to every slot already reserved there, probing forward from its scheduled arrival in
 * steps of the headway for up to two hours. A train with no slot is held.
 *
 * The search is proved against specification functions (`OptimalSlot`, `Planned`) over what the
 * scheduler reads of each train (`Request`); the lemmas state what those functions guarantee.
 */
module Scheduling {

  import opened Wrappers
  import opened Enums
  import opened Sorting
  import opened Trains
  import opened Sections
  import opened Conflicts
  import opened Lists

  /** Later slots are probed while they start less than this many minutes after the desired arrival. */
  const SearchWindow := 120

  /** The hold recommended, and added to the total delay, when no slot is found. */
  const HoldMinutes := 15

  /** One entry of a segment's reservation list: `(start_time, end_time, train_id)`. */
  datatype Reservation = Reservation(start: int, end: int, trainId: string)

  /** The schedule `_find_optimal_slot` proposes. */
  datatype Slot = Slot(segmentId: string, arrival: int, departure: int)

  /** The three actions the scheduler (and the engine's default path) recommend. */
  datatype Recommendation =
    | Proceed(trainId: string, segmentId: Option<string>)
    | Delay(trainId: string, delayMinutes: int, newArrival: int, newSegmentId: string)
    | Hold(trainId: string, recommendedDelay: int)

  /** The fixed reason text attached to each kind of recommendation. */
  function Reason(r: Recommendation): string
  {
    match r
    case Proceed(_, _) => "No conflicts detected"
    case Delay(_, _, _, _) => "Priority-based rescheduling to resolve conflicts"
    case Hold(_, _) => "No available slots found"
  }

  /** The reason text tells the three kinds of recommendation apart. */
  lemma ReasonIdentifiesAction(a: Recommendation, b: Recommendation)
    ensures Reason(a) == Reason(b) <==> (a.Proceed? && b.Proceed?) || (a.Delay? && b.Delay?) || (a.Hold? && b.Hold?)
  {
  }

  /** The dictionary `optimize_schedule` returns, without its timestamp. */
  datatype ScheduleResult = ScheduleResult(optimizedTrains: seq<TrainValue>, recommendations: seq<Recommendation>,
                                           totalDelayMinutes: int, throughputImprovement: real)

  /** What the scheduler reads of a train. */
  datatype Request = Request(id: string, kind: TrainType, arrival: int, departure: Option<int>,
                             position: Option<string>)

  function RequestOf(v: TrainValue): Request
  {
    Request(v.id, v.kind, v.scheduledArrival, v.scheduledDeparture, v.position)
  }

  function RequestsOf(vs: seq<TrainValue>): (rs: seq<Request>)
    ensures |rs| == |vs|
    ensures forall i :: 0 <= i < |vs| ==> rs[i] == RequestOf(vs[i])
  {
    if vs == [] then [] else [RequestOf(vs[0])] + RequestsOf(vs[1..])
  }

  /** The sort key of `optimize_schedule`: ascending in it is descending in priority score. */
  function PriorityKey(t: Train): int
  {
    -t.priorityScore
  }

  // ---------------------------------------------------------------------------------------------
  // The slot test

  /** The slot `[start, end]` keeps the headway `h` to reservation `r`: it ends `h` before `r`
    * starts or starts `h` after `r` ends. */
  predicate Clear(start: int, end: int, h: int, r: Reservation)
  {
    end + h <= r.start || start >= r.end + h
  }

  /** `_slot_is_available`: the slot keeps the headway to every reservation. */
  function SlotIsAvailable(start: int, end: int, h: int, rs: seq<Reservation>): (ok: bool)
    ensures ok <==> forall k :: 0 <= k < |rs| ==> Clear(start, end, h, rs[k])
  {
    if rs == [] then true else Clear(start, end, h, rs[0]) && SlotIsAvailable(start, end, h, rs[1..])
  }

  /** Only which reservations are listed matters, not their order or repetition. */
  lemma SlotTestIgnoresOrder(start: int, end: int, h: int, a: seq<Reservation>, b: seq<Reservation>)
    requires forall r :: r in a <==> r in b
    ensures SlotIsAvailable(start, end, h, a) == SlotIsAvailable(start, end, h, b)
  {
    if SlotIsAvailable(start, end, h, a) {
      forall k | 0 <= k < |b| ensures Clear(start, end, h, b[k]) {
        assert b[k] in a;
        var j :| 0 <= j < |a| && a[j] == b[k];
      }
    }
    if SlotIsAvailable(start, end, h, b) {
      forall k | 0 <= k < |a| ensures Clear(start, end, h, a[k]) {
        assert a[k] in b;
        var j :| 0 <= j < |b| && b[j] == a[k];
      }
    }
  }

  // ---------------------------------------------------------------------------------------------
  // Choosing a segment

  /** Index of the first segment that is (when `platform`) or is not a platform, or -1. */
  function FirstWhere(s: seq<TrackSegment>, platform: bool): (i: int)
    ensures -1 <= i < |s|
    ensures i < 0 <==> forall j :: 0 <= j < |s| ==> s[j].isPlatform != platform
    ensures i >= 0 ==> s[i].isPlatform == platform && forall j :: 0 <= j < i ==> s[j].isPlatform != platform
  {
    if s == [] then -1
    else if s[0].isPlatform == platform then 0
    else
      var k := FirstWhere(s[1..], platform);
      if k < 0 then -1 else k + 1
  }

  /** The segments a train of this type looks for first: express trains open line, passenger
    * trains platforms, freight trains any segment. */
  predicate Prefers(kind: TrainType, s: TrackSegment)
  {
    match kind
    case Express => !s.isPlatform
    case Passenger => s.isPlatform
    case Freight => true
  }

  /** Index `i` of `avail` is the choice: the first preferred segment, or the first one when none
    * is preferred. */
  ghost predicate ChosenAt(kind: TrainType, avail: seq<TrackSegment>, i: int)
  {
    0 <= i < |avail| &&
    ((Prefers(kind, avail[i]) && forall j :: 0 <= j < i ==> !Prefers(kind, avail[j])) ||
     (i == 0 && forall j :: 0 <= j < |avail| ==> !Prefers(kind, avail[j])))
  }

  /**
   * `_get_best_segment_for_train`, given the section's available segments (which the scheduler
   * never changes): the id of the chosen segment, or None when no segment has room.
   */
  function BestSegmentForTrain(available: seq<TrackSegment>, kind: TrainType): (r: Option<string>)
    ensures r.None? <==> available == []
    ensures r.Some? ==> exists i :: ChosenAt(kind, available, i) && available[i].id == r.value
  {
    if available == [] then None
    else if kind == Express && FirstWhere(available, false) >= 0 then
      var i := FirstWhere(available, false);
      assert ChosenAt(kind, available, i);
      Some(available[i].id)
    else if kind == Passenger && FirstWhere(available, true) >= 0 then
      var i := FirstWhere(available, true);
      assert ChosenAt(kind, available, i);
      Some(available[i].id)
    else
      assert ChosenAt(kind, available, 0);
      Some(available[0].id)
  }

  /** The train's own position when it has one, otherwise the best segment for its type. */
  function PreferredSegment(available: seq<TrackSegment>, r: Request): Option<string>
  {
    if IsSet(r.position) then r.position else BestSegmentForTrain(available, r.kind)
  }

  /** The reservations recorded on a segment so far (`reservations.get(segment_id, [])`). */
  function Existing(table: map<string, seq<Reservation>>, sid: string): seq<Reservation>
  {
    if sid in table then table[sid] else []
  }

  // ---------------------------------------------------------------------------------------------
  // Finding a slot

  /** The `j`-th probe time after `base`. */
  function Point(base: int, h: int, j: nat): int
  {
    base + j * h
  }

  /** The slot of `travel` minutes starting at `t` keeps the headway to every reservation. */
  predicate Fits(t: int, travel: int, h: int, rs: seq<Reservation>)
  {
    SlotIsAvailable(t, t + travel, h, rs)
  }

  /** The forward probe: the first of `search`, `search + h`, ... before `limit` that fits. */
  function Probe(search: int, limit: int, travel: int, h: int, rs: seq<Reservation>): Option<int>
    requires h > 0
    decreases limit - search
  {
    if search >= limit then None
    else if Fits(search, travel, h, rs) then Some(search)
    else Probe(search + h, limit, travel, h, rs)
  }

  /** `_find_optimal_slot` on the reservations recorded so far. */
  function OptimalSlot(section: Section, available: seq<TrackSegment>, r: Request,
                       table: map<string, seq<Reservation>>): Option<Slot>
    requires section.minHeadway > 0
  {
    var preferred := PreferredSegment(available, r);
    if !IsSet(preferred) || section.GetSegment(preferred.value).None? then None
    else
      var sid := preferred.value;
      var existing := Existing(table, sid);
      var travel := ExpectedTravelTime(r.kind);
      var desiredEnd := r.departure.GetOr(r.arrival + travel);
      if SlotIsAvailable(r.arrival, desiredEnd, section.minHeadway, existing) then
        Some(Slot(sid, r.arrival, desiredEnd))
      else
        match Probe(r.arrival, r.arrival + SearchWindow, travel, section.minHeadway, existing)
        case None => None
        case Some(t) => Some(Slot(sid, t, t + travel))
  }

  /**
   * `_find_optimal_slot`: the preferred segment must be set and known; the desired interval is
   * kept when it is free, otherwise slots of the type's travel time are probed every `h` minutes.
   */
  method FindOptimalSlot(section: Section, train: Train, table: map<string, seq<Reservation>>)
    returns (slot: Option<Slot>)
    requires section.minHeadway > 0
    ensures slot == OptimalSlot(section, section.AvailableSegments(), RequestOf(ValueOf(train)), table)
  {
    slot := SlotFor(section, section.AvailableSegments(), RequestOf(ValueOf(train)), table);
  }

  /** The search itself, on the segments with room and what is read of the train. */
  method SlotFor(section: Section, available: seq<TrackSegment>, request: Request, table: map<string, seq<Reservation>>)
    returns (slot: Option<Slot>)
    requires section.minHeadway > 0
    ensures slot == OptimalSlot(section, available, request, table)
  {
    var preferred := if IsSet(request.position) then request.position else BestSegmentForTrain(available, request.kind);
    if !IsSet(preferred) {
      return None;
    }
    var segment := section.GetSegment(preferred.value);
    if segment.None? {
      return None;
    }
    var existing := Existing(table, preferred.value);
    var desiredStart := request.arrival;
    var desiredEnd := request.departure.GetOr(desiredStart + ExpectedTravelTime(request.kind));
    if SlotIsAvailable(desiredStart, desiredEnd, section.minHeadway, existing) {
      return Some(Slot(preferred.value, desiredStart, desiredEnd));
    }
    var minHeadway := section.minHeadway;
    var travel := ExpectedTravelTime(request.kind);
    var searchTime := desiredStart;
    var maxSearchTime := desiredStart + SearchWindow;
    ghost var probed := Probe(desiredStart, maxSearchTime, travel, minHeadway, existing);
    assert OptimalSlot(section, available, request, table) ==
           if probed.None? then None else Some(Slot(preferred.value, probed.value, probed.value + travel));
    while searchTime < maxSearchTime
      invariant Probe(searchTime, maxSearchTime, travel, minHeadway, existing) == probed
      decreases maxSearchTime - searchTime
    {
      if Fits(searchTime, travel, minHeadway, existing) {
        assert probed == Some(searchTime);
        return Some(Slot(preferred.value, searchTime, searchTime + travel));
      }
      searchTime := searchTime + minHeadway;
    }
    assert probed == None;
    return None;
  }

  lemma PointStep(base: int, h: int, j: nat)
    requires h > 0
    ensures Point(base + h, h, j) == Point(base, h, j + 1)
    ensures Point(base, h, j) >= base
  {
    assert (j + 1) * h == j * h + h;
  }

  /**
   * The probe finds the first probe time that fits: it is `search + k*h` for some `k`, lies
   * before `limit`, fits, and every earlier probe time does not; when it finds nothing, no probe
   * time before `limit` fits.
   */
  lemma {:induction false} ProbeFindsFirstFit(search: int, limit: int, travel: int, h: int, rs: seq<Reservation>)
    requires h > 0
    ensures var t := Probe(search, limit, travel, h, rs);
      t.Some? ==> search <= t.value < limit && Fits(t.value, travel, h, rs) &&
                  exists k: nat :: t.value == Point(search, h, k) &&
                                   forall j: nat :: j < k ==> !Fits(Point(search, h, j), travel, h, rs)
    ensures Probe(search, limit, travel, h, rs).None? ==>
              forall j: nat :: Point(search, h, j) < limit ==> !Fits(Point(search, h, j), travel, h, rs)
    decreases limit - search
  {
    var t := Probe(search, limit, travel, h, rs);
    if search >= limit {
      forall j: nat ensures Point(search, h, j) >= limit {
        PointStep(search, h, j);
      }
    } else if Fits(search, travel, h, rs) {
      assert Point(search, h, 0) == search;
    } else {
      ProbeFindsFirstFit(search + h, limit, travel, h, rs);
      assert t == Probe(search + h, limit, travel, h, rs);
      if t.Some? {
        var next := search + h;
        var k: nat :| t.value == Point(next, h, k) &&
                      forall j: nat :: j < k ==> !Fits(Point(next, h, j), travel, h, rs);
        PointStep(search, h, k);
        forall j: nat | j < k + 1 ensures !Fits(Point(search, h, j), travel, h, rs) {
          if j > 0 {
            PointStep(search, h, j - 1);
          }
        }
      } else {
        forall j: nat | Point(search, h, j) < limit ensures !Fits(Point(search, h, j), travel, h, rs) {
          if j > 0 {
            PointStep(search, h, j - 1);
          }
        }
      }
    }
  }

  /**
   * What a proposed slot satisfies: it is on the train's preferred segment, which is set and
   * known to the section; it keeps the headway to every reservation already on that segment; and
   * it is either the desired interval itself or a probe slot of the type's travel time starting
   * `k*h` minutes later, less than two hours after the desired arrival.
   */
  lemma SlotIsSound(section: Section, available: seq<TrackSegment>, r: Request, table: map<string, seq<Reservation>>)
    requires section.minHeadway > 0
    ensures var s := OptimalSlot(section, available, r, table);
      s.Some? ==>
        PreferredSegment(available, r) == Some(s.value.segmentId) && s.value.segmentId != "" &&
        section.GetSegment(s.value.segmentId).Some? &&
        SlotIsAvailable(s.value.arrival, s.value.departure, section.minHeadway, Existing(table, s.value.segmentId)) &&
        r.arrival <= s.value.arrival < r.arrival + SearchWindow &&
        ((s.value.arrival == r.arrival && s.value.departure == r.departure.GetOr(r.arrival + ExpectedTravelTime(r.kind))) ||
         (s.value.departure == s.value.arrival + ExpectedTravelTime(r.kind) &&
          exists k: nat :: s.value.arrival == Point(r.arrival, section.minHeadway, k)))
  {
    var preferred := PreferredSegment(available, r);
    if IsSet(preferred) && section.GetSegment(preferred.value).Some? {
      var travel := ExpectedTravelTime(r.kind);
      ProbeFindsFirstFit(r.arrival, r.arrival + SearchWindow, travel, section.minHeadway,
                         Existing(table, preferred.value));
    }
  }

  /**
   * When no slot is proposed (the train is held): the preferred segment is missing or unknown, or
   * neither the desired interval nor any probe slot within the window keeps the headway. A free
   * desired interval on a usable segment is proposed unchanged.
   */
  lemma SlotMissingOnlyWhenBlocked(section: Section, available: seq<TrackSegment>, r: Request, table: map<string, seq<Reservation>>)
    requires section.minHeadway > 0
    ensures var preferred := PreferredSegment(available, r);
      var h := section.minHeadway;
      var travel := ExpectedTravelTime(r.kind);
      var desiredEnd := r.departure.GetOr(r.arrival + travel);
      OptimalSlot(section, available, r, table).None? <==>
        (!IsSet(preferred) || section.GetSegment(preferred.value).None? ||
         (!SlotIsAvailable(r.arrival, desiredEnd, h, Existing(table, preferred.value)) &&
          forall j: nat :: Point(r.arrival, h, j) < r.arrival + SearchWindow ==>
                             !Fits(Point(r.arrival, h, j), travel, h, Existing(table, preferred.value))))
    ensures var preferred := PreferredSegment(available, r);
      var desiredEnd := r.departure.GetOr(r.arrival + ExpectedTravelTime(r.kind));
      IsSet(preferred) && section.GetSegment(preferred.value).Some? &&
      SlotIsAvailable(r.arrival, desiredEnd, section.minHeadway, Existing(table, preferred.value)) ==>
        OptimalSlot(section, available, r, table) == Some(Slot(preferred.value, r.arrival, desiredEnd))
  {
    var preferred := PreferredSegment(available, r);
    if IsSet(preferred) && section.GetSegment(preferred.value).Some? {
      var h := section.minHeadway;
      var travel := ExpectedTravelTime(r.kind);
      var existing := Existing(table, preferred.value);
      ProbeFindsFirstFit(r.arrival, r.arrival + SearchWindow, travel, h, existing);
      if Probe(r.arrival, r.arrival + SearchWindow, travel, h, existing).Some? {
        var t := Probe(r.arrival, r.arrival + SearchWindow, travel, h, existing).value;
        var k: nat :| t == Point(r.arrival, h, k);
        assert Point(r.arrival, h, k) < r.arrival + SearchWindow && Fits(Point(r.arrival, h, k), travel, h, existing);
      }
    }
  }

  // ---------------------------------------------------------------------------------------------
  // The greedy pass

  /** Records the slot on its segment, after the reservations already there. */
  function Reserve(table: map<string, seq<Reservation>>, s: Slot, trainId: string): map<string, seq<Reservation>>
  {
    table[s.segmentId := Existing(table, s.segmentId) + [Reservation(s.arrival, s.departure, trainId)]]
  }

  /** The slots proposed to the trains, in processing order, and the reservations they leave. */
  datatype Plan = Plan(slots: seq<Option<Slot>>, table: map<string, seq<Reservation>>)

  /** The greedy pass over the requests in processing order. */
  function Planned(section: Section, available: seq<TrackSegment>, rs: seq<Request>): (p: Plan)
    requires section.minHeadway > 0
    ensures |p.slots| == |rs|
  {
    if rs == [] then Plan([], map[])
    else
      var prev := Planned(section, available, rs[..|rs| - 1]);
      var r := rs[|rs| - 1];
      var slot := OptimalSlot(section, available, r, prev.table);
      Plan(prev.slots + [slot], if slot.Some? then Reserve(prev.table, slot.value, r.id) else prev.table)
  }

  /** The recommendation for a train given its slot: hold without one, delay when it is later. */
  function Recommend(r: Request, s: Option<Slot>): (rec: Recommendation)
    ensures rec.trainId == r.id
    ensures rec.Hold? <==> s.None?
    ensures rec.Hold? ==> rec.recommendedDelay == HoldMinutes
    ensures rec.Delay? <==> s.Some? && s.value.arrival > r.arrival
    ensures rec.Delay? ==> rec.delayMinutes == s.value.arrival - r.arrival > 0 && rec.newArrival == s.value.arrival
    ensures rec.Proceed? ==> rec.segmentId == Some(s.value.segmentId)
  {
    match s
    case None => Hold(r.id, HoldMinutes)
    case Some(slot) =>
      var delay := slot.arrival - r.arrival;
      if delay > 0 then Delay(r.id, delay, slot.arrival, slot.segmentId) else Proceed(r.id, Some(slot.segmentId))
  }

  /** Minutes a train adds to the total delay: its positive delay, or the hold time. */
  function DelayOf(r: Request, s: Option<Slot>): int
  {
    match s
    case None => HoldMinutes
    case Some(slot) => if slot.arrival - r.arrival > 0 then slot.arrival - r.arrival else 0
  }

  /** The recommendation for each request, in processing order, given its slot. */
  function Recommendations(rs: seq<Request>, slots: seq<Option<Slot>>): (recs: seq<Recommendation>)
    requires |slots| == |rs|
    ensures |recs| == |rs|
  {
    if rs == [] then []
    else Recommendations(rs[..|rs| - 1], slots[..|rs| - 1]) + [Recommend(rs[|rs| - 1], slots[|rs| - 1])]
  }

  /** The `k`-th recommendation is the one for the `k`-th request and its slot. */
  lemma {:induction false} RecommendationsAt(rs: seq<Request>, slots: seq<Option<Slot>>, k: int)
    requires |slots| == |rs| && 0 <= k < |rs|
    ensures Recommendations(rs, slots)[k] == Recommend(rs[k], slots[k])
  {
    if k < |rs| - 1 {
      RecommendationsAt(rs[..|rs| - 1], slots[..|rs| - 1], k);
    }
  }

  /** The minutes all the requests add to the total delay, given their slots. */
  function TotalDelay(rs: seq<Request>, slots: seq<Option<Slot>>): int
    requires |slots| == |rs|
  {
    if rs == [] then 0
    else TotalDelay(rs[..|rs| - 1], slots[..|rs| - 1]) + DelayOf(rs[|rs| - 1], slots[|rs| - 1])
  }

  /**
   * `_create_optimized_train`, on values: the original's identity, type, priority score and actual
   * departure with the slot's arrival, departure and segment (as its current position); when the
   * new arrival is later than the old one `set_delay` marks it DELAYED and, when no actual arrival
   * was known, sets that to the new arrival plus the delay.
   */
  function Rescheduled(orig: TrainValue, s: Slot): TrainValue
  {
    var delay := s.arrival - orig.scheduledArrival;
    TrainValue(orig.id, orig.number, orig.kind, s.arrival, Some(s.departure), Some(s.segmentId),
               if delay > 0 then Delayed else orig.status,
               if delay > 0 && orig.actualArrival.None? then Some(s.arrival + delay) else orig.actualArrival,
               orig.actualDeparture, orig.priorityScore)
  }

  /**
   * A rescheduled train is the same train running in its slot. Moved later with no actual arrival
   * known, it is delayed by the same number of minutes counted from its NEW arrival (so it arrives
   * twice the shift after its original schedule); otherwise whether it is delayed follows from its
   * old status and actual arrival measured against the new scheduled arrival.
   */
  lemma RescheduledTrain(orig: TrainValue, s: Slot)
    ensures var t := Rescheduled(orig, s);
      t.id == orig.id && t.number == orig.number && t.kind == orig.kind &&
      t.priorityScore == orig.priorityScore && t.actualDeparture == orig.actualDeparture &&
      t.scheduledArrival == s.arrival && t.scheduledDeparture == Some(s.departure) &&
      t.position == Some(s.segmentId)
    ensures var t := Rescheduled(orig, s);
      s.arrival > orig.scheduledArrival && orig.actualArrival.None? ==>
        t.IsDelayed() && t.actualArrival.value - t.scheduledArrival == s.arrival - orig.scheduledArrival &&
        t.actualArrival.value == orig.scheduledArrival + 2 * (s.arrival - orig.scheduledArrival)
    ensures var t := Rescheduled(orig, s);
      s.arrival <= orig.scheduledArrival || orig.actualArrival.Some? ==>
        t.actualArrival == orig.actualArrival &&
        (t.IsDelayed() <==> Late(s.arrival, if s.arrival > orig.scheduledArrival then Delayed else orig.status,
                                 orig.actualArrival))
  {
  }

  /** `_create_optimized_train`: a new train object holding `Rescheduled`. */
  method CreateOptimizedTrain(orig: Train, s: Slot) returns (t: Train)
    ensures fresh(t)
    ensures ValueOf(t) == Rescheduled(ValueOf(orig), s)
  {
    t := new Train(orig.id, orig.number, orig.kind, s.arrival, Some(s.departure), Some(s.segmentId),
                   orig.status, orig.actualArrival, orig.actualDeparture, Some(orig.priorityScore));
    var delayMinutes := s.arrival - orig.scheduledArrival;
    if delayMinutes > 0 {
      t.SetDelay(delayMinutes);
    }
  }

  /** What ends up in `optimized_trains` for a train: the original, unchanged, when held, else a
    * rescheduled copy. */
  function Outcome(orig: TrainValue, s: Option<Slot>): TrainValue
  {
    match s
    case None => orig
    case Some(slot) => Rescheduled(orig, slot)
  }

  /** The outcome of each train, in processing order, given its slot. */
  function Outcomes(before: seq<TrainValue>, slots: seq<Option<Slot>>): (after: seq<TrainValue>)
    requires |slots| == |before|
    ensures |after| == |before|
  {
    if before == [] then []
    else Outcomes(before[..|before| - 1], slots[..|before| - 1]) + [Outcome(before[|before| - 1], slots[|before| - 1])]
  }

  /** The `k`-th outcome is that of the `k`-th train and its slot. */
  lemma {:induction false} OutcomesAt(before: seq<TrainValue>, slots: seq<Option<Slot>>, k: int)
    requires |slots| == |before| && 0 <= k < |before|
    ensures Outcomes(before, slots)[k] == Outcome(before[k], slots[k])
  {
    if k < |before| - 1 {
      OutcomesAt(before[..|before| - 1], slots[..|before| - 1], k);
    }
  }

  /** The relative drop from `o` delayed trains to `p`, in percent, never negative; 0 when `o` is 0. */
  function Improvement(o: nat, p: nat): (r: real)
    ensures 0.0 <= r <= 100.0
    ensures o == 0 || p >= o ==> r == 0.0
    ensures o > 0 && p == 0 ==> r == 100.0
    ensures 0 < p < o ==> 0.0 < r < 100.0
    ensures p < o ==> r * o as real == (o - p) as real * 100.0
  {
    if o == 0 then 0.0
    else
      var ratio := (o - p) as real / o as real;
      assert ratio * o as real == (o - p) as real;
      assert ratio <= 1.0;
      var improvement := ratio * 100.0;
      if improvement > 0.0 then improvement else 0.0
  }

  /**
   * `_calculate_throughput_improvement`: the relative drop in the number of delayed trains, in
   * percent and never negative; 0 when no input train was delayed.
   */
  function ThroughputImprovement(original: seq<TrainValue>, optimized: seq<TrainValue>): (r: real)
    ensures 0.0 <= r <= 100.0
    ensures DelayedCount(original) == 0 ==> r == 0.0
    ensures DelayedCount(optimized) >= DelayedCount(original) ==> r == 0.0
    ensures DelayedCount(original) > 0 && DelayedCount(optimized) == 0 ==> r == 100.0
    ensures r == Improvement(DelayedCount(original), DelayedCount(optimized))
  {
    Improvement(DelayedCount(original), DelayedCount(optimized))
  }

  /**
   * One pass of `optimize_schedule`'s loop for `train`: its slot against the reservations made so
   * far, what goes into `optimized_trains` (the train itself when it is held), its recommendation
   * and the minutes it adds to the total delay.
   */
  method ScheduleTrain(section: Section, train: Train, reservations: map<string, seq<Reservation>>)
    returns (slot: Option<Slot>, optimized: TrainValue, rec: Recommendation, delay: int)
    requires section.minHeadway > 0
    ensures slot == OptimalSlot(section, section.AvailableSegments(), RequestOf(ValueOf(train)), reservations)
    ensures optimized == Outcome(ValueOf(train), slot)
    ensures rec == Recommend(RequestOf(ValueOf(train)), slot)
    ensures delay == DelayOf(RequestOf(ValueOf(train)), slot)
  {
    slot := FindOptimalSlot(section, train, reservations);
    match slot {
      case Some(s) =>
        optimized := Rescheduled(ValueOf(train), s);
        var d := s.arrival - train.scheduledArrival;
        if d > 0 {
          delay := d;
          rec := Delay(train.id, d, s.arrival, s.segmentId);
        } else {
          delay := 0;
          rec := Proceed(train.id, Some(s.segmentId));
        }
      case None =>
        optimized := ValueOf(train);
        rec := Hold(train.id, HoldMinutes);
        delay := HoldMinutes;
    }
  }

  /** What `optimize_schedule` accumulates over the trains, with the slot each one was given. */
  datatype PassState = PassState(slots: seq<Option<Slot>>, reservations: map<string, seq<Reservation>>,
                                 recommendations: seq<Recommendation>, optimized: seq<TrainValue>,
                                 totalDelay: int)

  /** The loop of `optimize_schedule` on values, over the trains in processing order. */
  function Pass(section: Section, available: seq<TrackSegment>, before: seq<TrainValue>): (p: PassState)
    requires section.minHeadway > 0
    ensures |p.slots| == |p.recommendations| == |p.optimized| == |before|
  {
    if before == [] then PassState([], map[], [], [], 0)
    else
      var prev := Pass(section, available, before[..|before| - 1]);
      var v := before[|before| - 1];
      var r := RequestOf(v);
      var slot := OptimalSlot(section, available, r, prev.reservations);
      PassState(prev.slots + [slot],
                if slot.Some? then Reserve(prev.reservations, slot.value, r.id) else prev.reservations,
                prev.recommendations + [Recommend(r, slot)], prev.optimized + [Outcome(v, slot)],
                prev.totalDelay + DelayOf(r, slot))
  }

  /**
   * The loop on values is the greedy plan over what it reads of the trains, and each train's
   * recommendation, outcome and delay follow from its own slot.
   */
  lemma {:induction false} PassFollowsPlan(section: Section, available: seq<TrackSegment>, before: seq<TrainValue>)
    requires section.minHeadway > 0
    ensures var p := Pass(section, available, before);
      var rs := RequestsOf(before);
      Planned(section, available, rs) == Plan(p.slots, p.reservations) &&
      p.recommendations == Recommendations(rs, p.slots) &&
      p.optimized == Outcomes(before, p.slots) &&
      p.totalDelay == TotalDelay(rs, p.slots)
  {
    if before != [] {
      var n := |before| - 1;
      var p := Pass(section, available, before);
      var prev := Pass(section, available, before[..n]);
      var rs := RequestsOf(before);
      PassFollowsPlan(section, available, before[..n]);
      assert RequestsOf(before[..n]) == rs[..n];
      assert p.slots[..n] == prev.slots;
    }
  }

  /**
   * Train by train: the `k`-th train in processing order gets the recommendation and the outcome
   * its own slot calls for.
   */
  lemma PassPerTrain(section: Section, available: seq<TrackSegment>, before: seq<TrainValue>, k: int)
    requires section.minHeadway > 0 && 0 <= k < |before|
    ensures var p := Pass(section, available, before);
      p.recommendations[k] == Recommend(RequestOf(before[k]), p.slots[k]) &&
      p.optimized[k] == Outcome(before[k], p.slots[k])
  {
    var p := Pass(section, available, before);
    PassFollowsPlan(section, available, before);
    RecommendationsAt(RequestsOf(before), p.slots, k);
    OutcomesAt(before, p.slots, k);
  }

  /** One more train extends the pass by that train's slot, reservation, recommendation, outcome
    * and delay. */
  lemma PassStep(section: Section, available: seq<TrackSegment>, before: seq<TrainValue>, i: nat)
    requires section.minHeadway > 0 && i < |before|
    ensures var prev := Pass(section, available, before[..i]);
      var r := RequestOf(before[i]);
      var slot := OptimalSlot(section, available, r, prev.reservations);
      Pass(section, available, before[..i + 1]) ==
        PassState(prev.slots + [slot],
                  if slot.Some? then Reserve(prev.reservations, slot.value, r.id) else prev.reservations,
                  prev.recommendations + [Recommend(r, slot)], prev.optimized + [Outcome(before[i], slot)],
                  prev.totalDelay + DelayOf(r, slot))
  {
    assert before[..i + 1][..i] == before[..i];
  }

  /**
   * The loop of `optimize_schedule` over the trains already in processing order: each gets its
   * slot against the reservations made so far.
   */
  method SchedulePass(section: Section, sorted: seq<Train>)
    returns (optimizedTrains: seq<TrainValue>, recommendations: seq<Recommendation>, totalDelay: int,
             ghost slots: seq<Option<Slot>>)
    requires section.minHeadway > 0
    ensures var p := Pass(section, old(section.AvailableSegments()), old(ValuesOf(sorted)));
      slots == p.slots && recommendations == p.recommendations && totalDelay == p.totalDelay &&
      optimizedTrains == p.optimized
  {
    ghost var available := section.AvailableSegments();
    ghost var before := ValuesOf(sorted);
    optimizedTrains := [];
    recommendations := [];
    totalDelay := 0;
    var reservations: map<string, seq<Reservation>> := map[];
    slots := [];
    for i := 0 to |sorted|
      invariant section.AvailableSegments() == available
      invariant Pass(section, available, before[..i]) ==
                PassState(slots, reservations, recommendations, optimizedTrains, totalDelay)
    {
      var train := sorted[i];
      assert ValueOf(train) == before[i];
      var newSchedule, optimizedTrain, rec, delay := ScheduleTrain(section, train, reservations);
      if newSchedule.Some? {
        reservations := Reserve(reservations, newSchedule.value, train.id);
      }
      PassStep(section, available, before, i);
      optimizedTrains := optimizedTrains + [optimizedTrain];
      recommendations := recommendations + [rec];
      totalDelay := totalDelay + delay;
      slots := slots + [newSchedule];
    }
    assert before[..|sorted|] == before;
  }

  /**
   * What `optimize_schedule` returns: the trains in descending priority (ties in input order) are
   * given the greedy plan's slots; the result lists each train's outcome and recommendation in that
   * order, the total delay, and the throughput improvement over the input trains.
   */
  function ScheduleOf(section: Section, trains: seq<Train>): ScheduleResult
    requires section.minHeadway > 0
    reads trains, section.segments
  {
    SortByDrawsFromInput(trains, PriorityKey);
    ResultFor(section, section.AvailableSegments(), ValuesOf(SortBy(trains, PriorityKey)), ValuesOf(trains))
  }

  /** The result for the trains `before` in processing order, given the `original` input trains. */
  function ResultFor(section: Section, available: seq<TrackSegment>, before: seq<TrainValue>,
                     original: seq<TrainValue>): ScheduleResult
    requires section.minHeadway > 0
  {
    var rs := RequestsOf(before);
    var plan := Planned(section, available, rs);
    var after := Outcomes(before, plan.slots);
    ScheduleResult(after, Recommendations(rs, plan.slots), TotalDelay(rs, plan.slots),
                   ThroughputImprovement(original, after))
  }

  /**
   * `optimize_schedule`: one slot search per train, in processing order, against the reservations
   * made so far. The `conflicts` argument is not used.
   */
  method OptimizeSchedule(section: Section, trains: seq<Train>, conflicts: seq<Conflict>) returns (result: ScheduleResult)
    requires section.minHeadway > 0
    ensures result == old(ScheduleOf(section, trains))
    ensures |result.optimizedTrains| == |result.recommendations| == |trains|
  {
    var original := ValuesOf(trains);
    var sorted := SortBy(trains, PriorityKey);
    assert |sorted| == |trains| by {
      SortByPermutes(trains, PriorityKey);
    }
    var optimizedTrains, recommendations, totalDelay, slots := SchedulePass(section, sorted);
    PassFollowsPlan(section, old(section.AvailableSegments()), old(ValuesOf(sorted)));
    var throughput := ThroughputImprovement(original, optimizedTrains);
    result := ScheduleResult(optimizedTrains, recommendations, totalDelay, throughput);
  }

  // ---------------------------------------------------------------------------------------------
  // Properties of the greedy pass

  /** Trains are processed in descending priority score, ties in input order, each exactly once. */
  lemma ProcessingOrder(trains: seq<Train>)
    ensures var sorted := SortBy(trains, PriorityKey);
      multiset(sorted) == multiset(trains) &&
      (forall i, j :: 0 <= i < j < |sorted| ==> sorted[i].priorityScore >= sorted[j].priorityScore) &&
      (forall k :: WithKey(sorted, PriorityKey, k) == WithKey(trains, PriorityKey, k))
  {
    var sorted := SortBy(trains, PriorityKey);
    SortByPermutes(trains, PriorityKey);
    forall i, j | 0 <= i < j < |sorted| ensures sorted[i].priorityScore >= sorted[j].priorityScore {
      assert PriorityKey(sorted[i]) <= PriorityKey(sorted[j]);
    }
    forall k ensures WithKey(sorted, PriorityKey, k) == WithKey(trains, PriorityKey, k) {
      SortByStable(trains, PriorityKey, k);
    }
  }

  /** Two reservations keep the headway between them (the test is symmetric). */
  predicate Separated(a: Reservation, b: Reservation, h: int)
  {
    Clear(a.start, a.end, h, b)
  }

  /** Any two reservations listed on the same segment keep the headway `h` between them. */
  ghost predicate AllSeparated(table: map<string, seq<Reservation>>, h: int)
  {
    forall sid, i, j :: sid in table && 0 <= i < j < |table[sid]| ==> Separated(table[sid][i], table[sid][j], h)
  }

  /**
   * Invariant of the reservation table: any two reservations on the same segment keep the
   * section's minimum headway between them.
   */
  lemma {:induction false} ReservationsSeparated(section: Section, available: seq<TrackSegment>, rs: seq<Request>)
    requires section.minHeadway > 0
    ensures AllSeparated(Planned(section, available, rs).table, section.minHeadway)
  {
    if rs != [] {
      var h := section.minHeadway;
      var prev := Planned(section, available, rs[..|rs| - 1]);
      var r := rs[|rs| - 1];
      var slot := OptimalSlot(section, available, r, prev.table);
      ReservationsSeparated(section, available, rs[..|rs| - 1]);
      if slot.Some? {
        var s := slot.value;
        SlotIsSound(section, available, r, prev.table);
        var before := Existing(prev.table, s.segmentId);
        assert SlotIsAvailable(s.arrival, s.departure, h, before);
        var x := Reservation(s.arrival, s.departure, r.id);
        var table := Reserve(prev.table, s, r.id);
        assert Planned(section, available, rs).table == table;
        forall sid, i, j | sid in table && 0 <= i < j < |table[sid]|
          ensures Separated(table[sid][i], table[sid][j], h)
        {
          if sid != s.segmentId {
            assert table[sid] == prev.table[sid];
          } else if j < |before| {
            assert sid in prev.table && table[sid][i] == before[i] && table[sid][j] == before[j];
          } else {
            assert table[sid][i] == before[i] && table[sid][j] == x;
            assert Clear(s.arrival, s.departure, h, before[i]);
          }
        }
      } else {
        assert Planned(section, available, rs).table == prev.table;
      }
    }
  }

  /** Reservation `x` on segment `sid` is the slot proposed to one of the requests, under its id. */
  ghost predicate ProposedTo(rs: seq<Request>, slots: seq<Option<Slot>>, sid: string, x: Reservation)
    requires |slots| == |rs|
  {
    exists i :: 0 <= i < |rs| && slots[i] == Some(Slot(sid, x.start, x.end)) && rs[i].id == x.trainId
  }

  /** Every reservation in the table is the proposed slot of a train, recorded under its id. */
  lemma {:induction false} ReservationsAreProposedSlots(section: Section, available: seq<TrackSegment>, rs: seq<Request>)
    requires section.minHeadway > 0
    ensures var p := Planned(section, available, rs);
      forall sid, k :: sid in p.table && 0 <= k < |p.table[sid]| ==> ProposedTo(rs, p.slots, sid, p.table[sid][k])
  {
    if rs != [] {
      var n := |rs| - 1;
      var prev := Planned(section, available, rs[..n]);
      var p := Planned(section, available, rs);
      ReservationsAreProposedSlots(section, available, rs[..n]);
      assert var q := Planned(section, available, rs[..n]);
        forall sid, k :: sid in q.table && 0 <= k < |q.table[sid]| ==> ProposedTo(rs[..n], q.slots, sid, q.table[sid][k]);
      assert forall sid, k :: sid in prev.table && 0 <= k < |prev.table[sid]| ==>
        ProposedTo(rs[..n], prev.slots, sid, prev.table[sid][k]);
      assert p.slots[..n] == prev.slots;
      forall sid, k | sid in p.table && 0 <= k < |p.table[sid]|
        ensures ProposedTo(rs, p.slots, sid, p.table[sid][k])
      {
        if p.slots[n].Some? && sid == p.slots[n].value.segmentId && k == |Existing(prev.table, sid)| {
          assert p.table[sid][k] == Reservation(p.slots[n].value.arrival, p.slots[n].value.departure, rs[n].id);
          assert p.slots[n] == Some(Slot(sid, p.table[sid][k].start, p.table[sid][k].end));
        } else {
          var x := prev.table[sid][k];
          assert sid in prev.table && k < |prev.table[sid]| && p.table[sid][k] == x;
          assert ProposedTo(rs[..n], prev.slots, sid, x);
          var i :| 0 <= i < n && prev.slots[i] == Some(Slot(sid, x.start, x.end)) && rs[..n][i].id == x.trainId;
          assert p.slots[i] == prev.slots[i];
        }
      }
    }
  }

  /** Every proposed slot is recorded on its segment under the train's id; a held train reserves
    * nothing. */
  lemma {:induction false} ProposedSlotsAreReserved(section: Section, available: seq<TrackSegment>, rs: seq<Request>)
    requires section.minHeadway > 0
    ensures var p := Planned(section, available, rs);
      forall i :: 0 <= i < |rs| && p.slots[i].Some? ==>
        Reservation(p.slots[i].value.arrival, p.slots[i].value.departure, rs[i].id) in Existing(p.table, p.slots[i].value.segmentId)
  {
    if rs != [] {
      var n := |rs| - 1;
      var prev := Planned(section, available, rs[..n]);
      var p := Planned(section, available, rs);
      ProposedSlotsAreReserved(section, available, rs[..n]);
      assert p.slots[..n] == prev.slots;
      forall i | 0 <= i < |rs| && p.slots[i].Some?
        ensures Reservation(p.slots[i].value.arrival, p.slots[i].value.departure, rs[i].id) in Existing(p.table, p.slots[i].value.segmentId)
      {
        if i < n {
          assert p.slots[i] == prev.slots[i] && rs[..n][i] == rs[i];
          var sid := p.slots[i].value.segmentId;
          assert Existing(prev.table, sid) <= Existing(p.table, sid);
        }
      }
    }
  }

  /** The minutes one train adds to the total delay lie in [0, 120). */
  lemma SlotDelayBounded(section: Section, available: seq<TrackSegment>, r: Request, table: map<string, seq<Reservation>>)
    requires section.minHeadway > 0
    ensures 0 <= DelayOf(r, OptimalSlot(section, available, r, table)) < SearchWindow
  {
    SlotIsSound(section, available, r, table);
  }

  /**
   * Each train's contribution to the total delay lies in [0, 120): a rescheduled train is never
   * moved earlier, and a held one counts 15. Hence the total is never negative and at most 119
   * minutes per train.
   */
  lemma {:induction false} DelayBounds(section: Section, available: seq<TrackSegment>, rs: seq<Request>)
    requires section.minHeadway > 0
    ensures var p := Planned(section, available, rs);
      forall i :: 0 <= i < |rs| ==> 0 <= DelayOf(rs[i], p.slots[i]) < SearchWindow
    ensures var p := Planned(section, available, rs);
      0 <= TotalDelay(rs, p.slots) <= (SearchWindow - 1) * |rs|
  {
    if rs != [] {
      var n := |rs| - 1;
      var prev := Planned(section, available, rs[..n]);
      var p := Planned(section, available, rs);
      DelayBounds(section, available, rs[..n]);
      assert p.slots[..n] == prev.slots;
      SlotDelayBounded(section, available, rs[n], prev.table);
      forall i | 0 <= i < |rs| ensures 0 <= DelayOf(rs[i], p.slots[i]) < SearchWindow {
        if i < n {
          assert p.slots[i] == prev.slots[i] && rs[..n][i] == rs[i];
        }
      }
    }
  }
}
