/** Properties of the snapshot transitions: what `merge`, `reset`, the chairlift state
    machine and the proximity detector promise, one call at a time and over runs of calls. */
module StatsProperties {
  import opened Wrappers
  import opened Extremity
  import opened TrackModel

  // ---------------------------------------------------------------------------------------
  // merge: times, distance, speed

  /** The merged window starts at the earlier start and stops at the later stop; an unset
      receiver takes the other's times. */
  lemma MergeTimeWindow(a: Snapshot, b: Snapshot)
    requires MergeDefined(a, b) && Consistent(a) && Consistent(b)
    ensures var r := Merged(a, b);
      (a.startTime.None? ==> r.startTime == b.startTime && r.stopTime == b.stopTime) &&
      (a.startTime.Some? ==>
        r.startTime.Some? && r.stopTime.Some? &&
        r.startTime.value <= a.startTime.value && r.startTime.value <= b.startTime.value &&
        (r.startTime.value == a.startTime.value || r.startTime.value == b.startTime.value) &&
        r.stopTime.value >= a.stopTime.value && r.stopTime.value >= b.stopTime.value &&
        (r.stopTime.value == a.stopTime.value || r.stopTime.value == b.stopTime.value))
  {
  }

  /** Distance and times add up; the maximum speed is the larger of the two. */
  lemma MergeSumsTotals(a: Snapshot, b: Snapshot)
    requires MergeDefined(a, b) && Consistent(a) && Consistent(b)
    ensures var r := Merged(a, b);
      r.totalDistance == a.totalDistance + b.totalDistance &&
      r.totalTime == a.totalTime + b.totalTime &&
      r.movingTime == a.movingTime + b.movingTime &&
      r.maxSpeed >= a.maxSpeed && r.maxSpeed >= b.maxSpeed &&
      (r.maxSpeed == a.maxSpeed || r.maxSpeed == b.maxSpeed)
  {
  }

  // ---------------------------------------------------------------------------------------
  // merge: altitude gain and loss

  /** The value of an optional total, unset counting as zero. */
  function ValueOrZero(x: Option<real>): real {
    if x.Some? then x.value else 0.0
  }

  /** An optional total combines as a sum in which unset counts as zero, and it is unset
      exactly when both sides are: a set value never becomes unset. */
  lemma MergedTotalIsSum(x: Option<real>, y: Option<real>)
    ensures MergedTotal(x, y).Some? <==> x.Some? || y.Some?
    ensures MergedTotal(x, y).Some? ==> MergedTotal(x, y).value == ValueOrZero(x) + ValueOrZero(y)
  {
  }

  /** The four cases for altitude gain and loss after a merge. */
  lemma MergeAltitudeGainLoss(a: Snapshot, b: Snapshot)
    requires MergeDefined(a, b) && Consistent(a) && Consistent(b)
    ensures var r := Merged(a, b);
      (a.totalAltitudeGain.None? && b.totalAltitudeGain.None? ==> r.totalAltitudeGain.None?) &&
      (a.totalAltitudeGain.None? ==> r.totalAltitudeGain == b.totalAltitudeGain) &&
      (b.totalAltitudeGain.None? ==> r.totalAltitudeGain == a.totalAltitudeGain) &&
      (a.totalAltitudeGain.Some? && b.totalAltitudeGain.Some? ==>
        r.totalAltitudeGain.Some? &&
        r.totalAltitudeGain.value == a.totalAltitudeGain.value + b.totalAltitudeGain.value) &&
      (a.totalAltitudeLoss.None? && b.totalAltitudeLoss.None? ==> r.totalAltitudeLoss.None?) &&
      (a.totalAltitudeLoss.None? ==> r.totalAltitudeLoss == b.totalAltitudeLoss) &&
      (b.totalAltitudeLoss.None? ==> r.totalAltitudeLoss == a.totalAltitudeLoss) &&
      (a.totalAltitudeLoss.Some? && b.totalAltitudeLoss.Some? ==>
        r.totalAltitudeLoss.Some? &&
        r.totalAltitudeLoss.value == a.totalAltitudeLoss.value + b.totalAltitudeLoss.value)
  {
  }

  // ---------------------------------------------------------------------------------------
  // merge: heart rate

  /** One measured side is taken as it is; two are averaged, weighted by the total times
      from before the merge. */
  lemma MergeHeartRateCases(a: Snapshot, b: Snapshot)
    requires MergeDefined(a, b) && Consistent(a) && Consistent(b)
    ensures var r := Merged(a, b);
      (a.avgHeartRate.None? ==> r.avgHeartRate == b.avgHeartRate) &&
      (b.avgHeartRate.None? ==> r.avgHeartRate == a.avgHeartRate) &&
      (a.avgHeartRate.Some? && b.avgHeartRate.Some? ==>
        r.avgHeartRate.Some? &&
        r.avgHeartRate.value * ((a.totalTime + b.totalTime) as real) ==
          (a.totalTime as real) * a.avgHeartRate.value + (b.totalTime as real) * b.avgHeartRate.value)
  {
  }

  /** With positive weights the merged heart rate lies between the two measured ones. */
  lemma {:induction false} MergedHeartRateBetween(ha: real, ta: Duration, hb: real, tb: Duration)
    requires ta > 0 && tb > 0
    ensures var r := MergedHeartRate(Some(ha), ta, Some(hb), tb);
      r.Some? &&
      (ha <= hb ==> ha <= r.value <= hb) &&
      (hb <= ha ==> hb <= r.value <= ha)
  {
    var r := MergedHeartRate(Some(ha), ta, Some(hb), tb);
    var wa, wb := ta as real, tb as real;
    var t := (ta + tb) as real;
    DivMul(wa * ha + wb * hb, t);
    if ha <= hb {
      WeightedBetween(wa, wb, ha, hb, r.value, t);
    } else {
      assert r.value * t == wb * hb + wa * ha;
      WeightedBetween(wb, wa, hb, ha, r.value, t);
    }
  }

  lemma DivMul(w: real, t: real)
    requires t != 0.0
    ensures (w / t) * t == w
  {
  }

  /** A weighted average of two values with positive weights lies between them. */
  lemma WeightedBetween(wa: real, wb: real, ha: real, hb: real, r: real, t: real)
    requires t == wa + wb
    requires wa > 0.0 && wb > 0.0 && ha <= hb
    requires r * t == wa * ha + wb * hb
    ensures ha <= r <= hb
  {
    MulMono(wa, ha, hb);
    MulMono(wb, ha, hb);
    assert wb * ha <= wb * hb;
    assert wa * ha <= wa * hb;
    assert ha * t == wa * ha + wb * ha;
    assert hb * t == wa * hb + wb * hb;
    assert ha * t <= r * t;
    assert r * t <= hb * t;
    ScaleBack(ha, r, t);
    ScaleBack(r, hb, t);
  }

  lemma MulMono(w: real, x: real, y: real)
    requires w >= 0.0 && x <= y
    ensures w * x <= w * y
  {
  }

  /** Dividing an inequality by a positive factor. */
  lemma ScaleBack(x: real, y: real, t: real)
    requires t > 0.0 && x * t <= y * t
    ensures x <= y
  {
  }

  /** 100 s at 120 bpm merged with 50 s at 150 bpm give 130 bpm over 150 s. */
  lemma MergeHeartRateExample()
    ensures var a := Empty.(totalTime := 100, avgHeartRate := Some(120.0));
            var b := Empty.(totalTime := 50, avgHeartRate := Some(150.0));
            Merged(a, b).avgHeartRate == Some(130.0) && Merged(a, b).totalTime == 150
  {
    var a := Empty.(totalTime := 100, avgHeartRate := Some(120.0));
    var b := Empty.(totalTime := 50, avgHeartRate := Some(150.0));
    assert Merged(a, b).avgHeartRate.value == 130.0;
  }

  /** The weighted average does not depend on how three measured windows are grouped. */
  lemma {:induction false} MergedHeartRateAssociative(ha: real, ta: Duration, hb: real, tb: Duration,
                                                       hc: real, tc: Duration)
    requires ta > 0 && tb > 0 && tc > 0
    ensures MergedHeartRate(MergedHeartRate(Some(ha), ta, Some(hb), tb), ta + tb, Some(hc), tc) ==
            MergedHeartRate(Some(ha), ta, MergedHeartRate(Some(hb), tb, Some(hc), tc), tb + tc)
  {
    var ab := MergedHeartRate(Some(ha), ta, Some(hb), tb);
    var bc := MergedHeartRate(Some(hb), tb, Some(hc), tc);
    var left := MergedHeartRate(ab, ta + tb, Some(hc), tc);
    var right := MergedHeartRate(Some(ha), ta, bc, tb + tc);
    var sum := (ta as real) * ha + (tb as real) * hb + (tc as real) * hc;
    var t := (ta + tb + tc) as real;
    assert ab.value * ((ta + tb) as real) == (ta as real) * ha + (tb as real) * hb;
    assert bc.value * ((tb + tc) as real) == (tb as real) * hb + (tc as real) * hc;
    assert left.value * t == sum;
    assert right.value * t == sum;
    assert left.value == right.value;
  }

  /** The time of a window without heart rate weighs the measured rate it is merged with, so
      the grouping of three windows matters once one of them has no heart rate. */
  lemma MergeHeartRateNotAssociative()
    ensures var a := Empty.(totalTime := 100);
            var b := Empty.(totalTime := 100, avgHeartRate := Some(100.0));
            var c := Empty.(totalTime := 100, avgHeartRate := Some(200.0));
            Merged(Merged(a, b), c).avgHeartRate != Merged(a, Merged(b, c)).avgHeartRate
  {
    var a := Empty.(totalTime := 100);
    var b := Empty.(totalTime := 100, avgHeartRate := Some(100.0));
    var c := Empty.(totalTime := 100, avgHeartRate := Some(200.0));
    assert Merged(b, c).avgHeartRate.value == 150.0;
    assert Merged(a, b).totalTime == 200;
    assert Merged(Merged(a, b), c).avgHeartRate.value * 300.0 == 40000.0;
  }

  // ---------------------------------------------------------------------------------------
  // merge: chairlift fields

  /** The lift duration is the sum of both sides (taking the other side when the receiver's
      is zero is the same number); the earlier of the two entry samples is kept. */
  lemma MergeChairlift(a: Snapshot, b: Snapshot)
    requires MergeDefined(a, b) && Consistent(a) && Consistent(b)
    ensures var r := Merged(a, b);
      r.chairliftDuration == a.chairliftDuration + b.chairliftDuration &&
      (r.chairliftStartPoint.Some? <==> a.chairliftStartPoint.Some? || b.chairliftStartPoint.Some?) &&
      (r.chairliftStartPoint.Some? ==>
        r.chairliftStartPoint == a.chairliftStartPoint || r.chairliftStartPoint == b.chairliftStartPoint) &&
      (a.chairliftStartPoint.Some? ==> r.chairliftStartPoint.value.time <= a.chairliftStartPoint.value.time) &&
      (b.chairliftStartPoint.Some? ==> r.chairliftStartPoint.value.time <= b.chairliftStartPoint.value.time)
  {
  }

  /** Merge keeps the aggregate consistent: in particular the merged window is in order. */
  lemma MergePreservesConsistency(a: Snapshot, b: Snapshot)
    requires MergeDefined(a, b) && Consistent(a) && Consistent(b)
    ensures Consistent(Merged(a, b))
  {
  }

  // ---------------------------------------------------------------------------------------
  // merge: order independence

  /** Swapping the two sides changes no total, bound, time window or heart rate. */
  lemma MergeCommutes(a: Snapshot, b: Snapshot)
    requires MergeDefined(a, b) && MergeDefined(b, a) && Consistent(a) && Consistent(b)
    ensures var ab := Merged(a, b);
            var ba := Merged(b, a);
      ab.startTime == ba.startTime && ab.stopTime == ba.stopTime &&
      ab.totalDistance == ba.totalDistance && ab.totalTime == ba.totalTime &&
      ab.movingTime == ba.movingTime && ab.maxSpeed == ba.maxSpeed &&
      ab.altitudeExtremities == ba.altitudeExtremities &&
      ab.totalAltitudeGain == ba.totalAltitudeGain && ab.totalAltitudeLoss == ba.totalAltitudeLoss &&
      ab.chairliftDuration == ba.chairliftDuration &&
      ab.avgHeartRate == ba.avgHeartRate
  {
    if a.avgHeartRate.Some? && b.avgHeartRate.Some? {
      assert Merged(a, b).avgHeartRate.value == Merged(b, a).avgHeartRate.value;
    }
  }

  /** Grouping three windows either way gives the same aggregate, except for the heart rate
      (see `MergeHeartRateNotAssociative`). Ties between entry samples keep the leftmost,
      whichever way they are grouped. */
  lemma MergeAssociates(a: Snapshot, b: Snapshot, c: Snapshot)
    requires Consistent(a) && Consistent(b) && Consistent(c)
    requires MergeDefined(a, b) && MergeDefined(b, c)
    requires MergeDefined(Merged(a, b), c) && MergeDefined(a, Merged(b, c))
    ensures var left := Merged(Merged(a, b), c);
            var right := Merged(a, Merged(b, c));
      left.startTime == right.startTime && left.stopTime == right.stopTime &&
      left.totalDistance == right.totalDistance && left.totalTime == right.totalTime &&
      left.movingTime == right.movingTime && left.maxSpeed == right.maxSpeed &&
      left.altitudeExtremities == right.altitudeExtremities &&
      left.totalAltitudeGain == right.totalAltitudeGain &&
      left.totalAltitudeLoss == right.totalAltitudeLoss &&
      left.chairliftDuration == right.chairliftDuration &&
      left.chairliftStartPoint == right.chairliftStartPoint
    ensures Merged(Merged(a, b), c).(avgHeartRate := None) == Merged(a, Merged(b, c)).(avgHeartRate := None)
  {
    MergePreservesConsistency(a, b);
    MergePreservesConsistency(b, c);
    UnionAssociative(a.altitudeExtremities, b.altitudeExtremities, c.altitudeExtremities);
    MergedTotalAssociative(a.totalAltitudeGain, b.totalAltitudeGain, c.totalAltitudeGain);
    MergedTotalAssociative(a.totalAltitudeLoss, b.totalAltitudeLoss, c.totalAltitudeLoss);
  }

  lemma MergedTotalAssociative(x: Option<real>, y: Option<real>, z: Option<real>)
    ensures MergedTotal(MergedTotal(x, y), z) == MergedTotal(x, MergedTotal(y, z))
  {
    if x.Some? && y.Some? && z.Some? {
      assert MergedTotal(MergedTotal(x, y), z).value == MergedTotal(x, MergedTotal(y, z)).value;
    }
  }

  // ---------------------------------------------------------------------------------------
  // altitude extremities

  /** Merging extremity monitors does not depend on the order of the sides. */
  lemma UnionCommutative(m: ExtremityMonitor, n: ExtremityMonitor)
    requires m.Valid() && n.Valid()
    ensures m.Union(n) == n.Union(m)
  {
  }

  /** ... nor on their grouping. */
  lemma UnionAssociative(m: ExtremityMonitor, n: ExtremityMonitor, k: ExtremityMonitor)
    requires m.Valid() && n.Valid() && k.Valid()
    ensures m.Union(n).Union(k) == m.Union(n.Union(k))
  {
  }

  /** Recording one altitude is merging with a monitor that saw only that altitude. */
  lemma UpdateIsUnionWithPoint(m: ExtremityMonitor, x: real)
    requires m.Valid()
    ensures m.Update(x) == m.Union(Range(x, x))
  {
  }

  // ---------------------------------------------------------------------------------------
  // reset and copy

  /** Resetting twice is resetting once; the fresh aggregate is already reset. */
  lemma ResetIdempotent(s: Snapshot)
    ensures AfterReset(AfterReset(s)) == AfterReset(s)
    ensures AfterReset(Empty) == Empty
  {
  }

  /** Reset keeps heart rate, altitude bounds, wait time and the proximity detector, and
      leaves a consistent aggregate consistent. */
  lemma ResetKeeps(s: Snapshot)
    requires Consistent(s)
    ensures var r := AfterReset(s);
      Consistent(r) && !r.inChairlift && r.startTime.None? && r.totalTime == 0 &&
      r.avgHeartRate == s.avgHeartRate && r.altitudeExtremities == s.altitudeExtremities &&
      r.totalWaitTime == s.totalWaitTime && r.chairliftArrivalTime == s.chairliftArrivalTime &&
      r.activityStartTime == s.activityStartTime && r.lastElevation == s.lastElevation
  {
  }

  /** A copy agrees on every statistic and starts the proximity detector afresh. */
  lemma CopyForgetsWaitDetector(s: Snapshot)
    requires Consistent(s)
    ensures var c := Copied(s);
      Consistent(c) &&
      c.totalWaitTime == 0 && c.chairliftArrivalTime.None? && c.activityStartTime.None? &&
      c.lastElevation.None? &&
      AfterReset(c) == Copied(AfterReset(s)) &&
      c.(chairliftArrivalTime := s.chairliftArrivalTime, activityStartTime := s.activityStartTime,
         lastElevation := s.lastElevation, totalWaitTime := s.totalWaitTime) == s
  {
  }

  // ---------------------------------------------------------------------------------------
  // speed / altitude chairlift state machine, one sample

  /** The entry, exit and riding rules of `updateChairliftTime`; only the three lift fields
      ever change. */
  lemma ChairliftStep(s: Snapshot, p: TrackPoint)
    requires s.inChairlift ==> s.chairliftStartPoint.Some?
    ensures var r := AfterChairliftSample(s, p);
      r == s.(inChairlift := r.inChairlift, chairliftStartPoint := r.chairliftStartPoint,
              chairliftDuration := r.chairliftDuration) &&
      (!s.inChairlift ==> (r.inChairlift <==> EntersChairlift(p))) &&
      (!s.inChairlift && EntersChairlift(p) ==>
        r.chairliftStartPoint == Some(p) && r.chairliftDuration == s.chairliftDuration) &&
      (!s.inChairlift && !EntersChairlift(p) ==> r == s) &&
      (s.inChairlift ==> (!r.inChairlift <==> LeavesChairlift(p))) &&
      (s.inChairlift && LeavesChairlift(p) ==> r == s.(inChairlift := false)) &&
      (s.inChairlift && !LeavesChairlift(p) ==>
        r.chairliftStartPoint == s.chairliftStartPoint &&
        r.chairliftDuration == s.chairliftDuration + (p.time - s.chairliftStartPoint.value.time))
  {
  }

  /** The invalid speed readings: none enters the lift; NaN and +Infinity leave it, while
      -Infinity compares as at most 2 m/s and stays on unless the loss exceeds 10 m. */
  lemma InvalidSpeedReadings(p: TrackPoint)
    requires p.speed.Some? && p.speed.value.IsInvalid()
    ensures !EntersChairlift(p)
    ensures p.speed.value != NegativeInfinity ==> LeavesChairlift(p)
    ensures p.speed.value == NegativeInfinity ==> (LeavesChairlift(p) <==> LossOrZero(p) > AltitudeLossThreshold)
  {
  }

  // ---------------------------------------------------------------------------------------
  // speed / altitude chairlift state machine, runs of samples

  /** `updateChairliftTime` applied to each sample in turn. Only the three lift fields change. */
  function ChairliftRun(s: Snapshot, ps: seq<TrackPoint>): (r: Snapshot)
    requires s.inChairlift ==> s.chairliftStartPoint.Some?
    ensures r.inChairlift ==> r.chairliftStartPoint.Some?
    ensures r == s.(inChairlift := r.inChairlift, chairliftStartPoint := r.chairliftStartPoint,
                    chairliftDuration := r.chairliftDuration)
    decreases |ps|
  {
    if ps == [] then s else ChairliftRun(AfterChairliftSample(s, ps[0]), ps[1..])
  }

  /** Samples in time order, none before the entry sample of a lift being ridden. */
  predicate Chronological(s: Snapshot, ps: seq<TrackPoint>) {
    (forall i, j :: 0 <= i < j < |ps| ==> ps[i].time <= ps[j].time) &&
    (s.inChairlift && s.chairliftStartPoint.Some? ==>
       forall i :: 0 <= i < |ps| ==> s.chairliftStartPoint.value.time <= ps[i].time)
  }

  /** Over samples in time order the lift duration never decreases. */
  lemma {:induction false} ChairliftDurationMonotone(s: Snapshot, ps: seq<TrackPoint>)
    requires s.inChairlift ==> s.chairliftStartPoint.Some?
    requires Chronological(s, ps)
    ensures ChairliftRun(s, ps).chairliftDuration >= s.chairliftDuration
    decreases |ps|
  {
    if ps != [] {
      var s1 := AfterChairliftSample(s, ps[0]);
      ChairliftStep(s, ps[0]);
      assert s1.chairliftDuration >= s.chairliftDuration;
      assert Chronological(s1, ps[1..]) by {
        if s1.inChairlift {
          assert s1.chairliftStartPoint == s.chairliftStartPoint || s1.chairliftStartPoint == Some(ps[0]);
          forall i | 0 <= i < |ps[1..]|
            ensures s1.chairliftStartPoint.value.time <= ps[1..][i].time
          {
            assert ps[1..][i] == ps[i + 1];
          }
        }
      }
      ChairliftDurationMonotone(s1, ps[1..]);
    }
  }

  /** Off the lift, nothing changes until a sample satisfies the entry condition. */
  lemma {:induction false} NoEntryNoChange(s: Snapshot, ps: seq<TrackPoint>)
    requires !s.inChairlift
    requires forall i :: 0 <= i < |ps| ==> !EntersChairlift(ps[i])
    ensures ChairliftRun(s, ps) == s
    decreases |ps|
  {
    if ps != [] {
      ChairliftStep(s, ps[0]);
      assert AfterChairliftSample(s, ps[0]) == s;
      assert forall i :: 0 <= i < |ps[1..]| ==> ps[1..][i] == ps[i + 1];
      NoEntryNoChange(s, ps[1..]);
    }
  }

  /** The sum over the samples of the time elapsed since `t0`. */
  function ElapsedSum(ps: seq<TrackPoint>, t0: Instant): int
    decreases |ps|
  {
    if ps == [] then 0 else (ps[0].time - t0) + ElapsedSum(ps[1..], t0)
  }

  /** On the lift, every sample that does not leave it adds the whole time since the entry
      sample: the duration grows by the sum of those elapsed times, not by the ride time. */
  lemma {:induction false} RidingAddsElapsedSinceEntry(s: Snapshot, ps: seq<TrackPoint>)
    requires s.inChairlift && s.chairliftStartPoint.Some?
    requires forall i :: 0 <= i < |ps| ==> !LeavesChairlift(ps[i])
    ensures var r := ChairliftRun(s, ps);
      r.inChairlift && r.chairliftStartPoint == s.chairliftStartPoint &&
      r.chairliftDuration == s.chairliftDuration + ElapsedSum(ps, s.chairliftStartPoint.value.time)
    decreases |ps|
  {
    if ps != [] {
      var s1 := AfterChairliftSample(s, ps[0]);
      ChairliftStep(s, ps[0]);
      assert forall i :: 0 <= i < |ps[1..]| ==> ps[1..][i] == ps[i + 1];
      RidingAddsElapsedSinceEntry(s1, ps[1..]);
    }
  }

  function Sample(time: Instant, speed: real, gain: real): TrackPoint {
    TrackPoint(time, Some(Finite(speed)), Some(gain), Some(0.0))
  }

  /** Samples at 0, 5 and 20 s: a slow climb of 10 m enters the lift, the next slow sample
      adds the 5 s since entry, and a fast sample leaves it without adding time. */
  lemma ChairliftRideExample()
    ensures var r := ChairliftRun(Empty, [Sample(0, 1.0, 10.0), Sample(5, 0.5, 0.0), Sample(20, 3.0, 0.0)]);
      !r.inChairlift && r.chairliftDuration == 5 && r.chairliftStartPoint == Some(Sample(0, 1.0, 10.0))
  {
    var ps := [Sample(0, 1.0, 10.0), Sample(5, 0.5, 0.0), Sample(20, 3.0, 0.0)];
    var s1 := AfterChairliftSample(Empty, ps[0]);
    var s2 := AfterChairliftSample(s1, ps[1]);
    var s3 := AfterChairliftSample(s2, ps[2]);
    assert ps[1..][1..][1..] == [];
    assert ChairliftRun(Empty, ps) == s3;
  }

  /** A 35 m climb at 3 m/s is too fast to be a lift: no entry. */
  lemma NoEntryWhenTooFast()
    ensures ChairliftRun(Empty, [Sample(0, 1.0, 0.0), Sample(5, 0.5, 0.0), Sample(20, 3.0, 35.0)]) == Empty
  {
    var ps := [Sample(0, 1.0, 0.0), Sample(5, 0.5, 0.0), Sample(20, 3.0, 35.0)];
    NoEntryNoChange(Empty, ps);
  }

  // ---------------------------------------------------------------------------------------
  // proximity wait-time detector, one update

  /** The rules of `updateChairliftLocation`. */
  lemma LocationStep(s: Snapshot, nearLift: bool, elevation: real, time: Instant)
    requires s.activityStartTime.Some? ==> s.lastElevation.Some?
    ensures var r := AfterLocationUpdate(s, nearLift, elevation, time);
      (s.activityStartTime.None? ==> r == s.(lastElevation := Some(elevation))) &&
      (s.activityStartTime.Some? && nearLift ==>
        r == s.(chairliftArrivalTime := r.chairliftArrivalTime, lastElevation := Some(elevation)) &&
        r.chairliftArrivalTime.Some? &&
        (s.chairliftArrivalTime.Some? ==> r.chairliftArrivalTime == s.chairliftArrivalTime) &&
        (s.chairliftArrivalTime.None? ==> r.chairliftArrivalTime == Some(time))) &&
      (s.activityStartTime.Some? && !nearLift ==>
        r.chairliftArrivalTime.None? &&
        (s.chairliftArrivalTime.Some? ==>
          r.totalWaitTime == s.totalWaitTime + (time - s.chairliftArrivalTime.value)) &&
        (s.chairliftArrivalTime.None? ==> r.totalWaitTime == s.totalWaitTime) &&
        (r.activityStartTime.None? <==> EndOfRun(s.lastElevation, s.activityStartTime, elevation, time)) &&
        r == s.(chairliftArrivalTime := None, totalWaitTime := r.totalWaitTime,
                activityStartTime := r.activityStartTime, lastElevation := Some(elevation)))
  {
  }

  /** A climb of more than 10 m within 100 s of the activity start ends the run; a climb of
      at most 10 m never does. */
  lemma EndOfRunFastClimb(last: real, start: Instant, elevation: real, time: Instant)
    requires start <= time <= start + 100
    ensures elevation - last > ElevationThreshold ==> EndOfRun(Some(last), Some(start), elevation, time)
    ensures elevation - last <= ElevationThreshold ==> !EndOfRun(Some(last), Some(start), elevation, time)
  {
    if elevation - last > ElevationThreshold {
      assert SpeedThreshold * ((time - start) as real) <= 10.0;
    }
  }

  // ---------------------------------------------------------------------------------------
  // proximity wait-time detector, runs of updates

  datatype LocationUpdate = LocationUpdate(nearLift: bool, elevation: real, time: Instant)

  /** `updateChairliftLocation` applied to each update in turn. The last elevation is that
      of the last update. */
  function LocationRun(s: Snapshot, us: seq<LocationUpdate>): (r: Snapshot)
    requires s.activityStartTime.Some? ==> s.lastElevation.Some?
    ensures r.activityStartTime.Some? ==> r.lastElevation.Some?
    ensures us != [] ==> r.lastElevation == Some(us[|us| - 1].elevation)
    ensures us == [] ==> r == s
    decreases |us|
  {
    if us == [] then s
    else LocationRun(AfterLocationUpdate(s, us[0].nearLift, us[0].elevation, us[0].time), us[1..])
  }

  /** Updates in time order, none before a recorded arrival. */
  predicate InTimeOrder(s: Snapshot, us: seq<LocationUpdate>) {
    (forall i, j :: 0 <= i < j < |us| ==> us[i].time <= us[j].time) &&
    (s.chairliftArrivalTime.Some? ==> forall i :: 0 <= i < |us| ==> s.chairliftArrivalTime.value <= us[i].time)
  }

  /** Over updates in time order the total wait time never decreases. */
  lemma {:induction false} WaitTimeMonotone(s: Snapshot, us: seq<LocationUpdate>)
    requires s.activityStartTime.Some? ==> s.lastElevation.Some?
    requires InTimeOrder(s, us)
    ensures LocationRun(s, us).totalWaitTime >= s.totalWaitTime
    decreases |us|
  {
    if us != [] {
      var s1 := AfterLocationUpdate(s, us[0].nearLift, us[0].elevation, us[0].time);
      LocationStep(s, us[0].nearLift, us[0].elevation, us[0].time);
      assert s1.totalWaitTime >= s.totalWaitTime;
      assert InTimeOrder(s1, us[1..]) by {
        if s1.chairliftArrivalTime.Some? {
          assert s1.chairliftArrivalTime == s.chairliftArrivalTime || s1.chairliftArrivalTime == Some(us[0].time);
          forall i | 0 <= i < |us[1..]|
            ensures s1.chairliftArrivalTime.value <= us[1..][i].time
          {
            assert us[1..][i] == us[i + 1];
          }
        }
      }
      WaitTimeMonotone(s1, us[1..]);
    }
  }

  /** Waiting at the lift from 10 s to 70 s, then leaving on a 5 m rise, counts 60 s of
      wait and keeps the activity running. */
  lemma WaitExample()
    ensures var s := AfterActivityStart(Empty, 0, 1000.0);
            var r := LocationRun(s, [LocationUpdate(true, 1000.0, 10), LocationUpdate(true, 1000.0, 40),
                                     LocationUpdate(false, 1005.0, 70)]);
      r.totalWaitTime == 60 && r.chairliftArrivalTime.None? && r.activityStartTime == Some(0)
  {
    var s := AfterActivityStart(Empty, 0, 1000.0);
    var us := [LocationUpdate(true, 1000.0, 10), LocationUpdate(true, 1000.0, 40),
               LocationUpdate(false, 1005.0, 70)];
    var s1 := AfterLocationUpdate(s, true, 1000.0, 10);
    var s2 := AfterLocationUpdate(s1, true, 1000.0, 40);
    var s3 := AfterLocationUpdate(s2, false, 1005.0, 70);
    assert us[1..][1..][1..] == [];
    assert LocationRun(s, us) == s3;
  }
}
