/** The value-level model of a track's statistics: the sample type, the thresholds, a
    snapshot of the aggregate's fields (all but the user's location), and the transition each
    compound operation applies to that snapshot. The class in module Statistics is specified
    by these functions. */
module TrackModel {
  import opened Wrappers
  import opened Extremity

  /** Instants and durations in whole seconds; Java's Instant and Duration are not bounded here. */
  type Instant = int
  type Duration = int

  /** Chairlift detection: at most this speed (m/s) while ascending. */
  const MaxSpeedThreshold: real := 2.0
  /** Chairlift detection: at least this gain (m) in one sample to enter. */
  const AltitudeGainThreshold: real := 10.0
  /** Chairlift detection: more than this loss (m) in one sample leaves the lift. */
  const AltitudeLossThreshold: real := 10.0
  /** End of a run: more than this rise (m) since the previous location update. */
  const ElevationThreshold: real := 10.0
  /** End of a run: at least this vertical speed (m/s) since the activity started. */
  const SpeedThreshold: real := 0.1

  /** A speed reading of a sample: a finite value in m/s, or one of the invalid double values. */
  datatype SpeedReading = Finite(mps: real) | NaN | PositiveInfinity | NegativeInfinity
  {
    /** `Speed.isInvalid()`: NaN or infinite. */
    predicate IsInvalid() {
      !Finite?
    }

    /** `MAX_SPEED_THRESHOLD.greaterOrEqualThan(this)`, the double comparison `2.0 >= v`: false
        for NaN and +Infinity, true for -Infinity. */
    predicate AtMostMaxSpeed() {
      (Finite? && mps <= MaxSpeedThreshold) || NegativeInfinity?
    }
  }

  /** The fields of a track point that the statistics read; absent values are `None`. */
  datatype TrackPoint = TrackPoint(
    time: Instant,
    speed: Option<SpeedReading>,
    altitudeGain: Option<real>,
    altitudeLoss: Option<real>)

  /** The fields of the aggregate, under the names the class uses, except `userCurrLocation`,
      which only the proximity test reads and which is abstracted away. */
  datatype Snapshot = Snapshot(
    altitudeExtremities: ExtremityMonitor,
    startTime: Option<Instant>,
    stopTime: Option<Instant>,
    totalDistance: real,
    totalTime: Duration,
    movingTime: Duration,
    maxSpeed: real,
    totalAltitudeGain: Option<real>,
    totalAltitudeLoss: Option<real>,
    chairliftDuration: Duration,
    inChairlift: bool,
    avgHeartRate: Option<real>,
    isIdle: bool,
    chairliftArrivalTime: Option<Instant>,
    activityStartTime: Option<Instant>,
    lastElevation: Option<real>,
    totalWaitTime: Duration,
    chairliftStartPoint: Option<TrackPoint>)

  /** The state of a freshly constructed aggregate: field initialisers, then `reset()`. */
  const Empty: Snapshot := Snapshot(NoData, None, None, 0.0, 0, 0, 0.0, None, None, 0, false,
                                    None, false, None, None, None, 0, None)

  /** What every operation keeps true of the aggregate:
      start and stop time are set together and in order, riding a lift has an entry sample,
      the altitude bounds do not cross, and a started activity has a last elevation. */
  ghost predicate Consistent(s: Snapshot) {
    (s.startTime.Some? <==> s.stopTime.Some?) &&
    (s.startTime.Some? && s.stopTime.Some? ==> s.startTime.value <= s.stopTime.value) &&
    (s.inChairlift ==> s.chairliftStartPoint.Some?) &&
    s.altitudeExtremities.Valid() &&
    (s.activityStartTime.Some? ==> s.lastElevation.Some?)
  }

  // ---------------------------------------------------------------------------------------
  // reset and copy

  /** `reset()`: clears times, distance, speed, gain/loss and the chairlift state machine;
      heart rate, altitude bounds, wait time and the proximity detector are left as they are. */
  function AfterReset(s: Snapshot): Snapshot {
    s.(startTime := None, stopTime := None, chairliftStartPoint := None, chairliftDuration := 0,
       inChairlift := false, totalDistance := 0.0, totalTime := 0, movingTime := 0,
       maxSpeed := 0.0, totalAltitudeGain := None, totalAltitudeLoss := None, isIdle := false)
  }

  /** The copy constructor: copies every field except the wait time and the proximity
      detector, which keep their initial values. */
  function Copied(s: Snapshot): Snapshot {
    s.(chairliftArrivalTime := None, activityStartTime := None, lastElevation := None,
       totalWaitTime := 0)
  }

  // ---------------------------------------------------------------------------------------
  // accumulators

  /** An optional total that starts at zero on first use and then adds `x`. */
  function AddToTotal(total: Option<real>, x: real): (r: Option<real>)
    ensures r.Some?
    ensures total.None? ==> r.value == x
    ensures total.Some? ==> r.value - total.value == x
  {
    Some((if total.None? then 0.0 else total.value) + x)
  }

  // ---------------------------------------------------------------------------------------
  // merge

  /** What `merge` needs so as not to throw: a set receiver time is compared with the
      other's, which must then be set too; two heart rates are averaged over the sum of the
      two total times, which must not be zero. */
  predicate MergeDefined(a: Snapshot, b: Snapshot) {
    (a.startTime.Some? ==> b.startTime.Some?) &&
    (a.stopTime.Some? ==> b.stopTime.Some?) &&
    (a.avgHeartRate.Some? && b.avgHeartRate.Some? ==> a.totalTime + b.totalTime != 0)
  }

  function MergedStartTime(a: Option<Instant>, b: Option<Instant>): Option<Instant>
    requires a.Some? ==> b.Some?
  {
    if a.None? then b else if a.value < b.value then a else b
  }

  function MergedStopTime(a: Option<Instant>, b: Option<Instant>): Option<Instant>
    requires a.Some? ==> b.Some?
  {
    if a.None? then b else if a.value > b.value then a else b
  }

  /** Heart rates weighted by the total times they were measured over. */
  function MergedHeartRate(ha: Option<real>, ta: Duration, hb: Option<real>, tb: Duration): Option<real>
    requires ha.Some? && hb.Some? ==> ta + tb != 0
  {
    if ha.None? then hb
    else if hb.None? then ha
    else Some(((ta as real) * ha.value + (tb as real) * hb.value) / ((ta + tb) as real))
  }

  /** Altitude gain or loss: unset only when both sides are unset. */
  function MergedTotal(a: Option<real>, b: Option<real>): Option<real> {
    if a.None? then b
    else if b.None? then a
    else Some(a.value + b.value)
  }

  function MergedChairliftDuration(a: Duration, b: Duration): Duration {
    if a == 0 then b else a + b
  }

  /** The lift entry sample with the earlier time; on a tie the receiver's. */
  function EarlierStartPoint(a: Option<TrackPoint>, b: Option<TrackPoint>): Option<TrackPoint> {
    if a.None? then b
    else if b.None? then a
    else if a.value.time > b.value.time then b
    else a
  }

  /** `a.merge(b)`: the aggregate of two disjoint time windows. The heart rate uses the
      total times from before the merge. */
  function Merged(a: Snapshot, b: Snapshot): Snapshot
    requires MergeDefined(a, b)
    requires a.altitudeExtremities.Valid() && b.altitudeExtremities.Valid()
  {
    a.(startTime := MergedStartTime(a.startTime, b.startTime),
       stopTime := MergedStopTime(a.stopTime, b.stopTime),
       avgHeartRate := MergedHeartRate(a.avgHeartRate, a.totalTime, b.avgHeartRate, b.totalTime),
       totalDistance := a.totalDistance + b.totalDistance,
       totalTime := a.totalTime + b.totalTime,
       movingTime := a.movingTime + b.movingTime,
       maxSpeed := if a.maxSpeed >= b.maxSpeed then a.maxSpeed else b.maxSpeed,
       altitudeExtremities := a.altitudeExtremities.Union(b.altitudeExtremities),
       totalAltitudeGain := MergedTotal(a.totalAltitudeGain, b.totalAltitudeGain),
       totalAltitudeLoss := MergedTotal(a.totalAltitudeLoss, b.totalAltitudeLoss),
       chairliftDuration := MergedChairliftDuration(a.chairliftDuration, b.chairliftDuration),
       chairliftStartPoint := EarlierStartPoint(a.chairliftStartPoint, b.chairliftStartPoint))
  }

  // ---------------------------------------------------------------------------------------
  // speed / altitude chairlift state machine

  /** A missing speed counts as zero. */
  function SpeedOrZero(p: TrackPoint): SpeedReading {
    if p.speed.Some? then p.speed.value else Finite(0.0)
  }

  /** A missing gain counts as zero. */
  function GainOrZero(p: TrackPoint): real {
    if p.altitudeGain.Some? then p.altitudeGain.value else 0.0
  }

  /** A missing loss counts as zero. */
  function LossOrZero(p: TrackPoint): real {
    if p.altitudeLoss.Some? then p.altitudeLoss.value else 0.0
  }

  /** Entry condition: a valid speed of at most 2 m/s and a gain of at least 10 m. */
  predicate EntersChairlift(p: TrackPoint) {
    var v := SpeedOrZero(p);
    !v.IsInvalid() && v.AtMostMaxSpeed() && GainOrZero(p) >= AltitudeGainThreshold
  }

  /** Exit condition: `MAX_SPEED_THRESHOLD.lessThan(v)`, the negation of `2.0 >= v`, or a loss
      of more than 10 m. NaN and +Infinity leave the lift; -Infinity does not. */
  predicate LeavesChairlift(p: TrackPoint) {
    var v := SpeedOrZero(p);
    !v.AtMostMaxSpeed() || LossOrZero(p) > AltitudeLossThreshold
  }

  /** `updateChairliftTime(p)`: take the transition, then, while riding, add the time elapsed
      since the entry sample. */
  function AfterChairliftSample(s: Snapshot, p: TrackPoint): (r: Snapshot)
    requires s.inChairlift ==> s.chairliftStartPoint.Some?
    ensures r.inChairlift ==> r.chairliftStartPoint.Some?
  {
    var s1 :=
      if !s.inChairlift && EntersChairlift(p) then s.(inChairlift := true, chairliftStartPoint := Some(p))
      else if s.inChairlift && LeavesChairlift(p) then s.(inChairlift := false)
      else s;
    if s1.inChairlift then
      s1.(chairliftDuration := s1.chairliftDuration + (p.time - s1.chairliftStartPoint.value.time))
    else s1
  }

  // ---------------------------------------------------------------------------------------
  // proximity wait-time detector

  /** The test `rise / seconds >= 0.1` on a positive rise, in Java double arithmetic: a
      division by zero seconds yields +Infinity, which passes. */
  predicate VerticalSpeedReached(rise: real, seconds: int) {
    seconds == 0 || rise / (seconds as real) >= SpeedThreshold
  }

  /** `isEndOfRun(elevation, time)`: a rise of more than 10 m since the last elevation, at
      a vertical speed of at least 0.1 m/s since the activity started. */
  function EndOfRun(lastElevation: Option<real>, activityStart: Option<Instant>,
                    elevation: real, time: Instant): (r: bool)
    requires lastElevation.Some? && elevation - lastElevation.value > ElevationThreshold ==>
             activityStart.Some?
    ensures r <==>
      lastElevation.Some? && elevation - lastElevation.value > ElevationThreshold &&
      time - activityStart.value >= 0 &&
      (elevation - lastElevation.value) >= SpeedThreshold * ((time - activityStart.value) as real)
  {
    if lastElevation.Some? && elevation - lastElevation.value > ElevationThreshold then
      VerticalSpeedReached(elevation - lastElevation.value, time - activityStart.value)
    else
      false
  }

  /** `startChairliftActivity(time, elevation)`. */
  function AfterActivityStart(s: Snapshot, time: Instant, elevation: real): Snapshot {
    s.(activityStartTime := Some(time), lastElevation := Some(elevation))
  }

  /** `updateChairliftLocation(...)` with the proximity test given as `nearLift`. */
  function AfterLocationUpdate(s: Snapshot, nearLift: bool, elevation: real, time: Instant): (r: Snapshot)
    requires s.activityStartTime.Some? ==> s.lastElevation.Some?
    ensures r.lastElevation == Some(elevation)
  {
    if s.activityStartTime.None? then
      s.(lastElevation := Some(elevation))
    else if nearLift then
      s.(chairliftArrivalTime := if s.chairliftArrivalTime.None? then Some(time) else s.chairliftArrivalTime,
         lastElevation := Some(elevation))
    else
      var s1 :=
        if s.chairliftArrivalTime.Some? then
          s.(totalWaitTime := s.totalWaitTime + (time - s.chairliftArrivalTime.value),
             chairliftArrivalTime := None)
        else s;
      var s2 :=
        if EndOfRun(s1.lastElevation, s1.activityStartTime, elevation, time) then
          s1.(activityStartTime := None)
        else s1;
      s2.(lastElevation := Some(elevation))
  }
}
