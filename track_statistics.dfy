/** The mutable aggregate of a track's statistics. Each method updates the fields in place,
    as the Java class does, and its contract gives the whole new state: a compound operation's
    as its transition function of module TrackModel applied to the old state, a setter's as
    the old state with the one field it writes replaced. */
module Statistics {
  import opened Wrappers
  import opened Extremity
  import opened TrackModel

  /** The reasons a call can throw. */
  datatype Error =
    | StopTimeBeforeStartTime   // setStopTime with a time earlier than the start time
    | StartTimeUnset            // setStopTime before any start time: the comparison dereferences null
    | NegativeMovingTime        // addMovingTime with a negative duration

  class TrackStatistics {
    var altitudeExtremities: ExtremityMonitor
    var startTime: Option<Instant>
    var stopTime: Option<Instant>
    var totalDistance: real
    var totalTime: Duration
    var movingTime: Duration
    var maxSpeed: real
    var totalAltitudeGain: Option<real>
    var totalAltitudeLoss: Option<real>
    var chairliftDuration: Duration
    var inChairlift: bool
    var avgHeartRate: Option<real>
    var isIdle: bool
    var chairliftArrivalTime: Option<Instant>
    var activityStartTime: Option<Instant>
    var lastElevation: Option<real>
    var totalWaitTime: Duration
    var chairliftStartPoint: Option<TrackPoint>

    /** All fields as one value. */
    function Model(): Snapshot
      reads this
    {
      Snapshot(altitudeExtremities, startTime, stopTime, totalDistance, totalTime, movingTime,
               maxSpeed, totalAltitudeGain, totalAltitudeLoss, chairliftDuration, inChairlift,
               avgHeartRate, isIdle, chairliftArrivalTime, activityStartTime, lastElevation,
               totalWaitTime, chairliftStartPoint)
    }

    /** The invariant every operation keeps; the same as `Consistent(Model())`. */
    ghost predicate Valid()
      reads this
    {
      (startTime.Some? <==> stopTime.Some?) &&
      (startTime.Some? && stopTime.Some? ==> startTime.value <= stopTime.value) &&
      (inChairlift ==> chairliftStartPoint.Some?) &&
      altitudeExtremities.Valid() &&
      (activityStartTime.Some? ==> lastElevation.Some?)
    }

    /** `Valid()` and `Consistent` state the same invariant. */
    lemma ValidIsConsistent()
      ensures Valid() <==> Consistent(Model())
    {
    }

    /** The empty aggregate: the field initialisers followed by `reset()`. */
    constructor ()
      ensures Valid() && Model() == Empty
    {
      altitudeExtremities := NoData;
      avgHeartRate := None;
      chairliftArrivalTime := None;
      activityStartTime := None;
      lastElevation := None;
      totalWaitTime := 0;
      startTime := None;
      stopTime := None;
      chairliftStartPoint := None;
      chairliftDuration := 0;
      inChairlift := false;
      totalDistance := 0.0;
      totalTime := 0;
      movingTime := 0;
      maxSpeed := 0.0;
      totalAltitudeGain := None;
      totalAltitudeLoss := None;
      isIdle := false;
    }

    /** The copy constructor. */
    constructor Copy(other: TrackStatistics)
      requires other.Valid()
      ensures Valid() && Model() == Copied(other.Model())
    {
      startTime := other.startTime;
      stopTime := other.stopTime;
      totalDistance := other.totalDistance;
      totalTime := other.totalTime;
      movingTime := other.movingTime;
      maxSpeed := other.maxSpeed;
      altitudeExtremities := other.altitudeExtremities;
      totalAltitudeGain := other.totalAltitudeGain;
      totalAltitudeLoss := other.totalAltitudeLoss;
      avgHeartRate := other.avgHeartRate;
      isIdle := other.isIdle;
      chairliftDuration := other.chairliftDuration;
      inChairlift := other.inChairlift;
      chairliftStartPoint := other.chairliftStartPoint;
      chairliftArrivalTime := None;
      activityStartTime := None;
      lastElevation := None;
      totalWaitTime := 0;
    }

    method Reset()
      requires Valid()
      modifies this
      ensures Valid()
      ensures Model() == AfterReset(old(Model()))
    {
      ghost var s0 := Model();
      startTime := None;
      stopTime := None;
      chairliftStartPoint := None;
      chairliftDuration := 0;
      inChairlift := false;
      assert Model() == s0.(startTime := None, stopTime := None, chairliftStartPoint := None,
                            chairliftDuration := 0, inChairlift := false);

      SetTotalDistance(0.0);
      SetTotalTime(0);
      SetMovingTime(0);
      SetMaxSpeed(0.0);
      SetTotalAltitudeGain(None);
      SetTotalAltitudeLoss(None);

      SetIdle(false);
    }

    /** `reset(startTime)`. */
    method ResetAt(t: Instant)
      requires Valid()
      modifies this
      ensures Valid()
      ensures Model() == AfterReset(old(Model())).(startTime := Some(t), stopTime := Some(t))
    {
      Reset();
      SetStartTime(t);
    }

    function IsInitialized(): (r: bool)
      reads this
      requires Valid()
      ensures r <==> stopTime.Some?
    {
      startTime.Some?
    }

    /** Meant to be called once, when the track starts; sets the stop time to the same instant. */
    method SetStartTime(t: Instant)
      requires Valid()
      modifies this
      ensures Valid()
      ensures Model() == old(Model()).(startTime := Some(t), stopTime := Some(t))
    {
      startTime := Some(t);
      // setStopTime(t) with the start time just set to t: its check passes
      stopTime := Some(t);
    }

    /** Equal start and stop times are accepted (two sensors may report the same instant). */
    method SetStopTime(t: Instant) returns (outcome: Outcome<Error>)
      requires Valid()
      modifies this
      ensures outcome == (if startTime.None? then Fail(StartTimeUnset)
                          else if t < startTime.value then Fail(StopTimeBeforeStartTime)
                          else Pass)
      ensures Valid()
      ensures Model() == if outcome.Pass? then old(Model()).(stopTime := Some(t)) else old(Model())
    {
      if startTime.None? {
        return Fail(StartTimeUnset);
      }
      if t < startTime.value {
        return Fail(StopTimeBeforeStartTime);
      }
      stopTime := Some(t);
      return Pass;
    }

    method SetTotalDistance(d: real)
      requires Valid()
      modifies this
      ensures Valid() && Model() == old(Model()).(totalDistance := d)
    {
      totalDistance := d;
    }

    method AddTotalDistance(d: real)
      requires Valid()
      modifies this
      ensures Valid() && Model() == old(Model()).(totalDistance := old(totalDistance) + d)
    {
      totalDistance := totalDistance + d;
    }

    method SetTotalTime(d: Duration)
      requires Valid()
      modifies this
      ensures Valid() && Model() == old(Model()).(totalTime := d)
    {
      totalTime := d;
    }

    method SetMovingTime(d: Duration)
      requires Valid()
      modifies this
      ensures Valid() && Model() == old(Model()).(movingTime := d)
    {
      movingTime := d;
    }

    /** A negative duration throws and leaves the aggregate unchanged; a zero one changes nothing. */
    method AddMovingTime(d: Duration) returns (outcome: Outcome<Error>)
      requires Valid()
      modifies this
      ensures outcome == if d < 0 then Fail(NegativeMovingTime) else Pass
      ensures Valid()
      ensures Model() == if d < 0 then old(Model()) else old(Model()).(movingTime := old(movingTime) + d)
    {
      if d < 0 {
        return Fail(NegativeMovingTime);
      }
      movingTime := movingTime + d;
      return Pass;
    }

    /** `addMovingTime(trackPoint, lastTrackPoint)`: the time between the two samples. */
    method AddMovingTimeBetween(trackPoint: TrackPoint, lastTrackPoint: TrackPoint)
      returns (outcome: Outcome<Error>)
      requires Valid()
      modifies this
      ensures outcome.Fail? <==> trackPoint.time < lastTrackPoint.time
      ensures Valid()
      ensures outcome.Pass? ==>
        Model() == old(Model()).(movingTime := old(movingTime) + (trackPoint.time - lastTrackPoint.time))
      ensures outcome.Fail? ==> Model() == old(Model())
    {
      outcome := AddMovingTime(trackPoint.time - lastTrackPoint.time);
    }

    method SetMaxSpeed(v: real)
      requires Valid()
      modifies this
      ensures Valid() && Model() == old(Model()).(maxSpeed := v)
    {
      maxSpeed := v;
    }

    method SetIdle(idle: bool)
      requires Valid()
      modifies this
      ensures Valid() && Model() == old(Model()).(isIdle := idle)
    {
      isIdle := idle;
    }

    method SetTotalAltitudeGain(g: Option<real>)
      requires Valid()
      modifies this
      ensures Valid() && Model() == old(Model()).(totalAltitudeGain := g)
    {
      totalAltitudeGain := g;
    }

    method SetTotalAltitudeLoss(l: Option<real>)
      requires Valid()
      modifies this
      ensures Valid() && Model() == old(Model()).(totalAltitudeLoss := l)
    {
      totalAltitudeLoss := l;
    }

    /** An unset gain starts at zero, then the gain is added. */
    method AddTotalAltitudeGain(g: real)
      requires Valid()
      modifies this
      ensures Valid()
      ensures Model() == old(Model()).(totalAltitudeGain := AddToTotal(old(totalAltitudeGain), g))
    {
      if totalAltitudeGain.None? {
        totalAltitudeGain := Some(0.0);
      }
      totalAltitudeGain := Some(totalAltitudeGain.value + g);
    }

    /** An unset loss starts at zero, then the loss is added. */
    method AddTotalAltitudeLoss(l: real)
      requires Valid()
      modifies this
      ensures Valid()
      ensures Model() == old(Model()).(totalAltitudeLoss := AddToTotal(old(totalAltitudeLoss), l))
    {
      if totalAltitudeLoss.None? {
        totalAltitudeLoss := Some(0.0);
      }
      totalAltitudeLoss := Some(totalAltitudeLoss.value + l);
    }

    /** A missing heart rate leaves the known one in place. */
    method SetAverageHeartRate(hr: Option<real>)
      requires Valid()
      modifies this
      ensures Valid()
      ensures Model() == if hr.None? then old(Model()) else old(Model()).(avgHeartRate := hr)
    {
      if hr.Some? {
        avgHeartRate := hr;
      }
    }

    /** A missing altitude leaves the bounds in place; otherwise they widen to include it. */
    method UpdateAltitudeExtremities(altitude: Option<real>)
      requires Valid()
      modifies this
      ensures Valid()
      ensures altitude.Some? ==> HasAltitudeMin() && HasAltitudeMax()
      ensures Model() == if altitude.None? then old(Model())
                         else old(Model()).(altitudeExtremities := old(altitudeExtremities).Update(altitude.value))
    {
      if altitude.Some? {
        altitudeExtremities := altitudeExtremities.Update(altitude.value);
      }
    }

    /** Combines this aggregate with one over a disjoint time window. Every statement of
        the merge reads a field of `other` before this object's copy of that field is
        updated, so reading `other` once at the start is the same, also when `other` is
        this very object. The heart rate is averaged before the total time is summed, so it
        is weighted by the totals from before the merge. */
    method Merge(other: TrackStatistics)
      requires Valid() && other.Valid()
      requires MergeDefined(Model(), other.Model())
      modifies this
      ensures Valid()
      ensures Model() == Merged(old(Model()), old(other.Model()))
    {
      var o := other.Model();
      MergeTimeWindow(o);
      MergeHeartRate(o);
      MergeTotals(o);
      MergeAltitudeExtremities(o);
      MergeAltitudeGain(o);
      MergeAltitudeLoss(o);
      MergeChairlift(o);
    }

    /** The start and stop time of the merge. */
    method MergeTimeWindow(o: Snapshot)
      requires Valid() && Consistent(o)
      requires startTime.Some? ==> o.startTime.Some?
      modifies this
      ensures Valid()
      ensures Model() == old(Model()).(startTime := MergedStartTime(old(startTime), o.startTime),
                                       stopTime := MergedStopTime(old(stopTime), o.stopTime))
    {
      if startTime.None? {
        startTime := o.startTime;
      } else {
        startTime := if startTime.value < o.startTime.value then startTime else o.startTime;
      }
      if stopTime.None? {
        stopTime := o.stopTime;
      } else {
        stopTime := if stopTime.value > o.stopTime.value then stopTime else o.stopTime;
      }
    }

    /** The heart rate of the merge, weighted by the total times not yet summed. */
    method MergeHeartRate(o: Snapshot)
      requires Valid()
      requires avgHeartRate.Some? && o.avgHeartRate.Some? ==> totalTime + o.totalTime != 0
      modifies this
      ensures Valid()
      ensures Model() == old(Model()).(avgHeartRate := MergedHeartRate(old(avgHeartRate), old(totalTime),
                                                                       o.avgHeartRate, o.totalTime))
    {
      if avgHeartRate.None? {
        avgHeartRate := o.avgHeartRate;
      } else if o.avgHeartRate.Some? {
        // weights are the total times, which the caller has not yet summed
        var weighted := (totalTime as real) * avgHeartRate.value + (o.totalTime as real) * o.avgHeartRate.value;
        ghost var expected := MergedHeartRate(avgHeartRate, totalTime, o.avgHeartRate, o.totalTime);
        avgHeartRate := Some(weighted / ((totalTime + o.totalTime) as real));
        assert avgHeartRate.value == expected.value;
      }
    }

    /** Distance and times of the merge are sums; the maximum speed is the larger one. */
    method MergeTotals(o: Snapshot)
      requires Valid()
      modifies this
      ensures Valid()
      ensures Model() == old(Model()).(totalDistance := old(totalDistance) + o.totalDistance,
                                       totalTime := old(totalTime) + o.totalTime,
                                       movingTime := old(movingTime) + o.movingTime,
                                       maxSpeed := if old(maxSpeed) >= o.maxSpeed then old(maxSpeed) else o.maxSpeed)
    {
      totalDistance := totalDistance + o.totalDistance;
      totalTime := totalTime + o.totalTime;
      movingTime := movingTime + o.movingTime;
      maxSpeed := if maxSpeed >= o.maxSpeed then maxSpeed else o.maxSpeed;
    }

    /** Altitude bounds of the merge: the other's bounds, if it has any, widen these. */
    method MergeAltitudeExtremities(o: Snapshot)
      requires Valid() && Consistent(o)
      modifies this
      ensures Valid()
      ensures Model() == old(Model()).(
        altitudeExtremities := old(altitudeExtremities).Union(o.altitudeExtremities))
    {
      if o.altitudeExtremities.HasData() {
        altitudeExtremities := altitudeExtremities.Update(o.altitudeExtremities.min);
        altitudeExtremities := altitudeExtremities.Update(o.altitudeExtremities.max);
      }
    }

    /** Altitude gain of the merge: unset only if unset on both sides, otherwise the sum of the set ones. */
    method MergeAltitudeGain(o: Snapshot)
      requires Valid()
      modifies this
      ensures Valid()
      ensures Model() == old(Model()).(totalAltitudeGain := MergedTotal(old(totalAltitudeGain), o.totalAltitudeGain))
    {
      if totalAltitudeGain.None? {
        if o.totalAltitudeGain.Some? {
          totalAltitudeGain := o.totalAltitudeGain;
        }
      } else if o.totalAltitudeGain.Some? {
        ghost var expected := MergedTotal(totalAltitudeGain, o.totalAltitudeGain);
        totalAltitudeGain := Some(totalAltitudeGain.value + o.totalAltitudeGain.value);
        assert totalAltitudeGain.value == expected.value;
      }
    }

    /** Altitude loss of the merge: unset only if unset on both sides, otherwise the sum of the set ones. */
    method MergeAltitudeLoss(o: Snapshot)
      requires Valid()
      modifies this
      ensures Valid()
      ensures Model() == old(Model()).(totalAltitudeLoss := MergedTotal(old(totalAltitudeLoss), o.totalAltitudeLoss))
    {
      if totalAltitudeLoss.None? {
        if o.totalAltitudeLoss.Some? {
          totalAltitudeLoss := o.totalAltitudeLoss;
        }
      } else if o.totalAltitudeLoss.Some? {
        ghost var expected := MergedTotal(totalAltitudeLoss, o.totalAltitudeLoss);
        totalAltitudeLoss := Some(totalAltitudeLoss.value + o.totalAltitudeLoss.value);
        assert totalAltitudeLoss.value == expected.value;
      }
    }

    /** Riding time of the merge is accumulated; the earlier lift entry sample is kept. */
    method MergeChairlift(o: Snapshot)
      requires Valid()
      modifies this
      ensures Valid()
      ensures Model() == old(Model()).(
        chairliftDuration := MergedChairliftDuration(old(chairliftDuration), o.chairliftDuration),
        chairliftStartPoint := EarlierStartPoint(old(chairliftStartPoint), o.chairliftStartPoint))
    {
      if chairliftDuration == 0 {
        chairliftDuration := o.chairliftDuration;
      } else {
        chairliftDuration := chairliftDuration + o.chairliftDuration;
      }
      if chairliftStartPoint.None? {
        if o.chairliftStartPoint.Some? {
          chairliftStartPoint := o.chairliftStartPoint;
        }
      } else if o.chairliftStartPoint.Some? {
        if chairliftStartPoint.value.time > o.chairliftStartPoint.value.time {
          chairliftStartPoint := o.chairliftStartPoint;
        }
      }
    }

    /** `updateChairliftTime(trackPoint)`: one step of the speed/altitude state machine. */
    method UpdateChairliftTime(p: TrackPoint)
      requires Valid()
      modifies this
      ensures Valid()
      ensures Model() == AfterChairliftSample(old(Model()), p)
    {
      if !inChairlift && EntersChairlift(p) {
        inChairlift := true;
        chairliftStartPoint := Some(p);
      } else if inChairlift && LeavesChairlift(p) {
        inChairlift := false;
      }
      if inChairlift {
        chairliftDuration := chairliftDuration + (p.time - chairliftStartPoint.value.time);
      }
    }

    /** `startChairliftActivity(time, elevation)`. */
    method StartChairliftActivity(time: Instant, elevation: real)
      requires Valid()
      modifies this
      ensures Valid()
      ensures Model() == AfterActivityStart(old(Model()), time, elevation)
    {
      activityStartTime := Some(time);
      lastElevation := Some(elevation);
    }

    /** `updateChairliftLocation(...)`, with the proximity test to the lift as `nearLift`. */
    method UpdateChairliftLocation(nearLift: bool, elevation: real, time: Instant)
      requires Valid()
      modifies this
      ensures Valid()
      ensures Model() == AfterLocationUpdate(old(Model()), nearLift, elevation, time)
    {
      if activityStartTime.None? {
        lastElevation := Some(elevation);
        return;
      }
      if nearLift {
        if chairliftArrivalTime.None? {
          chairliftArrivalTime := Some(time);
        }
      } else {
        if chairliftArrivalTime.Some? {
          var waitTime := time - chairliftArrivalTime.value;
          totalWaitTime := totalWaitTime + waitTime;
          chairliftArrivalTime := None;
        }
        if EndOfRun(lastElevation, activityStartTime, elevation, time) {
          activityStartTime := None;
        }
      }
      lastElevation := Some(elevation);
    }

    // -------------------------------------------------------------------------------------
    // derived accessors

    /** `getAverageSpeed()`: distance over total time, zero when no time has passed. */
    function AverageSpeed(): (r: real)
      reads this
      ensures totalTime == 0 ==> r == 0.0
      ensures totalTime != 0 ==> r * (totalTime as real) == totalDistance
    {
      if totalTime == 0 then 0.0 else totalDistance / (totalTime as real)
    }

    /** `getAverageMovingSpeed()`: distance over moving time, zero when there is none. */
    function AverageMovingSpeed(): (r: real)
      reads this
      ensures movingTime == 0 ==> r == 0.0
      ensures movingTime != 0 ==> r * (movingTime as real) == totalDistance
    {
      if movingTime == 0 then 0.0 else totalDistance / (movingTime as real)
    }

    /** `getMaxSpeed()`: never below the average moving speed. */
    function MaxSpeed(): (r: real)
      reads this
      ensures r >= maxSpeed && r >= AverageMovingSpeed()
      ensures r == maxSpeed || r == AverageMovingSpeed()
    {
      var avg := AverageMovingSpeed();
      if maxSpeed >= avg then maxSpeed else avg
    }

    /** `getStoppedTime()`: the part of the total time that was not moving time. */
    function StoppedTime(): (r: Duration)
      reads this
      ensures r + movingTime == totalTime
    {
      totalTime - movingTime
    }

    /** `getTotalChairliftTime()`: riding time and queueing time together. */
    function TotalChairliftTime(): (r: Duration)
      reads this
      ensures r - totalWaitTime == chairliftDuration
      ensures chairliftDuration >= 0 && totalWaitTime >= 0 ==> r >= chairliftDuration && r >= totalWaitTime
    {
      chairliftDuration + totalWaitTime
    }

    /** `hasAltitudeMin()`: the minimum is no longer the infinite sentinel. */
    function HasAltitudeMin(): (r: bool)
      reads this
      ensures r <==> altitudeExtremities.Range?
    {
      altitudeExtremities.HasData()
    }

    /** `hasAltitudeMax()`: the maximum is no longer the infinite sentinel. */
    function HasAltitudeMax(): (r: bool)
      reads this
      ensures r <==> altitudeExtremities.Range?
    {
      altitudeExtremities.HasData()
    }
  }
}
