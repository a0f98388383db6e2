# TrackStatistics in Dafny

This project models `TrackStatistics`, the class of OpenTracks that aggregates the
statistics of a GPS track, and proves properties of that model. The class keeps:

- the time window;
- the distance, total time, moving time and maximum speed;
- the altitude bounds and the altitude gain and loss;
- the average heart rate.

It also runs two chairlift heuristics on the same object:

- a speed/altitude state machine (`updateChairliftTime`) that accumulates the lift duration;
- a proximity detector (`updateChairliftLocation`, `isEndOfRun`) that accumulates the time spent
  queueing near a lift.

Two aggregates over disjoint parts of a track are combined by `merge`.

The project has five files:

- `wrappers.dfy` holds `Option` (a Java `null` is `None`) and `Outcome` (`Fail` is an exception
  thrown before any field changed).
- `extremity.dfy` models the altitude bounds (`ExtremityMonitor`): no data, or a min/max pair.
- `track_model.dfy` (module `TrackModel`) holds the values:
  - the track point;
  - a `Snapshot` with 18 of the 19 fields of the class; `userCurrLocation`, read only by the
    proximity test, is abstracted away (see "## Left out");
  - the constants of the class;
  - a pure transition function for each compound operation: `Merged`, `AfterReset`, `Copied`,
    `AfterChairliftSample`, `AfterActivityStart` and `AfterLocationUpdate`, with `AddToTotal`
    for the gain and loss accumulators. The plain setters and accumulators (`SetTotalDistance`,
    `AddTotalDistance`, `SetTotalTime`, `SetMovingTime`, `AddMovingTime`, `SetMaxSpeed`,
    `SetIdle`, `SetTotalAltitudeGain`/`Loss`, `SetAverageHeartRate`,
    `UpdateAltitudeExtremities`, `SetStartTime`, `SetStopTime`) have none.
- `track_statistics.dfy` (module `Statistics`) is the class itself:
  - the same fields, updated in place by methods with `modifies this`;
  - each method's `ensures` gives the whole new state, `Model()`: for a compound operation as
    its transition function applied to the old state, for a setter or accumulator as the old
    state with the one field it writes replaced inline (`old(Model()).(field := v)`);
  - every method keeps the invariant `Valid()`: start and stop are set together and in order,
    riding a lift has an entry sample, the altitude bounds do not cross, and a started activity
    has a last elevation.
- `properties.dfy` (module `StatsProperties`) proves what the transitions promise:
  - the cases of `merge`, field by field;
  - which merged fields are independent of order and grouping; the heart rate depends on
    grouping but not on order;
  - the entry, exit and riding rules of the lift state machine, and what runs of samples
    accumulate;
  - the rules of the proximity detector, and that the wait time never decreases.

Units: instants and durations are whole seconds (`int`). Distances, speeds, altitudes and heart
rates are `real`.

`merge` reads every field of `other` after some receiver fields have already been written.
`Merge` takes a snapshot of `other` first, then applies the Java blocks in order. Every block
reads only fields of `other` and receiver fields that no earlier block writes, so the result is
the same even when `other` is the receiver itself.

## Model

| member | source | states |
|---|---|---|
| Statistics.TrackStatistics.constructor | src/main/java/de/dennisguse/opentracks/stats/TrackStatistics.java:55-98 | the field initialisers followed by `reset()` give the empty aggregate `Empty`, which satisfies the invariant |
| Statistics.TrackStatistics.Copy | src/main/java/de/dennisguse/opentracks/stats/TrackStatistics.java:105-121 | the copy has every statistic of `other`; its wait time is zero and its proximity detector is unset |
| Statistics.TrackStatistics.Reset | src/main/java/de/dennisguse/opentracks/stats/TrackStatistics.java:215-230 | these are cleared: times, distance, total and moving time, max speed, gain/loss, idle flag and lift state machine; nothing else changes; the invariant is kept |
| Statistics.TrackStatistics.ResetAt | src/main/java/de/dennisguse/opentracks/stats/TrackStatistics.java:232-235 | a reset followed by start and stop set to `t` |
| Statistics.TrackStatistics.IsInitialized | src/main/java/de/dennisguse/opentracks/stats/TrackStatistics.java:211-213 | initialised exactly when a stop time is set (the start time is set exactly when the stop time is) |
| Statistics.TrackStatistics.SetStartTime | src/main/java/de/dennisguse/opentracks/stats/TrackStatistics.java:244-247 | start and stop both become `t`; nothing else changes |
| Statistics.TrackStatistics.SetStopTime | src/main/java/de/dennisguse/opentracks/stats/TrackStatistics.java:253-259 | fails when `t` is before the start time or no start time is set; succeeds when `t == start`; on success changes only `stopTime`; on failure changes nothing |
| Statistics.TrackStatistics.SetTotalDistance | src/main/java/de/dennisguse/opentracks/stats/TrackStatistics.java:265-267 | only the distance changes |
| Statistics.TrackStatistics.AddTotalDistance | src/main/java/de/dennisguse/opentracks/stats/TrackStatistics.java:269-271 | the distance grows by `d`; nothing else changes |
| Statistics.TrackStatistics.SetTotalTime | src/main/java/de/dennisguse/opentracks/stats/TrackStatistics.java:282-284 | only the total time changes |
| Statistics.TrackStatistics.SetMovingTime | src/main/java/de/dennisguse/opentracks/stats/TrackStatistics.java:290-292 | only the moving time changes |
| Statistics.TrackStatistics.AddMovingTime | src/main/java/de/dennisguse/opentracks/stats/TrackStatistics.java:298-304 | fails exactly when `d < 0`, changing nothing; otherwise the moving time grows by exactly `d` and nothing else changes |
| Statistics.TrackStatistics.AddMovingTimeBetween | src/main/java/de/dennisguse/opentracks/stats/TrackStatistics.java:294-296 | adds the time between the two samples; fails exactly when they are out of order |
| Statistics.TrackStatistics.SetIdle | src/main/java/de/dennisguse/opentracks/stats/TrackStatistics.java:314-316 | only the idle flag changes |
| Statistics.TrackStatistics.SetMaxSpeed | src/main/java/de/dennisguse/opentracks/stats/TrackStatistics.java:346-348 | only the maximum speed changes |
| Statistics.TrackStatistics.SetTotalAltitudeGain | src/main/java/de/dennisguse/opentracks/stats/TrackStatistics.java:472-474 | only the gain changes, possibly to unset |
| Statistics.TrackStatistics.SetTotalAltitudeLoss | src/main/java/de/dennisguse/opentracks/stats/TrackStatistics.java:493-495 | only the loss changes, possibly to unset |
| TrackModel.AddToTotal | src/main/java/de/dennisguse/opentracks/stats/TrackStatistics.java:477-482 | the result is set; it is `x` when the total was unset and grows by `x` otherwise |
| Statistics.TrackStatistics.AddTotalAltitudeGain | src/main/java/de/dennisguse/opentracks/stats/TrackStatistics.java:476-482 | only the gain changes: an unset gain starts at zero and the gain is added |
| Statistics.TrackStatistics.AddTotalAltitudeLoss | src/main/java/de/dennisguse/opentracks/stats/TrackStatistics.java:497-503 | only the loss changes: an unset loss starts at zero and the loss is added |
| Statistics.TrackStatistics.SetAverageHeartRate | src/main/java/de/dennisguse/opentracks/stats/TrackStatistics.java:384-388 | a present heart rate replaces the average; a missing one changes nothing |
| Extremity.ExtremityMonitor.Update | src/main/java/de/dennisguse/opentracks/stats/TrackStatistics.java:378-382 | after recording a value the bounds are valid and cover it and every value covered before; each bound is either the new value or the old bound |
| Statistics.TrackStatistics.UpdateAltitudeExtremities | src/main/java/de/dennisguse/opentracks/stats/TrackStatistics.java:378-382 | a present altitude widens the bounds to include it, after which both bounds exist; a missing one changes nothing |
| Extremity.ExtremityMonitor.Union | src/main/java/de/dennisguse/opentracks/stats/TrackStatistics.java:170-173 | merging bounds: an empty side changes nothing; two ranges give the smaller minimum and the larger maximum |
| Statistics.TrackStatistics.Merge | src/main/java/de/dennisguse/opentracks/stats/TrackStatistics.java:141-209 | the receiver becomes `Merged(receiver, other)` of the old states, even when `other` is the receiver; the invariant is kept |
| Statistics.TrackStatistics.MergeTimeWindow | src/main/java/de/dennisguse/opentracks/stats/TrackStatistics.java:142-151 | an unset receiver takes other's times; otherwise the earlier start and the later stop; only the two times change |
| Statistics.TrackStatistics.MergeHeartRate | src/main/java/de/dennisguse/opentracks/stats/TrackStatistics.java:153-164 | the heart rate becomes the weighted merge of both sides over their pre-merge total times; nothing else changes |
| Statistics.TrackStatistics.MergeTotals | src/main/java/de/dennisguse/opentracks/stats/TrackStatistics.java:166-169 | distance, total and moving time become the sums and max speed the larger; nothing else changes |
| Statistics.TrackStatistics.MergeAltitudeExtremities | src/main/java/de/dennisguse/opentracks/stats/TrackStatistics.java:170-173 | the bounds become the union of both; nothing else changes |
| Statistics.TrackStatistics.MergeAltitudeGain | src/main/java/de/dennisguse/opentracks/stats/TrackStatistics.java:174-182 | the gain becomes the merged total; nothing else changes |
| Statistics.TrackStatistics.MergeAltitudeLoss | src/main/java/de/dennisguse/opentracks/stats/TrackStatistics.java:183-191 | the loss becomes the merged total; nothing else changes |
| Statistics.TrackStatistics.MergeChairlift | src/main/java/de/dennisguse/opentracks/stats/TrackStatistics.java:192-207 | the lift duration is merged and the earlier entry sample is kept; nothing else changes |
| StatsProperties.MergeTimeWindow | src/main/java/de/dennisguse/opentracks/stats/TrackStatistics.java:142-151 | an unset receiver takes other's window; otherwise the merged start is the earlier of the two starts and the merged stop the later of the two stops |
| StatsProperties.MergeSumsTotals | src/main/java/de/dennisguse/opentracks/stats/TrackStatistics.java:166-169 | distance, total time and moving time are the sums; max speed is at least both and equal to one of them |
| StatsProperties.MergedTotalIsSum | src/main/java/de/dennisguse/opentracks/stats/TrackStatistics.java:174-191 | a merged gain or loss is unset exactly when both sides are (so a set value never becomes unset), and it is the sum with unset counting as zero |
| StatsProperties.MergeAltitudeGainLoss | src/main/java/de/dennisguse/opentracks/stats/TrackStatistics.java:174-191 | the four cases for gain and loss: unset+unset is unset, unset+x is x, x+unset is x, x+y is x+y |
| StatsProperties.MergeHeartRateCases | src/main/java/de/dennisguse/opentracks/stats/TrackStatistics.java:153-164 | only other measured: taken; only the receiver measured: kept; both: (tA·hrA + tB·hrB)/(tA+tB), with the pre-merge total times as weights |
| StatsProperties.MergedHeartRateBetween | src/main/java/de/dennisguse/opentracks/stats/TrackStatistics.java:156-163 | with positive total times the merged heart rate lies between the two measured ones |
| StatsProperties.MergeHeartRateExample | src/main/java/de/dennisguse/opentracks/stats/TrackStatistics.java:153-167 | 100 s at 120 bpm merged with 50 s at 150 bpm give 130 bpm over 150 s |
| StatsProperties.MergedHeartRateAssociative | src/main/java/de/dennisguse/opentracks/stats/TrackStatistics.java:156-163 | when all three windows are measured with positive times, the weighted average does not depend on grouping |
| StatsProperties.MergeHeartRateNotAssociative | src/main/java/de/dennisguse/opentracks/stats/TrackStatistics.java:153-167 | the grouping of three windows changes the heart rate once one window has none, because its time still weighs the rate it is merged with |
| StatsProperties.MergeChairlift | src/main/java/de/dennisguse/opentracks/stats/TrackStatistics.java:192-207 | the lift duration is the sum of both sides (the zero check does not change the number); the entry sample is one of the two, set if either is, and no later than either |
| StatsProperties.MergePreservesConsistency | src/main/java/de/dennisguse/opentracks/stats/TrackStatistics.java:141-209 | merging two consistent aggregates gives a consistent one: in particular the merged start is not after the merged stop |
| StatsProperties.MergeCommutes | src/main/java/de/dennisguse/opentracks/stats/TrackStatistics.java:141-209 | swapping the sides changes none of these: time window, totals, max speed, altitude bounds, gain, loss, lift duration, heart rate |
| StatsProperties.MergeAssociates | src/main/java/de/dennisguse/opentracks/stats/TrackStatistics.java:141-209 | grouping three aggregates either way gives the same aggregate in every field but the heart rate: time window, totals, max speed, bounds, gain, loss, lift duration and lift entry sample (ties keep the leftmost either way) |
| StatsProperties.UnionCommutative | src/main/java/de/dennisguse/opentracks/stats/TrackStatistics.java:170-173 | merging altitude bounds does not depend on the order of the sides |
| StatsProperties.UnionAssociative | src/main/java/de/dennisguse/opentracks/stats/TrackStatistics.java:170-173 | merging altitude bounds does not depend on grouping |
| StatsProperties.UpdateIsUnionWithPoint | src/main/java/de/dennisguse/opentracks/stats/TrackStatistics.java:378-382 | recording one altitude is the same as merging with bounds that saw only that altitude |
| StatsProperties.ResetIdempotent | src/main/java/de/dennisguse/opentracks/stats/TrackStatistics.java:215-230 | resetting twice is resetting once, and the fresh aggregate is already reset |
| StatsProperties.ResetKeeps | src/main/java/de/dennisguse/opentracks/stats/TrackStatistics.java:215-230 | reset keeps the heart rate, altitude bounds, wait time and proximity detector, and keeps the aggregate consistent |
| StatsProperties.CopyForgetsWaitDetector | src/main/java/de/dennisguse/opentracks/stats/TrackStatistics.java:105-121 | a copy differs from the original only in the wait time and the proximity detector, which start afresh; copying commutes with reset |
| TrackModel.Merged | src/main/java/de/dennisguse/opentracks/stats/TrackStatistics.java:141-209 | no contract of its own: the merged snapshot, block by block as the Java writes it; characterised by MergeTimeWindow, MergeSumsTotals, MergeAltitudeGainLoss, MergeHeartRateCases, MergeChairlift, MergePreservesConsistency, MergeCommutes and MergeAssociates |
| TrackModel.MergedStartTime | src/main/java/de/dennisguse/opentracks/stats/TrackStatistics.java:142-146 | no contract of its own: the start-time block (an unset receiver takes other's start, otherwise the `isBefore` choice); characterised by MergeTimeWindow |
| TrackModel.MergedStopTime | src/main/java/de/dennisguse/opentracks/stats/TrackStatistics.java:147-151 | no contract of its own: the stop-time block (an unset receiver takes other's stop, otherwise the `isAfter` choice); characterised by MergeTimeWindow |
| TrackModel.MergedHeartRate | src/main/java/de/dennisguse/opentracks/stats/TrackStatistics.java:153-164 | no contract of its own: the heart-rate block; characterised by MergeHeartRateCases, MergedHeartRateBetween, MergedHeartRateAssociative and MergeHeartRateNotAssociative |
| TrackModel.MergedTotal | src/main/java/de/dennisguse/opentracks/stats/TrackStatistics.java:174-191 | no contract of its own: the gain and loss blocks; characterised by MergedTotalIsSum and MergeAltitudeGainLoss |
| TrackModel.MergedChairliftDuration | src/main/java/de/dennisguse/opentracks/stats/TrackStatistics.java:192-196 | no contract of its own: the `isZero` branch; MergeChairlift proves it is the sum |
| TrackModel.EarlierStartPoint | src/main/java/de/dennisguse/opentracks/stats/TrackStatistics.java:197-207 | no contract of its own: the entry-sample block; characterised by MergeChairlift and MergeAssociates |
| TrackModel.AfterReset | src/main/java/de/dennisguse/opentracks/stats/TrackStatistics.java:215-230 | no contract of its own: the fields `reset()` clears; characterised by ResetIdempotent and ResetKeeps |
| TrackModel.Copied | src/main/java/de/dennisguse/opentracks/stats/TrackStatistics.java:105-121 | no contract of its own: the fields the copy constructor copies; characterised by CopyForgetsWaitDetector |
| TrackModel.SpeedOrZero | src/main/java/de/dennisguse/opentracks/stats/TrackStatistics.java:507 | no contract of its own: a missing speed reads as zero; used by EntersChairlift and LeavesChairlift, characterised by ChairliftStep and InvalidSpeedReadings |
| TrackModel.GainOrZero | src/main/java/de/dennisguse/opentracks/stats/TrackStatistics.java:509 | no contract of its own: a missing altitude gain reads as zero; used by EntersChairlift, characterised by ChairliftStep |
| TrackModel.LossOrZero | src/main/java/de/dennisguse/opentracks/stats/TrackStatistics.java:511 | no contract of its own: a missing altitude loss reads as zero; used by LeavesChairlift, characterised by ChairliftStep and InvalidSpeedReadings |
| TrackModel.SpeedReading.IsInvalid | src/main/java/de/dennisguse/opentracks/stats/TrackStatistics.java:513 | no contract of its own: `Speed.isInvalid()`, true for NaN and both infinities; characterised by InvalidSpeedReadings and ChairliftStep |
| TrackModel.SpeedReading.AtMostMaxSpeed | src/main/java/de/dennisguse/opentracks/stats/TrackStatistics.java:514 | no contract of its own: the double comparison `2.0 >= v` of `greaterOrEqualThan`, false for NaN and +Infinity and true for -Infinity; its negation is the `lessThan` exit test of line 520; characterised by InvalidSpeedReadings and ChairliftStep |
| TrackModel.EntersChairlift | src/main/java/de/dennisguse/opentracks/stats/TrackStatistics.java:513-516 | no contract of its own: the entry test (valid speed, `2.0 >= speed`, gain at least 10, missing values as 0); used by ChairliftStep, NoEntryNoChange and InvalidSpeedReadings |
| TrackModel.LeavesChairlift | src/main/java/de/dennisguse/opentracks/stats/TrackStatistics.java:520 | no contract of its own: the exit test (`2.0 < speed` as the negation of `2.0 >= speed`, or loss above 10); used by ChairliftStep, RidingAddsElapsedSinceEntry and InvalidSpeedReadings |
| StatsProperties.InvalidSpeedReadings | src/main/java/de/dennisguse/opentracks/stats/TrackStatistics.java:513-520 | no invalid speed enters the lift; NaN and +Infinity leave it; -Infinity leaves only on a loss above 10 m |
| TrackModel.AfterActivityStart | src/main/java/de/dennisguse/opentracks/stats/TrackStatistics.java:391-394 | no contract of its own: records the activity start and the elevation; StartChairliftActivity's ensures ties the class to it |
| Statistics.TrackStatistics.UpdateChairliftTime | src/main/java/de/dennisguse/opentracks/stats/TrackStatistics.java:505-527 | the state becomes `AfterChairliftSample` of the old state and the sample; the invariant is kept |
| TrackModel.AfterChairliftSample | src/main/java/de/dennisguse/opentracks/stats/TrackStatistics.java:505-527 | riding a lift always has an entry sample afterwards |
| StatsProperties.ChairliftStep | src/main/java/de/dennisguse/opentracks/stats/TrackStatistics.java:505-527 | off the lift: enters exactly when the speed is valid and at most 2.0 and the gain is at least 10, records the sample and adds 0; otherwise nothing changes. On the lift: leaves exactly when the speed is not at most 2.0 (NaN and +Infinity included, -Infinity not), or the loss exceeds 10, and the exit adds nothing; otherwise the duration grows by the time since the entry sample. Only the three lift fields ever change |
| StatsProperties.ChairliftRun | src/main/java/de/dennisguse/opentracks/stats/TrackStatistics.java:505-527 | feeding samples one at a time changes only the three lift fields and keeps an entry sample while riding |
| StatsProperties.ChairliftDurationMonotone | src/main/java/de/dennisguse/opentracks/stats/TrackStatistics.java:518-526 | over samples in time order the lift duration never decreases |
| StatsProperties.NoEntryNoChange | src/main/java/de/dennisguse/opentracks/stats/TrackStatistics.java:513-520 | off the lift, samples that do not meet the entry condition change nothing |
| StatsProperties.RidingAddsElapsedSinceEntry | src/main/java/de/dennisguse/opentracks/stats/TrackStatistics.java:524-526 | while riding, each sample adds the whole time since the entry sample: the duration grows by the sum of those elapsed times |
| StatsProperties.ChairliftRideExample | src/main/java/de/dennisguse/opentracks/stats/TrackStatistics.java:505-527 | a slow 10 m climb enters, a slow sample 5 s later adds 5 s, and a fast sample leaves without adding time |
| StatsProperties.NoEntryWhenTooFast | src/main/java/de/dennisguse/opentracks/stats/TrackStatistics.java:513-516 | a 35 m climb at 3 m/s does not enter the lift |
| Statistics.TrackStatistics.StartChairliftActivity | src/main/java/de/dennisguse/opentracks/stats/TrackStatistics.java:391-394 | records the activity start time and the elevation; nothing else changes |
| Statistics.TrackStatistics.UpdateChairliftLocation | src/main/java/de/dennisguse/opentracks/stats/TrackStatistics.java:397-424 | the state becomes `AfterLocationUpdate` of the old state and the update; the invariant is kept |
| TrackModel.AfterLocationUpdate | src/main/java/de/dennisguse/opentracks/stats/TrackStatistics.java:397-424 | the last elevation is the update's elevation in every case |
| TrackModel.EndOfRun | src/main/java/de/dennisguse/opentracks/stats/TrackStatistics.java:427-436 | true exactly when the climb since the last elevation exceeds 10 m and its vertical speed since the activity start is at least 0.1 m/s; a zero elapsed time counts as fast enough and a negative one as not |
| TrackModel.VerticalSpeedReached | src/main/java/de/dennisguse/opentracks/stats/TrackStatistics.java:429-432 | no contract of its own: the test `rise / seconds >= 0.1`, where zero seconds yields +Infinity and passes; characterised by EndOfRun's ensures and EndOfRunFastClimb |
| StatsProperties.LocationStep | src/main/java/de/dennisguse/opentracks/stats/TrackStatistics.java:397-424 | with no activity only the last elevation changes. Near the lift the arrival is set only if it was unset. Away from it, a recorded arrival adds `time − arrival` to the wait and is cleared, and the activity ends exactly when `EndOfRun` holds |
| StatsProperties.EndOfRunFastClimb | src/main/java/de/dennisguse/opentracks/stats/TrackStatistics.java:427-436 | within 100 s of the activity start any climb of more than 10 m ends the run; a climb of at most 10 m never does |
| StatsProperties.LocationRun | src/main/java/de/dennisguse/opentracks/stats/TrackStatistics.java:397-424 | after a run of updates the last elevation is that of the last update, and a started activity still has one |
| StatsProperties.WaitTimeMonotone | src/main/java/de/dennisguse/opentracks/stats/TrackStatistics.java:412-417 | over updates in time order the total wait time never decreases |
| StatsProperties.WaitExample | src/main/java/de/dennisguse/opentracks/stats/TrackStatistics.java:397-424 | arriving at 10 s and leaving at 70 s on a 5 m rise counts 60 s of wait and keeps the activity running |
| Statistics.TrackStatistics.AverageSpeed | src/main/java/de/dennisguse/opentracks/stats/TrackStatistics.java:331-336 | zero when no time has passed; otherwise the speed times the total time is the distance |
| Statistics.TrackStatistics.AverageMovingSpeed | src/main/java/de/dennisguse/opentracks/stats/TrackStatistics.java:338-340 | zero without moving time; otherwise the speed times the moving time is the distance |
| Statistics.TrackStatistics.MaxSpeed | src/main/java/de/dennisguse/opentracks/stats/TrackStatistics.java:342-344 | the larger of the recorded max speed and the average moving speed |
| Statistics.TrackStatistics.StoppedTime | src/main/java/de/dennisguse/opentracks/stats/TrackStatistics.java:306-308 | stopped time plus moving time is the total time |
| Statistics.TrackStatistics.TotalChairliftTime | src/main/java/de/dennisguse/opentracks/stats/TrackStatistics.java:532-534 | riding time plus wait time, which is at least each part when both are non-negative |
| Statistics.TrackStatistics.HasAltitudeMin | src/main/java/de/dennisguse/opentracks/stats/TrackStatistics.java:350-352 | a minimum exists exactly when some altitude was recorded |
| Statistics.TrackStatistics.HasAltitudeMax | src/main/java/de/dennisguse/opentracks/stats/TrackStatistics.java:362-364 | a maximum exists exactly when some altitude was recorded |

## Left out

- `calculateAverageSpeedFromGpx` (lines 576-615) reads a file and parses XML.
- `calculateDistance` (lines 560-574) and `isNearChairlift` (lines 438-457) are floating-point
  Haversine trigonometry. `isNearChairlift` also reads a `Location` that nothing assigns.
  Proximity enters `UpdateChairliftLocation` as the boolean `nearLift`. The latitude and
  longitude parameters, `CHAIRLIFT_RADIUS` and the field `userCurrLocation` are therefore not
  modelled. As written, `userCurrLocation` (line 88) is never assigned, so every
  `updateChairliftLocation` call after `startChairliftActivity` throws a NullPointerException
  at line 441. UpdateChairliftLocation, LocationStep, LocationRun, WaitTimeMonotone and
  WaitExample describe the wait-time detector with a working proximity test, which the Java
  as written does not have.
- `toString` and `equals` (lines 536-557) are formatting and structural equality. Equality of
  `Snapshot` values stands in for `equals`.
- The testing constructor (lines 124-133) parses ISO-8601 strings.
- Plain getters are left out: `getStartTime`, `getTotalDistance`, `getChairliftTime`,
  `getTotalWaitTime`, `hasTotalAltitudeGain` and the like. Each reads one field, which is a
  field of the class here.
- `setMinAltitude` and `setMaxAltitude` (lines 358-360, 374-376) call
  `ExtremityMonitor.setMin`/`setMax`. `ExtremityMonitor` is not part of this model beyond what
  `update`, `hasData`, `getMin` and `getMax` do as used in this file.
- Floating point is not modelled: no rounding, no 32-bit `float` for gain and loss, and no NaN
  or infinities except in a sample's speed reading. Values are reals, and Java `Instant`/`Duration` are whole seconds with no bound.
- Statistics.TrackStatistics.Merge: requires `MergeDefined`. Java produces a NaN heart rate when
  both sides have a heart rate and their total times sum to zero, and a NullPointerException
  when the receiver has a start or stop time that `other` lacks. The model excludes both
  instead of producing NaN or failing.
- TrackModel.EndOfRun: requires that a rise of more than 10 m comes with a started activity.
  Every caller guarantees this, and Java would otherwise dereference null. A zero elapsed time
  divides by zero in Java double arithmetic and gives +Infinity, which passes the threshold;
  the model says so and does not treat it as an error.
- TrackModel.LeavesChairlift: `Speed` is not part of this model. The exit test assumes
  `Speed.lessThan` is the negation of `greaterOrEqualThan`, a double `>=`. NaN and +Infinity
  therefore leave the lift and -Infinity does not.
- Statistics.TrackStatistics.AverageMovingSpeed: `Speed.of(distance, duration)` is not part of
  this model; it is taken to return zero for a zero duration, as `getAverageSpeed` does
  explicitly.
- StatsProperties.MergeAssociates: leaves out the heart rate, which is not associative (see
  `MergeHeartRateNotAssociative`).
- `merge`'s lift duration check (`isZero` then take the other's) is numerically the sum. The
  model keeps the branch, and `MergeChairlift` proves it equals the sum.
