# tcAPI effort metrics, resampler, summary and privacy filter in Dafny

This project models the computational core of the tcAPI training-log back end:

- **Zone distribution** (`Workout.buildZoneDistribution`). For each second of a ride, it finds the first band of a power or heart-rate zone table that holds the sample. It then counts seconds-in-zone per zone and stores each zone's share of the stream.
- **Rolling-window bests** (`buildStats` and `Workout.getBests`). For each fixed window length, this is the best rounded average of the power and heart-rate streams.
- **Training-load arithmetic** (`getEffortToday`, `getTrainingLoadYesterday`, `getTrainingLoad`). Yesterday's load is the flat average of the summed effort over the `daysToInclude`-day window, rounded; every day weighs the same. Today's load moves that value `1/daysToInclude` of the way towards today's summed effort and rounds again: one step of an exponentially weighted update, with nothing decaying from day to day. Each workout contributes its `effort`, or else its `hr_effort`.
- **The resampler** (`linearInterpolate`, `interpolateArray`). It stretches or shrinks a stream to a given number of points by linear interpolation.
- **The summary loop** (`getSummary`). It folds the workouts of a date range into:
  - effort, duration and distance totals;
  - per-activity buckets;
  - per-zone seconds;
  - the list of workout ids.
- **The privacy filter** (`User.formatUser`). It deletes secret fields from a user record, and also deletes profile fields when another user is viewing it.

## Modelling choices

- **Modules.** One module per concern: `Js`, `Workouts`, `TrainingLoad`, `ZoneDistribution`, `Bests`, `Interpolation`, `Summary` and `Users`.
- **JavaScript semantics.** `Js` holds what the others rely on:
  - `Math.round` as `floor(x + 1/2)`;
  - `Math.floor` and `Math.ceil`;
  - truthiness of nullable integer columns;
  - `undefined` as `Option`;
  - a number that may have become `NaN`.
- **Numbers.**
  - Samples, zone bounds, efforts, durations and distances are integers.
  - Where the code divides, the model uses exact reals and rounds as `Math.round` does.
  - A zone share `Math.round(s / L * 100) / 100` is carried as the integer number of hundredths. `HundredthsIsRounded` proves that this is the rounding of the real share.
- **Loops.** Routines that accumulate in a loop are methods with loops. Each is proved against a specification function over the input sequence: `EffortSum`, `StatAfter`, `WindowBest`, `Resampled` and `SummaryOf`.
  - `interpolateArray` fills a fresh `array`.
  - `formatUser` deletes from the caller's record, so the record is a class with a `map` field.
- **External inputs.**
  - Database queries, streams fetched from the provider, and zone tables are inputs: the sequence of workouts a query would return, the two sample streams, and the tables.
  - An absent stream or zone table behaves exactly like an empty one, as the code's guards treat them alike.
- **The nine bucket blocks of `getBests`** (lines 236-312) differ only in window length, bucket and streams scanned. They are modelled as one block, `ScanSlice`, run for each bucket in the source's order (`Order`).

## Model

| member | source | states |
|---|---|---|
| Js.Round | models/workout.js:198 | `Math.round`: the result is within one half of its argument, halves rounding up; used for every rounding in the model |
| Workouts.Contribution | models/workout.js:53-59 | definition of one workout's effort: its `effort` if truthy, otherwise its `hr_effort` if truthy, otherwise nothing |
| Workouts.EffortSum | models/workout.js:53-59 | definition of the summed fallback effort of a list of workouts, the reference the three effort loops are proved against |
| Workouts.EffortSumAppend | models/workout.js:53-59 | the summed effort of two lists of workouts is the sum of their summed efforts |
| Workouts.EffortSumBounds | models/workout.js:53-59 | if every contribution lies in `[lo, hi]`, the summed effort of `n` workouts lies in `[n*lo, n*hi]` |
| TrainingLoad.EffortToday | models/workout.js:38-62 | the loop returns the summed fallback effort of today's workouts |
| TrainingLoad.TrainingLoadYesterday | models/workout.js:63-88 | the result is `Math.round` of the window's summed effort divided by `daysToInclude` |
| TrainingLoad.NextLoad | models/workout.js:113-116 | the rounded update `Y + (T - Y)/N` lies between yesterday's load `Y` and today's effort `T`; if `T == Y` it is `Y`; with `N == 1` it is `T` |
| TrainingLoad.GetTrainingLoad | models/workout.js:90-117 | the training load is the rounded update applied to yesterday's rounded average and today's summed effort |
| TrainingLoad.NoEffortNoLoad | models/workout.js:90-117 | with no effort recorded in either window, the training load is 0 |
| ZoneDistribution.FirstMatch | models/workout.js:170-172 | `_.find` returns nothing exactly when no band holds the value; otherwise it returns the title of a band that holds it, with no earlier band holding it; the top band has no upper bound |
| ZoneDistribution.ListLength | models/workout.js:120 | `watts?.length || heartrate?.length`: the power length when the power stream is non-empty, otherwise the heart-rate length; 0 exactly when both are empty |
| ZoneDistribution.Hundredths | models/workout.js:175 | a zone with 0 seconds has share 0; a count no larger than the stream length gives a share between 0 and 100 hundredths |
| ZoneDistribution.HundredthsIsRounded | models/workout.js:175 | the integer share equals `Math.round(seconds / listLength * 100)` |
| ZoneDistribution.EmptyZones | models/workout.js:121-158 | the initial object has all six zones with seconds and shares at 0; for 'Anaerobic' the code has no heart-rate counters and the model stores 0 there (see Left out) |
| ZoneDistribution.Seconds | models/workout.js:166-189 | definition of a zone's seconds: the number of the first `n` indices whose sample's first matching band is that zone, never more than `n` |
| ZoneDistribution.StatAfter | models/workout.js:166-189 | definition of a zone's counters after `n` indices: its power and heart-rate seconds and their rounded shares of `listLength`, the reference `BuildZoneDistribution` is proved against |
| ZoneDistribution.BuildZoneDistribution | models/workout.js:119-191 | `hasWatts` iff the power stream is non-empty and `hasHeartRate` iff the heart-rate stream is non-empty, whatever the tables; every zone holds the seconds of indices below `listLength` that fall in it, and the rounded shares of those seconds; 'Anaerobic' has no heart-rate seconds |
| ZoneDistribution.CountAll | models/workout.js:166-189 | after the loop, every zone's power and heart-rate counters reflect all `listLength` indices |
| ZoneDistribution.CountSample | models/workout.js:167-188 | one loop pass advances both metrics' counters by one index |
| ZoneDistribution.CountPowerSample | models/workout.js:169-177 | the power counters move on by one index; the heart-rate counters are untouched |
| ZoneDistribution.CountHeartRateSample | models/workout.js:180-188 | the heart-rate counters move on by one index; the power counters are untouched |
| ZoneDistribution.ZonesPartitionMatches | models/workout.js:166-189 | the seconds of the six zones add up to the number of indices that matched some band: no index is counted twice (one-index steps: `SecondsStep`, `PartitionStep`) |
| ZoneDistribution.TotalSecondsBounded | models/workout.js:166-189 | the seconds over all zones, per metric, never exceed the number of indices scanned |
| ZoneDistribution.SecondsStopAtEnd | models/workout.js:120 | indices past a stream's end (when the other stream is longer) read `undefined`, match no band and add no seconds (one index: `SecondsPastEnd`) |
| ZoneDistribution.NoDataNoSeconds | models/workout.js:169 | a missing stream or a missing table leaves that metric's counters at 0 |
| Bests.Duration | models/workout.js:237-305 | every bucket's window is at least one sample long |
| Bests.Starts | models/workout.js:237 | the admitted start offsets keep the whole window inside the stream |
| Bests.AdmitsBelowStarts | models/workout.js:237 | the guard admits offset `i` exactly when `i` is below the number of admitted offsets |
| Bests.Sum | models/workout.js:195 | definition of `_.sum` over a window |
| Bests.Mean | models/workout.js:196 | definition of a window's average: its sum divided by its length |
| Bests.Improve | models/workout.js:197-198 | a bucket never decreases; when it changes, it holds `Math.round` of the window average |
| Bests.MaxWindowSum | models/workout.js:193-200 | the largest window sum bounds every admitted window and is attained by one of them |
| Bests.WindowBest | models/workout.js:235-313 | definition of a scanned bucket's final value: `max(0, round(M))` for `M` the largest mean over the offsets the guard admits, the reference `GetBests` is proved against |
| Bests.BuildStats | models/workout.js:193-200 | the bucket is replaced by the rounded mean of the window exactly when that mean is strictly greater; no other bucket changes |
| Bests.BestStep | models/workout.js:197-199 | replacing on a strict `>` with the rounded mean keeps the rounded running maximum (floored at 0) |
| Bests.Scanned | models/workout.js:193-200 | definition of a bucket after `buildStats` has run on the first `k` offsets in turn, the fold `ScannedIsRoundedMaxMean` equates with `WindowBest` |
| Bests.ScannedIsRoundedMaxMean | models/workout.js:193-200 | after `k` offsets, a bucket holds `max(0, round(M))`, where `M` is the largest mean over those offsets |
| Bests.ScanSlice | models/workout.js:237-244 | one bucket's block advances its own bucket by one offset when the guard admits it and the stream has the scanned length; every other bucket is unchanged |
| Bests.StageStep | models/workout.js:237-312 | a block that updates only its own bucket keeps every other bucket at its expected value |
| Bests.ExpectedStep | models/workout.js:237-312 | in iteration `i` a bucket advances exactly when the guard admits `i` and the stream is scanned; otherwise it is unchanged |
| Bests.ScanOffset | models/workout.js:236-312 | after the nine blocks, every bucket has seen offset `i` |
| Bests.ScanAll | models/workout.js:235-313 | after the loop, every bucket has seen every offset |
| Bests.InitialScan | models/workout.js:206-228 | the initial object has all nine power buckets and heart-rate buckets exactly for 1hr, 20min, 10min, 5min and max, every one at 0 and equal to the closed form with no offset scanned (`NothingScannedYet`) |
| Bests.NextIteration | models/workout.js:235-313 | once the last block has run, offset `i` is done for every bucket |
| Bests.FinalScan | models/workout.js:235-313 | at the end each bucket holds its window best, or 0 if its stream was not scanned |
| Bests.StageFinal | models/workout.js:235-313 | the closed form after all offsets is the window best |
| Bests.GetBests | models/workout.js:202-319 | `hasWatts` and `hasHeartRate` iff the streams are non-empty; `listLength` is the heart-rate length if non-zero, else the power length; a stream is scanned only if its length is `listLength`; heart-rate has no 2min, 1min, 30sec or 5sec bucket; each bucket holds `max(0, round(M))` for `M` the largest window mean over the offsets the guard admits |
| Bests.BestsLength | models/workout.js:205 | `heartrate?.length || watts?.length`: the heart-rate length when that stream is non-empty, otherwise the power length; 0 exactly when both are empty |
| Bests.LengthChoiceDiffers | models/workout.js:205 | with both streams present and of different lengths, `buildZoneDistribution` takes the power length and `getBests` the heart-rate length, so `getBests` scans no power window |
| Bests.MeansBelowMax | models/workout.js:197-198 | every window's rounded mean is at most the rounded maximum mean, and some window attains it |
| Bests.BestIsLargestMean | models/workout.js:193-200 | the best is never negative; it is at least every admitted window's rounded mean; a positive best is the rounded mean of an admitted window |
| Bests.ShortStreamNoBest | models/workout.js:237 | under the strict guard, a stream no longer than the window leaves the bucket at 0 |
| Bests.LastSampleUnread | models/workout.js:305 | under the strict guard, changing the last sample changes no best |
| Bests.SameWindowsSameMax | models/workout.js:194-195 | streams that agree on every sample the windows read have the same largest window sum |
| Bests.ConstantStreamBest | models/workout.js:193-200 | a constant non-negative stream whose first window is admitted has best equal to that constant |
| Bests.IntendedBestCoversEveryWindow | models/workout.js:237-312 | under the intended guard, the best bounds the rounded mean of every window inside the stream, the last one included |
| Bests.StrictGuardLosesLastWindow | models/workout.js:305-311 | for the stream [0, 5] the strict guard leaves 'max' at 0 and the intended guard stores 5 |
| Interpolation.LinearInterpolate | tools/interpolation.js:1-3 | for `atPoint` in `[0, 1]` the result lies between the two samples; `atPoint` 0 gives `before` and 1 gives `after` |
| Interpolation.SegmentBetween | tools/interpolation.js:2 | the unrounded interpolant and its rounding lie between the two samples |
| Interpolation.PositionInRange | tools/interpolation.js:7-12 | `floor` and `ceil` of `i * springFactor` are valid indices, at most one apart |
| Interpolation.Interior | tools/interpolation.js:9-15 | an interior output point lies between the two input samples it reads |
| Interpolation.Resampled | tools/interpolation.js:5-18 | the output of `interpolateArray`: length `fitCount` for `fitCount >= 1`, with `data[0]` first and `data[length-1]` last for `fitCount >= 2`; `[data[length-1]]` for `fitCount == 1`; `[data[0]]` when `fitCount <= 0` |
| Interpolation.InterpolateArray | tools/interpolation.js:5-18 | the filled array is fresh and holds `Resampled(data, fitCount)` |
| Interpolation.ResampleToOwnLength | tools/interpolation.js:7-16 | resampling to the stream's own length gives the stream back |
| Interpolation.InteriorAtOwnLength | tools/interpolation.js:9-14 | at the stream's own length the spring factor is 1, so interior point `i` is `data[i]` |
| Interpolation.ConstantStaysConstant | tools/interpolation.js:5-18 | a constant stream resamples to the same constant at every point |
| Interpolation.ResampledWithinRange | tools/interpolation.js:5-18 | every resampled point lies within the range of the input samples |
| Summary.Preferred | tools/summary.js:53 | definition of a field's preferred seconds: watt-seconds when non-zero, otherwise hr-seconds; a flag field contributes nothing |
| Summary.AddTo | tools/summary.js:55 | definition of `total[key] += n`: adds `n` to a finite total; an absent key becomes NaN; a NaN total stays NaN |
| Summary.AddZones | tools/summary.js:50-58 | definition of the inner loop over one workout's fields, in the order given, as a fold of `+=` |
| Summary.ZoneFold | tools/summary.js:48-59 | definition of the zone totals after the outer loop: each admitted workout's fields folded in, in input order |
| Summary.AddWorkoutZones | tools/summary.js:50-58 | the inner loop adds each non-flag field's preferred seconds, when non-zero, in key order |
| Summary.SummaryOf | tools/summary.js:20-98 | definition of the summary of a list of workouts: summed effort, total and per-activity durations and distances, zone totals and ids, the reference `GetSummary` is proved against |
| Summary.Total | tools/summary.js:71-86 | definition of `total_duration` / `total_distance`: every workout's value summed, whatever its activity type |
| Summary.AddZoneTotals | tools/summary.js:49-59 | only workouts with zones and an admitted activity type add their zones |
| Summary.GetSummary | tools/summary.js:20-98 | the summary holds the summed fallback effort, the total and per-activity durations and distances, the zone totals, and the ids in input order, for either reading of lines 5 and 42 |
| Summary.InitialSummary | tools/summary.js:20-47 | the initial object is the summary of no workouts |
| Summary.AddWorkout | tools/summary.js:48-98 | one iteration turns the summary of the workouts so far into that of one more |
| Summary.AddDuration | tools/summary.js:71-84 | a run, ride, strength workout or swim adds its duration to its own bucket; other activity types change no bucket |
| Summary.AddDistance | tools/summary.js:86-96 | a run, ride or swim adds its length to its own bucket; strength workouts and other types change no bucket |
| Summary.BucketNames | tools/summary.js:73-96 | the duration buckets are exactly run, ride, workout and swim; the distance buckets are run, ride and swim |
| Summary.BucketsStep | tools/summary.js:73-96 | one more workout adds its value to its own bucket, if it has one |
| Summary.Buckets | tools/summary.js:23-34 | definition of `activity_duration` / `activity_distance`: one entry per listed activity type, holding that type's summed value |
| Summary.StepFacts | tools/summary.js:65-97 | one more workout adds its contribution to `effort`, its duration to `total_duration` and its length to `total_distance`, and appends its id |
| Summary.Ids | tools/summary.js:97 | `workoutIds` lists each workout's id once, in input order |
| Summary.AddZonesKeys | tools/summary.js:50-58 | fields whose keys are all known add no key to the totals |
| Summary.AddZonesIsKeySum | tools/summary.js:50-58 | with every key known, a finite zone total grows by exactly the preferred seconds of that key's fields |
| Summary.KeySeconds | tools/summary.js:50-58 | definition of the reference sum: the preferred seconds of one workout's counted fields named `key` |
| Summary.ZoneSeconds | tools/summary.js:48-59 | definition of the reference sum over all workouts: `KeySeconds` summed over the admitted ones |
| Summary.ZoneFoldIsZoneSeconds | tools/summary.js:48-59 | with every key known, each zone total is its initial value plus the preferred seconds over all admitted workouts |
| Summary.SummaryZoneTotals | tools/summary.js:48-59 | in the corrected summary, each zone total is the finite sum of the preferred seconds of the runs, rides and swims |
| Summary.StoredZones | models/workout.js:121-158 | a zones object as a sequence of its eight fields: the two flags `hasWatts` and `hasHeartRate`, then the six zones; the order is fixed by the model, not by the database (see Left out) |
| Summary.StoredZonesKnown | tools/summary.js:38-45 | every key a stored zones object counts is one of the corrected totals' keys; the as-written totals lack 'Threshold' |
| Summary.ThresholdMisspelled | tools/summary.js:42 | worked example for one run with 3 Threshold seconds: as written 'Threshold' becomes NaN and 'Theshold' stays 0; corrected, 'Threshold' holds 3 |
| Summary.ZoneFoldUntouched | tools/summary.js:48-59 | a zone total that no counted field of an admitted workout names keeps its initial value, for every list of workouts (one workout: `AddZonesUntouched`) |
| Summary.ZoneFoldMissingKey | tools/summary.js:48-59 | a zone name missing from the initial totals is present after the loop exactly when some admitted workout counts seconds under it, and is then NaN (one workout: `AddZonesNaN`) |
| Summary.ThesholdStaysZero | tools/summary.js:42 | as written, for every list of workouts whose zone names are the six titles, 'Theshold' is never incremented and stays 0 |
| Summary.ThresholdNeverFinite | tools/summary.js:42 | as written, for every list of workouts, a 'Threshold' total appears exactly when some run or swim has Threshold seconds, and it is then NaN |
| Summary.AnaerobicCountsOnlyWatts | tools/summary.js:53-55 | the stored Anaerobic field counts exactly when it has watt-seconds and then adds those, as the source's missing hr-seconds would |
| Summary.RidesNotSummed | tools/summary.js:5 | worked example for one ride with 5 Recovery seconds: as written the Recovery total stays 0; corrected, it holds 5 |
| Summary.RideNeverCounted | tools/summary.js:5 | as written, appending a ride to any list of workouts leaves every zone total unchanged |
| Summary.BucketSumStep | tools/summary.js:73-96 | with distinct bucket names, one more workout adds its value to the bucket sum exactly when it has a bucket |
| Summary.BucketsPartitionTotal | tools/summary.js:71-96 | the buckets plus the workouts without a bucket add up to the total |
| Summary.BucketSumEmpty | tools/summary.js:20-34 | with no workouts, every bucket sum is 0 |
| Summary.UnbucketedBounds | tools/summary.js:71-96 | with non-negative values the unbucketed remainder is non-negative, and 0 when every workout has a bucket |
| Summary.DurationBucketsWithinTotal | tools/summary.js:71-84 | with non-negative durations the four duration buckets never exceed `total_duration`, and equal it when every workout has a bucket (the four entries added: `BucketSumOfFour`) |
| Summary.DistanceBucketsWithinTotal | tools/summary.js:86-96 | with non-negative lengths the three distance buckets never exceed `total_distance`, and equal it when every workout is a run, ride or swim (the three entries added: `BucketSumOfThree`) |
| Users.Id | models/user.js:19 | definition of `record.id`: the `id` field when present, otherwise undefined |
| Users.OtherViewer | models/user.js:19 | definition of line 19's test: a viewer is given and its `id` differs from the record's |
| Users.Formatted | models/user.js:8-34 | the returned record is a sub-record of the input: every field it has, it has with the input's value |
| Users.UserRecord.Delete | models/user.js:14 | `delete user[key]` removes that key and nothing else |
| Users.FormatUser | models/user.js:8-34 | the result's fields are the formatted input; a plain object is trimmed in place and returned; a model instance leaves the original untouched and returns a fresh copy |
| Users.HideSecrets | models/user.js:13-16 | exactly `password`, `email` and `iat` are removed |
| Users.HidePrivate | models/user.js:18-32 | exactly the twelve private fields are removed |
| Users.HideProfile | models/user.js:20-25 | exactly the id and the zone and threshold fields are removed |
| Users.HideAccounts | models/user.js:26-31 | exactly the account, sync and timestamp fields are removed |
| Users.SecretsNeverShown | models/user.js:13-32 | `password`, `email` and `iat` are never returned; another viewer sees none of the twelve private fields |
| Users.OtherFieldsKept | models/user.js:8-34 | a field in neither list is returned exactly when present, with its value; a private field is returned exactly when present and the viewer is absent or the user themself |
| Users.FormatIdempotent | models/user.js:14-32 | formatting an already formatted record for the same viewer changes nothing |

## Left out

- Database queries, stream fetches, moment date arithmetic and Redis caching are left out; their results are inputs (the workout sequences, streams and zone tables).
- Floating point is replaced by exact reals. The rounding drift of `springFactor` and of the averages is not modelled.
- The dead third query and loop of `getTrainingLoad` (models/workout.js:95-112) is left out: line 114 overwrites its result.
- TrainingLoad.TrainingLoadYesterday: requires `daysToInclude >= 1`. With 0 the code divides by zero, giving `Infinity` or `NaN`; this is not modelled.
- TrainingLoad.GetTrainingLoad: requires `daysToInclude >= 1`, for the same reason.
- TrainingLoad.TrainingLoadYesterday and TrainingLoad.GetTrainingLoad take `daysToInclude` as an explicit parameter. The default argument `daysToInclude = 42` (models/workout.js:63, 90) is not modelled; a caller that omits it corresponds to passing 42.
- The training-load tail of `getSummary` (tools/summary.js:99-105) is left out: fitness, fatigue, form and the start and end dates. It calls `getTrainingLoad` with the actor in the date's place, which is not part of this model.
- ZoneDistribution.BuildZoneDistribution: requires heart-rate zone tables not to contain an 'Anaerobic' band. The code would add 1 to that zone's missing `hr-seconds`, giving NaN.
- ZoneDistribution.EmptyZones: the Anaerobic zone's heart-rate counters are absent in the code (models/workout.js:154-157); the model stores 0. The only reader, line 53 of tools/summary.js, treats `undefined` and 0 alike (`AnaerobicCountsOnlyWatts`). A direct read of `zones.Anaerobic['hr-seconds']` gives `undefined` in the code and 0 in the model.
- ZoneDistribution.BuildZoneDistribution: zone titles are restricted to the six keys of the zones object. An unknown title throws in the code; this error path is not modelled.
- ZoneDistribution.BuildZoneDistribution: zone bounds and samples are integers.
- Interpolation.InterpolateArray: requires a non-empty `data`. The code reads `data[0]` and `data[data.length - 1]` as `undefined` there; undefined array elements are not modelled.
- Interpolation.InterpolateArray: `fitCount` is an integer; a fractional `fitCount` is not modelled.
- Summary.GetSummary: `activity` is compared with `==` on strings only. JavaScript's loose comparison of other types is not modelled.
- Users.OtherViewer: ids are compared with strict inequality. models/user.js:19 uses JavaScript's loose `!=`, under which `5` and `"5"`, or `null` and `undefined`, are the same viewer; ids of different types are not modelled.
- Summary.StoredZones: `GetSummary` takes each workout's zone fields as a sequence, in whatever order it is given. Only `StoredZones`, used by `StoredZonesKnown` and `AnaerobicCountsOnlyWatts`, fixes one order for a zones object written by `buildZoneDistribution`. The code visits the keys in `Object.keys` order. `zones` is a `JSONB` column (models/workout.js:24) on Postgres (database.js:4), and jsonb does not keep insertion order, so that order is not the literal's of models/workout.js:121-158. Each key only updates its own total (`AddZonesIsKeySum`: a total grows by the sum of its own key's seconds), so the totals do not depend on the order. The model does not prove that reordering the fields leaves that sum unchanged.
- Users.FormatUser: the `plain` flag stands for whether `user.get` exists, that is, whether the argument is a model instance or a plain object. For a model instance, the copy's fields are the instance's fields.
- Users.FormatUser: the `if (user && ...)` null check on line 19 is not modelled for a null `user`. Lines 14-16 already throw on a null `user`, so the function never returns in that case.
- `findHRTSS`, the recording model, the controllers, middleware, cache, database, server, schema and migration files are not part of this model.

## Findings

| source | as written | input that shows it | evidently intended | confidence | as-written member | corrected member |
|---|---|---|---|---|---|---|
| models/workout.js:237-312 | every bucket block is guarded by `i + w < listLength`, so the window that ends at the last sample is never considered | power stream `[0, 5]`: the 'max' bucket stays 0 although a sample of 5 was recorded (and no stream of length `w` gets a `w`-second best) | `i + w <= listLength`: every full window counts | medium, not executed | Bests.StrictGuardLosesLastWindow | Bests.IntendedBestCoversEveryWindow |
| tools/summary.js:42 | the zone totals are initialised with 'Theshold', but zones objects use 'Threshold' (models/workout.js:142) | any run or swim with Threshold seconds: 'Threshold' becomes NaN (`undefined + n`) and 'Theshold' stays 0 (worked example: `ThresholdMisspelled`, one run with 3 Threshold seconds; 'Theshold' for every input: `ThesholdStaysZero`) | the key 'Threshold' | high, not executed | Summary.ThresholdNeverFinite | Summary.SummaryZoneTotals |
| tools/summary.js:5 | the activity types whose zones are summed are 'run', 'bike', 'swim', but rides are stored as 'ride' (tools/summary.js:76) | any ride: appending it leaves every zone total unchanged (worked example: `RidesNotSummed`, one ride with 5 Recovery seconds) | 'ride' in place of 'bike' | high, not executed | Summary.RideNeverCounted | Summary.GetSummary |

In each row the same loop method models both readings:

- `GetBests` takes a `Guard`: `Strict` as written, `Inclusive` as intended.
- `GetSummary` takes a `Reading`: `AsWritten` uses lines 5 and 42 as they are, `Corrected` uses the intended lists.
