/** The accumulation loop of `getSummary`: per-zone seconds, effort, durations,
    distances and the ids of the workouts in a date range. The query that
    selects the workouts is abstracted: the loop receives them in query order. */
module Summary {
  import opened Js
  import opened Workouts
  import ZoneDistribution

  /** The summary object's fields that the loop writes. */
  datatype SummaryRecord = SummaryRecord(
    effort: int,
    totalDuration: int,
    activityDuration: map<string, int>,
    totalDistance: int,
    activityDistance: map<string, int>,
    zoneDistribution: map<string, Number>,
    workoutIds: seq<int>)

  /** Line 5 as written: 'bike' where the stored activity type is 'ride'. */
  const ValidActivitiesAsWritten: seq<string> := ["run", "bike", "swim"]
  /** The activity types whose zones evidently were meant to be summed. */
  const ValidActivities: seq<string> := ["run", "ride", "swim"]

  /** Lines 38-45 as written: 'Theshold' where the zone is called 'Threshold'. */
  const ZoneInitAsWritten: map<string, Number> :=
    map["Recovery" := Finite(0), "Endurance" := Finite(0), "Tempo" := Finite(0),
        "Theshold" := Finite(0), "VO2 Max" := Finite(0), "Anaerobic" := Finite(0)]
  /** The zone totals evidently intended, keyed by the names `buildZoneDistribution` writes. */
  const ZoneInit: map<string, Number> :=
    map["Recovery" := Finite(0), "Endurance" := Finite(0), "Tempo" := Finite(0),
        "Threshold" := Finite(0), "VO2 Max" := Finite(0), "Anaerobic" := Finite(0)]

  /** Which lists the loop uses: lines 5 and 38-45 as written, or corrected. */
  datatype Reading = AsWritten | Corrected

  function ValidFor(reading: Reading): seq<string>
  {
    match reading
    case AsWritten => ValidActivitiesAsWritten
    case Corrected => ValidActivities
  }

  function ZoneInitFor(reading: Reading): map<string, Number>
  {
    match reading
    case AsWritten => ZoneInitAsWritten
    case Corrected => ZoneInit
  }

  /** The two boolean keys of a zones object, skipped by line 51. */
  predicate FlagKey(key: string)
  {
    key == "hasHeartRate" || key == "hasWatts"
  }

  /** Line 53: watt-seconds when truthy, else hr-seconds; a boolean field has neither. */
  function Preferred(f: ZoneField): int
  {
    match f
    case FlagField(_, _) => 0
    case SecondsField(_, wattSeconds, hrSeconds) => if wattSeconds != 0 then wattSeconds else hrSeconds
  }

  /** A field line 55 adds to the totals. */
  predicate Counts(f: ZoneField)
  {
    !FlagKey(f.key) && Preferred(f) != 0
  }

  /** `total[key] += n`: a key missing from the totals reads as undefined and
      the sum is NaN; a NaN total stays NaN. */
  function AddTo(dist: map<string, Number>, key: string, n: int): map<string, Number>
  {
    dist[key := if key in dist then Plus(dist[key], n) else NaN]
  }

  /** One iteration of the loop of lines 50-58. */
  function AddField(dist: map<string, Number>, f: ZoneField): map<string, Number>
  {
    if Counts(f) then AddTo(dist, f.key, Preferred(f)) else dist
  }

  /** The loop of lines 50-58 over the keys of one workout's zones object, in the order given. */
  function AddZones(dist: map<string, Number>, fields: seq<ZoneField>): map<string, Number>
  {
    if fields == [] then dist else AddField(AddZones(dist, fields[..|fields| - 1]), fields[|fields| - 1])
  }

  /** Line 49: the zones of workouts with zones and an admitted activity are summed. */
  function WorkoutZones(dist: map<string, Number>, valid: seq<string>, w: Workout): map<string, Number>
  {
    if w.zones.Some? && w.activity in valid then AddZones(dist, w.zones.value) else dist
  }

  /** The zone totals after the whole outer loop. */
  function ZoneFold(init: map<string, Number>, valid: seq<string>, ws: seq<Workout>): map<string, Number>
  {
    if ws == [] then init else WorkoutZones(ZoneFold(init, valid, ws[..|ws| - 1]), valid, ws[|ws| - 1])
  }

  /** The reference for the zone totals: the preferred seconds of every counted
      field named `key`, summed over the admitted workouts. */
  function KeySeconds(fields: seq<ZoneField>, key: string): int
  {
    if fields == [] then 0
    else KeySeconds(fields[..|fields| - 1], key)
         + (var f := fields[|fields| - 1]; if Counts(f) && f.key == key then Preferred(f) else 0)
  }

  function ZoneSeconds(ws: seq<Workout>, valid: seq<string>, key: string): int
  {
    if ws == [] then 0
    else ZoneSeconds(ws[..|ws| - 1], valid, key)
         + (var w := ws[|ws| - 1]; if w.zones.Some? && w.activity in valid then KeySeconds(w.zones.value, key) else 0)
  }

  /** Every field that is counted names a key the totals already have. */
  predicate KnownKeys(fields: seq<ZoneField>, keys: set<string>)
  {
    forall i :: 0 <= i < |fields| && Counts(fields[i]) ==> fields[i].key in keys
  }

  predicate AllKnown(ws: seq<Workout>, valid: seq<string>, keys: set<string>)
  {
    forall i :: 0 <= i < |ws| && ws[i].zones.Some? && ws[i].activity in valid ==> KnownKeys(ws[i].zones.value, keys)
  }

  // ----- Durations, distances and ids -----

  datatype Metric = Duration | Distance

  function Value(w: Workout, m: Metric): int
  {
    match m
    case Duration => w.duration
    case Distance => w.length
  }

  /** `total_duration` / `total_distance`. */
  function Total(ws: seq<Workout>, m: Metric): int
  {
    if ws == [] then 0 else Total(ws[..|ws| - 1], m) + Value(ws[|ws| - 1], m)
  }

  /** The `activity_duration` / `activity_distance` entry of one activity type. */
  function Bucket(ws: seq<Workout>, m: Metric, activity: string): int
  {
    if ws == [] then 0
    else Bucket(ws[..|ws| - 1], m, activity) + (if ws[|ws| - 1].activity == activity then Value(ws[|ws| - 1], m) else 0)
  }

  /** Lines 73-84 and 88-96: the activity types that have a bucket. */
  const DurationBuckets: seq<string> := ["run", "ride", "workout", "swim"]
  const DistanceBuckets: seq<string> := ["run", "ride", "swim"]

  function Buckets(ws: seq<Workout>, m: Metric, names: seq<string>): map<string, int>
  {
    map a | a in names :: Bucket(ws, m, a)
  }

  /** `workoutIds`, in loop order. */
  function Ids(ws: seq<Workout>): (r: seq<int>)
    ensures |r| == |ws|
    ensures forall i :: 0 <= i < |ws| ==> r[i] == ws[i].id
  {
    seq(|ws|, i requires 0 <= i < |ws| => ws[i].id)
  }

  // ----- The loop -----

  /** Lines 50-58 for one workout's zones object. */
  method AddWorkoutZones(dist: map<string, Number>, fields: seq<ZoneField>) returns (dist': map<string, Number>)
    ensures dist' == AddZones(dist, fields)
  {
    dist' := dist;
    var k := 0;
    while k < |fields|
      invariant 0 <= k <= |fields|
      invariant dist' == AddZones(dist, fields[..k])
    {
      var f := fields[k];
      if !FlagKey(f.key) {
        var preferredMetric := Preferred(f);
        if preferredMetric != 0 {
          dist' := AddTo(dist', f.key, preferredMetric);
        }
      }
      assert fields[..k + 1][..k] == fields[..k];
      k := k + 1;
    }
    assert fields[..k] == fields;
  }

  /** What the summary holds after the loop has seen `ws`. */
  function SummaryOf(ws: seq<Workout>, reading: Reading): SummaryRecord
  {
    SummaryRecord(EffortSum(ws), Total(ws, Duration), Buckets(ws, Duration, DurationBuckets),
                  Total(ws, Distance), Buckets(ws, Distance, DistanceBuckets),
                  ZoneFold(ZoneInitFor(reading), ValidFor(reading), ws), Ids(ws))
  }

  /** Lines 20-98: the initial summary and the loop over the workouts. */
  method GetSummary(workouts: seq<Workout>, reading: Reading) returns (summary: SummaryRecord)
    ensures summary == SummaryOf(workouts, reading)
  {
    summary := SummaryRecord(0, 0, map["run" := 0, "ride" := 0, "workout" := 0, "swim" := 0],
                             0, map["run" := 0, "ride" := 0, "swim" := 0], ZoneInitFor(reading), []);
    InitialSummary(reading);
    var k := 0;
    while k < |workouts|
      invariant 0 <= k <= |workouts|
      invariant summary == SummaryOf(workouts[..k], reading)
    {
      summary := AddWorkout(summary, workouts[k], reading, workouts[..k]);
      assert workouts[..k + 1] == workouts[..k] + [workouts[k]];
      k := k + 1;
    }
    assert workouts[..k] == workouts;
  }

  /** Lines 20-47: the summary before the loop is that of no workouts. */
  lemma InitialSummary(reading: Reading)
    ensures SummaryOf([], reading)
         == SummaryRecord(0, 0, map["run" := 0, "ride" := 0, "workout" := 0, "swim" := 0],
                          0, map["run" := 0, "ride" := 0, "swim" := 0], ZoneInitFor(reading), [])
  {
    assert Buckets([], Duration, DurationBuckets) == map["run" := 0, "ride" := 0, "workout" := 0, "swim" := 0];
    assert Buckets([], Distance, DistanceBuckets) == map["run" := 0, "ride" := 0, "swim" := 0];
  }

  /** One iteration of the loop of lines 48-98: the body in order. */
  method AddWorkout(summary: SummaryRecord, workout: Workout, reading: Reading, ghost done: seq<Workout>)
    returns (summary': SummaryRecord)
    requires summary == SummaryOf(done, reading)
    ensures summary' == SummaryOf(done + [workout], reading)
  {
    var zoneDistribution := AddZoneTotals(summary.zoneDistribution, workout, reading, done);
    var effort := summary.effort;
    if Truthy(workout.effort) {
      effort := effort + workout.effort.value;
    } else if Truthy(workout.hrEffort) {
      effort := effort + workout.hrEffort.value;
    }
    var totalDuration := summary.totalDuration + workout.duration;
    var activityDuration := AddDuration(summary.activityDuration, workout, done);
    var totalDistance := summary.totalDistance + workout.length;
    var activityDistance := AddDistance(summary.activityDistance, workout, done);
    var workoutIds := summary.workoutIds + [workout.id];
    summary' := SummaryRecord(effort, totalDuration, activityDuration, totalDistance, activityDistance,
                              zoneDistribution, workoutIds);
    StepFacts(done, workout);
  }

  /** Lines 49-59. */
  method AddZoneTotals(zoneDistribution: map<string, Number>, workout: Workout, reading: Reading,
                       ghost done: seq<Workout>)
    returns (zoneDistribution': map<string, Number>)
    requires zoneDistribution == ZoneFold(ZoneInitFor(reading), ValidFor(reading), done)
    ensures zoneDistribution' == ZoneFold(ZoneInitFor(reading), ValidFor(reading), done + [workout])
  {
    zoneDistribution' := zoneDistribution;
    if workout.zones.Some? && workout.activity in ValidFor(reading) {
      zoneDistribution' := AddWorkoutZones(zoneDistribution, workout.zones.value);
    }
    assert (done + [workout])[..|done|] == done;
  }

  /** Lines 73-84. */
  method AddDuration(activityDuration: map<string, int>, workout: Workout, ghost done: seq<Workout>)
    returns (activityDuration': map<string, int>)
    requires activityDuration == Buckets(done, Duration, DurationBuckets)
    ensures activityDuration' == Buckets(done + [workout], Duration, DurationBuckets)
  {
    activityDuration' := activityDuration;
    if workout.activity == "run" {
      activityDuration' := activityDuration["run" := activityDuration["run"] + workout.duration];
    } else if workout.activity == "ride" {
      activityDuration' := activityDuration["ride" := activityDuration["ride"] + workout.duration];
    } else if workout.activity == "workout" {
      activityDuration' := activityDuration["workout" := activityDuration["workout"] + workout.duration];
    } else if workout.activity == "swim" {
      activityDuration' := activityDuration["swim" := activityDuration["swim"] + workout.duration];
    }
    BucketNames(workout.activity);
    BucketsStep(done, workout, Duration, DurationBuckets);
  }

  /** Lines 88-96: strength workouts have no distance bucket. */
  method AddDistance(activityDistance: map<string, int>, workout: Workout, ghost done: seq<Workout>)
    returns (activityDistance': map<string, int>)
    requires activityDistance == Buckets(done, Distance, DistanceBuckets)
    ensures activityDistance' == Buckets(done + [workout], Distance, DistanceBuckets)
  {
    activityDistance' := activityDistance;
    if workout.activity == "run" {
      activityDistance' := activityDistance["run" := activityDistance["run"] + workout.length];
    } else if workout.activity == "ride" {
      activityDistance' := activityDistance["ride" := activityDistance["ride"] + workout.length];
    } else if workout.activity == "swim" {
      activityDistance' := activityDistance["swim" := activityDistance["swim"] + workout.length];
    }
    BucketNames(workout.activity);
    BucketsStep(done, workout, Distance, DistanceBuckets);
  }

  lemma BucketNames(a: string)
    ensures a in DurationBuckets <==> a == "run" || a == "ride" || a == "workout" || a == "swim"
    ensures a in DistanceBuckets <==> a == "run" || a == "ride" || a == "swim"
  {
  }

  /** Appending a workout adds its value to its own bucket, if it has one. */
  lemma BucketsStep(ws: seq<Workout>, w: Workout, m: Metric, names: seq<string>)
    ensures var before := Buckets(ws, m, names);
            Buckets(ws + [w], m, names)
              == if w.activity in names then before[w.activity := before[w.activity] + Value(w, m)] else before
  {
    assert (ws + [w])[..|ws|] == ws;
  }

  /** The folds of one more workout, unfolded once. */
  lemma StepFacts(ws: seq<Workout>, w: Workout)
    ensures EffortSum(ws + [w]) == EffortSum(ws) + Contribution(w)
    ensures Total(ws + [w], Duration) == Total(ws, Duration) + w.duration
    ensures Total(ws + [w], Distance) == Total(ws, Distance) + w.length
    ensures Ids(ws + [w]) == Ids(ws) + [w.id]
  {
    assert (ws + [w])[..|ws|] == ws;
  }

  // ----- What the totals mean -----

  /** Adding fields whose keys are all known keeps the key set. */
  lemma {:induction false} AddZonesKeys(dist: map<string, Number>, fields: seq<ZoneField>)
    requires KnownKeys(fields, dist.Keys)
    ensures AddZones(dist, fields).Keys == dist.Keys
  {
    if fields != [] {
      var init := fields[..|fields| - 1];
      assert KnownKeys(init, dist.Keys) by {
        forall i | 0 <= i < |init| && Counts(init[i]) ensures init[i].key in dist.Keys {
          assert init[i] == fields[i];
        }
      }
      AddZonesKeys(dist, init);
    }
  }

  /** With every key known, one workout's fields add exactly their preferred
      seconds to each zone total. */
  lemma {:induction false} AddZonesIsKeySum(dist: map<string, Number>, fields: seq<ZoneField>, key: string)
    requires KnownKeys(fields, dist.Keys)
    requires key in dist && dist[key].Finite?
    ensures key in AddZones(dist, fields)
    ensures AddZones(dist, fields)[key] == Finite(dist[key].n + KeySeconds(fields, key))
  {
    AddZonesKeys(dist, fields);
    if fields != [] {
      var init := fields[..|fields| - 1];
      assert KnownKeys(init, dist.Keys) by {
        forall i | 0 <= i < |init| && Counts(init[i]) ensures init[i].key in dist.Keys {
          assert init[i] == fields[i];
        }
      }
      AddZonesKeys(dist, init);
      AddZonesIsKeySum(dist, init, key);
    }
  }

  /** With every key known, the zone totals are the reference sums, and no key
      is added. */
  lemma {:induction false} ZoneFoldIsZoneSeconds(init: map<string, Number>, valid: seq<string>, ws: seq<Workout>,
                                                 key: string)
    requires AllKnown(ws, valid, init.Keys)
    requires key in init && init[key].Finite?
    ensures ZoneFold(init, valid, ws).Keys == init.Keys
    ensures ZoneFold(init, valid, ws)[key] == Finite(init[key].n + ZoneSeconds(ws, valid, key))
  {
    if ws != [] {
      var done := ws[..|ws| - 1];
      var w := ws[|ws| - 1];
      assert AllKnown(done, valid, init.Keys) by {
        forall i | 0 <= i < |done| && done[i].zones.Some? && done[i].activity in valid
          ensures KnownKeys(done[i].zones.value, init.Keys) {
          assert done[i] == ws[i];
        }
      }
      ZoneFoldIsZoneSeconds(init, valid, done, key);
      if w.zones.Some? && w.activity in valid {
        assert KnownKeys(w.zones.value, init.Keys);
        AddZonesKeys(ZoneFold(init, valid, done), w.zones.value);
        AddZonesIsKeySum(ZoneFold(init, valid, done), w.zones.value, key);
      }
    }
  }

  /** The corrected summary's zone totals: for workouts whose zone names are the
      six titles, each total is the finite sum of the preferred seconds of the
      runs, rides and swims. */
  lemma SummaryZoneTotals(ws: seq<Workout>, key: string)
    requires AllKnown(ws, ValidActivities, ZoneInit.Keys)
    requires key in ZoneInit
    ensures SummaryOf(ws, Corrected).zoneDistribution.Keys == ZoneInit.Keys
    ensures SummaryOf(ws, Corrected).zoneDistribution[key] == Finite(ZoneSeconds(ws, ValidActivities, key))
  {
    ZoneFoldIsZoneSeconds(ZoneInit, ValidActivities, ws, key);
  }

  /** The keys of a zones object as `buildZoneDistribution` stores it. */
  function TitleKey(t: ZoneDistribution.ZoneTitle): string
  {
    match t
    case Recovery => "Recovery"
    case Endurance => "Endurance"
    case Tempo => "Tempo"
    case Threshold => "Threshold"
    case VO2Max => "VO2 Max"
    case Anaerobic => "Anaerobic"
  }

  /** A zones object as a sequence of its fields, in one fixed order: the two
      flags, then the six zones. The database does not keep key order, and
      each key only updates its own total. */
  function StoredZones(z: ZoneDistribution.Zones): (r: seq<ZoneField>)
    requires forall t :: t in z.zones
    ensures |r| == 8 && r[0].key == "hasWatts" && r[1].key == "hasHeartRate"
  {
    var titles := [ZoneDistribution.Recovery, ZoneDistribution.Endurance, ZoneDistribution.Tempo,
                   ZoneDistribution.Threshold, ZoneDistribution.VO2Max, ZoneDistribution.Anaerobic];
    [FlagField("hasWatts", z.hasWatts), FlagField("hasHeartRate", z.hasHeartRate)]
      + seq(6, i requires 0 <= i < 6 =>
              SecondsField(TitleKey(titles[i]), z.zones[titles[i]].wattSeconds, z.zones[titles[i]].hrSeconds))
  }

  /** Every key a stored zones object counts is one of the corrected totals'
      keys; the as-written totals lack 'Threshold'. */
  lemma StoredZonesKnown(z: ZoneDistribution.Zones)
    requires forall t :: t in z.zones
    ensures KnownKeys(StoredZones(z), ZoneInit.Keys)
    ensures "Threshold" !in ZoneInitAsWritten
  {
    var r := StoredZones(z);
    forall i | 0 <= i < |r| && Counts(r[i]) ensures r[i].key in ZoneInit.Keys {
      assert 2 <= i;
    }
  }

  /** The code stores no heart-rate counters for 'Anaerobic', so line 53 reads
      `undefined` there; the model's 0 is read the same way: the field counts
      exactly when it has watt-seconds, and then contributes those. */
  lemma AnaerobicCountsOnlyWatts(z: ZoneDistribution.Zones)
    requires forall t :: t in z.zones
    requires z.zones[ZoneDistribution.Anaerobic].hrSeconds == 0
    ensures var f := StoredZones(z)[7];
            && f.key == "Anaerobic"
            && (Counts(f) <==> z.zones[ZoneDistribution.Anaerobic].wattSeconds != 0)
            && (Counts(f) ==> Preferred(f) == z.zones[ZoneDistribution.Anaerobic].wattSeconds)
  {
  }

  /** As written, a run with Threshold time turns the 'Threshold' total into NaN
      and leaves 'Theshold' at 0; the corrected totals hold the time. */
  lemma ThresholdMisspelled()
    ensures var w := Workout(1, "run", 60, 0, None, None, Some([SecondsField("Threshold", 3, 0)]));
            var asWritten := SummaryOf([w], AsWritten).zoneDistribution;
            var corrected := SummaryOf([w], Corrected).zoneDistribution;
            && "Threshold" in asWritten && asWritten["Threshold"] == NaN
            && "Theshold" in asWritten && asWritten["Theshold"] == Finite(0)
            && "Threshold" in corrected && corrected["Threshold"] == Finite(3)
  {
    var w := Workout(1, "run", 60, 0, None, None, Some([SecondsField("Threshold", 3, 0)]));
    var fields := [SecondsField("Threshold", 3, 0)];
    assert [w][..0] == [];
    assert fields[..0] == [];
    assert Counts(fields[0]);
  }

  /** As written, a ride's zones are never summed: its activity type is 'ride',
      not 'bike'. */
  lemma RidesNotSummed()
    ensures var w := Workout(1, "ride", 60, 0, None, None, Some([SecondsField("Recovery", 5, 0)]));
            var asWritten := SummaryOf([w], AsWritten).zoneDistribution;
            var corrected := SummaryOf([w], Corrected).zoneDistribution;
            && "Recovery" in asWritten && asWritten["Recovery"] == Finite(0)
            && "Recovery" in corrected && corrected["Recovery"] == Finite(5)
  {
    var w := Workout(1, "ride", 60, 0, None, None, Some([SecondsField("Recovery", 5, 0)]));
    var fields := [SecondsField("Recovery", 5, 0)];
    assert [w][..0] == [];
    assert fields[..0] == [];
    assert Counts(fields[0]);
    assert "ride" !in ValidActivitiesAsWritten;
  }

  /** Some counted field of `fields` names `key`. */
  predicate HasCounted(fields: seq<ZoneField>, key: string)
  {
    exists i :: 0 <= i < |fields| && Counts(fields[i]) && fields[i].key == key
  }

  /** Some admitted workout of `ws` has a counted field named `key`. */
  predicate SomeCounted(ws: seq<Workout>, valid: seq<string>, key: string)
  {
    exists i :: 0 <= i < |ws| && ws[i].zones.Some? && ws[i].activity in valid && HasCounted(ws[i].zones.value, key)
  }

  /** A total that no counted field names keeps its value. */
  lemma {:induction false} AddZonesUntouched(dist: map<string, Number>, fields: seq<ZoneField>, key: string)
    requires key in dist && !HasCounted(fields, key)
    ensures key in AddZones(dist, fields) && AddZones(dist, fields)[key] == dist[key]
  {
    if fields != [] {
      var init := fields[..|fields| - 1];
      assert !HasCounted(init, key) by {
        forall i | 0 <= i < |init| ensures !(Counts(init[i]) && init[i].key == key) {
          assert init[i] == fields[i];
        }
      }
      AddZonesUntouched(dist, init, key);
    }
  }

  /** The same over the whole outer loop. */
  lemma {:induction false} ZoneFoldUntouched(init: map<string, Number>, valid: seq<string>, ws: seq<Workout>,
                                             key: string)
    requires key in init && !SomeCounted(ws, valid, key)
    ensures key in ZoneFold(init, valid, ws) && ZoneFold(init, valid, ws)[key] == init[key]
  {
    if ws != [] {
      var done := ws[..|ws| - 1];
      var w := ws[|ws| - 1];
      assert !SomeCounted(done, valid, key) by {
        forall i | 0 <= i < |done|
          ensures !(done[i].zones.Some? && done[i].activity in valid && HasCounted(done[i].zones.value, key)) {
          assert done[i] == ws[i];
        }
      }
      ZoneFoldUntouched(init, valid, done, key);
      if w.zones.Some? && w.activity in valid {
        assert !HasCounted(w.zones.value, key);
        AddZonesUntouched(ZoneFold(init, valid, done), w.zones.value, key);
      }
    }
  }

  /** A total that is absent or NaN stays so: it is present after the loop of
      lines 50-58 exactly when it was before or some counted field names it, and
      it is then NaN. */
  lemma {:induction false} AddZonesNaN(dist: map<string, Number>, fields: seq<ZoneField>, key: string)
    requires key in dist ==> dist[key] == NaN
    ensures key in AddZones(dist, fields) <==> key in dist || HasCounted(fields, key)
    ensures key in AddZones(dist, fields) ==> AddZones(dist, fields)[key] == NaN
  {
    if fields != [] {
      var init := fields[..|fields| - 1];
      var f := fields[|fields| - 1];
      AddZonesNaN(dist, init, key);
      assert HasCounted(fields, key) <==> HasCounted(init, key) || (Counts(f) && f.key == key) by {
        if HasCounted(init, key) {
          var i :| 0 <= i < |init| && Counts(init[i]) && init[i].key == key;
          assert fields[i] == init[i];
        }
        if HasCounted(fields, key) && !(Counts(f) && f.key == key) {
          var i :| 0 <= i < |fields| && Counts(fields[i]) && fields[i].key == key;
          assert i < |init| && init[i] == fields[i];
        }
      }
    }
  }

  /** A zone name missing from the initial totals is present after the whole
      outer loop exactly when some admitted workout counts seconds under it, and
      it is then NaN. */
  lemma {:induction false} ZoneFoldMissingKey(init: map<string, Number>, valid: seq<string>, ws: seq<Workout>,
                                              key: string)
    requires key !in init
    ensures key in ZoneFold(init, valid, ws) <==> SomeCounted(ws, valid, key)
    ensures key in ZoneFold(init, valid, ws) ==> ZoneFold(init, valid, ws)[key] == NaN
  {
    if ws != [] {
      var done := ws[..|ws| - 1];
      var w := ws[|ws| - 1];
      var before := ZoneFold(init, valid, done);
      ZoneFoldMissingKey(init, valid, done, key);
      var admitted := w.zones.Some? && w.activity in valid;
      if admitted {
        AddZonesNaN(before, w.zones.value, key);
      }
      assert SomeCounted(ws, valid, key) <==> SomeCounted(done, valid, key) || (admitted && HasCounted(w.zones.value, key)) by {
        if SomeCounted(done, valid, key) {
          var i :| 0 <= i < |done| && done[i].zones.Some? && done[i].activity in valid && HasCounted(done[i].zones.value, key);
          assert ws[i] == done[i];
        }
        if SomeCounted(ws, valid, key) && !(admitted && HasCounted(w.zones.value, key)) {
          var i :| 0 <= i < |ws| && ws[i].zones.Some? && ws[i].activity in valid && HasCounted(ws[i].zones.value, key);
          assert i < |done| && done[i] == ws[i];
        }
      }
    }
  }

  /** As written, for any workouts whose zone names are the six titles, the
      'Theshold' total is never incremented: it stays 0. */
  lemma ThesholdStaysZero(ws: seq<Workout>)
    requires AllKnown(ws, ValidActivitiesAsWritten, ZoneInit.Keys)
    ensures var r := SummaryOf(ws, AsWritten).zoneDistribution;
            "Theshold" in r && r["Theshold"] == Finite(0)
  {
    assert !SomeCounted(ws, ValidActivitiesAsWritten, "Theshold") by {
      forall i | 0 <= i < |ws| && ws[i].zones.Some? && ws[i].activity in ValidActivitiesAsWritten
        ensures !HasCounted(ws[i].zones.value, "Theshold") {
        assert KnownKeys(ws[i].zones.value, ZoneInit.Keys);
      }
    }
    ZoneFoldUntouched(ZoneInitAsWritten, ValidActivitiesAsWritten, ws, "Theshold");
  }

  /** As written, for any workouts, a 'Threshold' total appears exactly when some
      run or swim has Threshold seconds, and it is then NaN: it never holds a number. */
  lemma ThresholdNeverFinite(ws: seq<Workout>)
    ensures var r := SummaryOf(ws, AsWritten).zoneDistribution;
            && ("Threshold" in r <==> SomeCounted(ws, ValidActivitiesAsWritten, "Threshold"))
            && ("Threshold" in r ==> r["Threshold"] == NaN)
  {
    ZoneFoldMissingKey(ZoneInitAsWritten, ValidActivitiesAsWritten, ws, "Threshold");
  }

  /** As written, a ride never contributes zone seconds, whatever came before it. */
  lemma RideNeverCounted(ws: seq<Workout>, w: Workout)
    requires w.activity == "ride"
    ensures SummaryOf(ws + [w], AsWritten).zoneDistribution == SummaryOf(ws, AsWritten).zoneDistribution
  {
    assert (ws + [w])[..|ws|] == ws;
    assert "ride" !in ValidActivitiesAsWritten;
  }

  /** The bucket entries of `names` added up. */
  function BucketSum(ws: seq<Workout>, m: Metric, names: seq<string>): int
  {
    if names == [] then 0 else BucketSum(ws, m, names[..|names| - 1]) + Bucket(ws, m, names[|names| - 1])
  }

  /** What the workouts without a bucket add to the total. */
  function Unbucketed(ws: seq<Workout>, m: Metric, names: seq<string>): int
  {
    if ws == [] then 0
    else Unbucketed(ws[..|ws| - 1], m, names) + (if ws[|ws| - 1].activity in names then 0 else Value(ws[|ws| - 1], m))
  }

  predicate Distinct(names: seq<string>)
  {
    forall i, j :: 0 <= i < j < |names| ==> names[i] != names[j]
  }

  lemma {:induction false} BucketSumStep(ws: seq<Workout>, m: Metric, names: seq<string>)
    requires ws != [] && Distinct(names)
    ensures var w := ws[|ws| - 1];
            BucketSum(ws, m, names) == BucketSum(ws[..|ws| - 1], m, names) + (if w.activity in names then Value(w, m) else 0)
  {
    if names != [] {
      var init := names[..|names| - 1];
      assert Distinct(init);
      BucketSumStep(ws, m, init);
      var w := ws[|ws| - 1];
      assert w.activity in names <==> w.activity in init || w.activity == names[|names| - 1];
      if w.activity == names[|names| - 1] {
        assert w.activity !in init;
      }
    }
  }

  /** The buckets and the unbucketed workouts add up to the total. */
  lemma {:induction false} BucketsPartitionTotal(ws: seq<Workout>, m: Metric, names: seq<string>)
    requires Distinct(names)
    ensures BucketSum(ws, m, names) + Unbucketed(ws, m, names) == Total(ws, m)
  {
    if ws == [] {
      BucketSumEmpty(m, names);
    } else {
      BucketsPartitionTotal(ws[..|ws| - 1], m, names);
      BucketSumStep(ws, m, names);
    }
  }

  lemma {:induction false} BucketSumEmpty(m: Metric, names: seq<string>)
    ensures BucketSum([], m, names) == 0
  {
    if names != [] {
      BucketSumEmpty(m, names[..|names| - 1]);
    }
  }

  lemma {:induction false} UnbucketedBounds(ws: seq<Workout>, m: Metric, names: seq<string>)
    requires forall i :: 0 <= i < |ws| ==> Value(ws[i], m) >= 0
    ensures Unbucketed(ws, m, names) >= 0
    ensures (forall i :: 0 <= i < |ws| ==> ws[i].activity in names) ==> Unbucketed(ws, m, names) == 0
  {
    if ws != [] {
      UnbucketedBounds(ws[..|ws| - 1], m, names);
    }
  }

  /** With non-negative durations, the four duration buckets of the summary
      never exceed the total duration, and equal it when every workout is a
      run, ride, strength workout or swim. */
  lemma DurationBucketsWithinTotal(ws: seq<Workout>, reading: Reading)
    requires forall i :: 0 <= i < |ws| ==> ws[i].duration >= 0
    ensures var s := SummaryOf(ws, reading);
            var sum := s.activityDuration["run"] + s.activityDuration["ride"]
                       + s.activityDuration["workout"] + s.activityDuration["swim"];
            && sum <= s.totalDuration
            && ((forall i :: 0 <= i < |ws| ==> ws[i].activity in DurationBuckets) ==> sum == s.totalDuration)
  {
    BucketsPartitionTotal(ws, Duration, DurationBuckets);
    UnbucketedBounds(ws, Duration, DurationBuckets);
    BucketSumOfFour(ws, Duration, "run", "ride", "workout", "swim");
  }

  /** The same for the three distance buckets: a strength workout's distance
      counts towards the total only. */
  lemma DistanceBucketsWithinTotal(ws: seq<Workout>, reading: Reading)
    requires forall i :: 0 <= i < |ws| ==> ws[i].length >= 0
    ensures var s := SummaryOf(ws, reading);
            var sum := s.activityDistance["run"] + s.activityDistance["ride"] + s.activityDistance["swim"];
            && sum <= s.totalDistance
            && ((forall i :: 0 <= i < |ws| ==> ws[i].activity in DistanceBuckets) ==> sum == s.totalDistance)
  {
    BucketsPartitionTotal(ws, Distance, DistanceBuckets);
    UnbucketedBounds(ws, Distance, DistanceBuckets);
    BucketSumOfThree(ws, Distance, "run", "ride", "swim");
  }

  lemma BucketSumOfFour(ws: seq<Workout>, m: Metric, a: string, b: string, c: string, d: string)
    ensures BucketSum(ws, m, [a, b, c, d]) == Bucket(ws, m, a) + Bucket(ws, m, b) + Bucket(ws, m, c) + Bucket(ws, m, d)
  {
    assert [a, b, c, d][..3] == [a, b, c];
    assert BucketSum(ws, m, [a, b, c, d]) == BucketSum(ws, m, [a, b, c]) + Bucket(ws, m, d);
    BucketSumOfThree(ws, m, a, b, c);
  }

  lemma BucketSumOfThree(ws: seq<Workout>, m: Metric, a: string, b: string, c: string)
    ensures BucketSum(ws, m, [a, b, c]) == Bucket(ws, m, a) + Bucket(ws, m, b) + Bucket(ws, m, c)
  {
    assert [a, b, c][..2] == [a, b];
    assert [a, b][..1] == [a];
    assert [a][..0] == [];
    assert BucketSum(ws, m, [a, b, c]) == BucketSum(ws, m, [a, b]) + Bucket(ws, m, c);
    assert BucketSum(ws, m, [a, b]) == BucketSum(ws, m, [a]) + Bucket(ws, m, b);
    assert BucketSum(ws, m, [a]) == BucketSum(ws, m, []) + Bucket(ws, m, a);
  }
}
