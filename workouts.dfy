/** The fields of a stored workout row that the effort, training-load and
    summary routines read, and the effort fallback rule they all share. */
module Workouts {
  import opened Js

  /** One field of the `zones` JSON object stored with a workout:
      the two boolean flags, or a zone's second counters (an absent counter is 0). */
  datatype ZoneField =
    | FlagField(key: string, flag: bool)
    | SecondsField(key: string, wattSeconds: int, hrSeconds: int)

  datatype Workout = Workout(
    id: int,
    activity: string,
    duration: int,
    length: int,
    effort: Option<int>,
    hrEffort: Option<int>,
    zones: Option<seq<ZoneField>>)

  /** What one workout adds to a day's effort: `effort` if truthy, else
      `hr_effort` if truthy, else nothing. */
  function Contribution(w: Workout): int
  {
    if Truthy(w.effort) then w.effort.value
    else if Truthy(w.hrEffort) then w.hrEffort.value
    else 0
  }

  /** Summed effort of a list of workouts (the reference the loops are proved against). */
  function EffortSum(ws: seq<Workout>): int
  {
    if ws == [] then 0 else EffortSum(ws[..|ws| - 1]) + Contribution(ws[|ws| - 1])
  }

  /** The effort of a list is the sum of the efforts of its parts. */
  lemma {:induction false} EffortSumAppend(a: seq<Workout>, b: seq<Workout>)
    ensures EffortSum(a + b) == EffortSum(a) + EffortSum(b)
  {
    if b == [] {
      assert a + b == a;
    } else {
      assert (a + b)[..|a + b| - 1] == a + b[..|b| - 1];
      EffortSumAppend(a, b[..|b| - 1]);
    }
  }

  /** Efforts are bounded by the count of workouts times the largest contribution. */
  lemma {:induction false} EffortSumBounds(ws: seq<Workout>, lo: int, hi: int)
    requires forall i :: 0 <= i < |ws| ==> lo <= Contribution(ws[i]) <= hi
    ensures |ws| * lo <= EffortSum(ws) <= |ws| * hi
  {
    if ws != [] {
      EffortSumBounds(ws[..|ws| - 1], lo, hi);
    }
  }
}
