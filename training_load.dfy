/** The arithmetic of `getEffortToday`, `getTrainingLoadYesterday` and
    `getTrainingLoad`. The store queries are abstracted: each routine receives
    the workouts its query would have returned. */
module TrainingLoad {
  import opened Js
  import opened Workouts

  /** `getEffortToday`: the fallback effort summed over today's workouts. */
  method EffortToday(todays: seq<Workout>) returns (effort: int)
    ensures effort == EffortSum(todays)
  {
    effort := 0;
    var k := 0;
    while k < |todays|
      invariant 0 <= k <= |todays|
      invariant effort == EffortSum(todays[..k])
    {
      var workout := todays[k];
      if Truthy(workout.effort) {
        effort := effort + workout.effort.value;
      } else if Truthy(workout.hrEffort) {
        effort := effort + workout.hrEffort.value;
      }
      assert todays[..k + 1][..k] == todays[..k];
      k := k + 1;
    }
    assert todays[..k] == todays;
  }

  /** `getTrainingLoadYesterday`: the window's fallback effort, averaged over
      `daysToInclude` days and rounded. */
  method TrainingLoadYesterday(window: seq<Workout>, daysToInclude: nat) returns (fitness: int)
    requires daysToInclude >= 1
    ensures fitness == Round(EffortSum(window) as real / daysToInclude as real)
  {
    var total := 0;
    var k := 0;
    while k < |window|
      invariant 0 <= k <= |window|
      invariant total == EffortSum(window[..k])
    {
      var workout := window[k];
      if Truthy(workout.effort) {
        total := total + workout.effort.value;
      } else if Truthy(workout.hrEffort) {
        total := total + workout.hrEffort.value;
      }
      assert window[..k + 1][..k] == window[..k];
      k := k + 1;
    }
    assert window[..k] == window;
    fitness := Round(total as real / daysToInclude as real);
  }

  /** The update of line 114, rounded: one step of an exponentially weighted
      average towards today's effort. The result lies between yesterday's load
      and today's effort, and a steady state is a fixed point. */
  function NextLoad(yesterday: int, today: int, daysToInclude: nat): (r: int)
    requires daysToInclude >= 1
    ensures Min(yesterday, today) <= r <= Max(yesterday, today)
    ensures today == yesterday ==> r == yesterday
    ensures daysToInclude == 1 ==> r == today
  {
    var step := (today - yesterday) as real / daysToInclude as real;
    var x := yesterday as real + step;
    StepBetween(yesterday, today, daysToInclude);
    RoundBetween(x, Min(yesterday, today), Max(yesterday, today));
    Round(x)
  }

  lemma StepBetween(yesterday: int, today: int, daysToInclude: nat)
    requires daysToInclude >= 1
    ensures var x := yesterday as real + (today - yesterday) as real / daysToInclude as real;
            Min(yesterday, today) as real <= x <= Max(yesterday, today) as real
  {
    var d := (today - yesterday) as real;
    var n := daysToInclude as real;
    if d >= 0.0 {
      assert 0.0 <= d / n <= d by {
        assert d / n * n == d;
      }
    } else {
      assert d <= d / n <= 0.0 by {
        assert d / n * n == d;
      }
    }
  }

  /** `getTrainingLoad`: yesterday's load from the shifted window, today's effort,
      and the weighted update between them. */
  method GetTrainingLoad(yesterdayWindow: seq<Workout>, todays: seq<Workout>, daysToInclude: nat)
    returns (trainingLoad: int)
    requires daysToInclude >= 1
    ensures trainingLoad == NextLoad(Round(EffortSum(yesterdayWindow) as real / daysToInclude as real),
                                     EffortSum(todays), daysToInclude)
  {
    var yesterdayTrainingLoad := TrainingLoadYesterday(yesterdayWindow, daysToInclude);
    var todayEffort := EffortToday(todays);
    trainingLoad := NextLoad(yesterdayTrainingLoad, todayEffort, daysToInclude);
  }

  /** With no effort recorded anywhere, the training load is 0. */
  lemma {:induction false} NoEffortNoLoad(yesterdayWindow: seq<Workout>, todays: seq<Workout>, daysToInclude: nat)
    requires daysToInclude >= 1
    requires forall i :: 0 <= i < |yesterdayWindow| ==> Contribution(yesterdayWindow[i]) == 0
    requires forall i :: 0 <= i < |todays| ==> Contribution(todays[i]) == 0
    ensures NextLoad(Round(EffortSum(yesterdayWindow) as real / daysToInclude as real),
                     EffortSum(todays), daysToInclude) == 0
  {
    EffortSumBounds(yesterdayWindow, 0, 0);
    EffortSumBounds(todays, 0, 0);
    RoundOfInt(0);
  }
}
