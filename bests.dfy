/** `buildStats` and `Workout.getBests`: the best rounded sliding-window average
    of the power and heart-rate streams for a fixed set of window lengths. */
module Bests {
  import opened Js
  import ZoneDistribution

  /** The duration buckets of the bests object, with their JSON labels in comments. */
  datatype Slice =
    | OneHour     // '1hr'
    | TwentyMin   // '20min'
    | TenMin      // '10min'
    | FiveMin     // '5min'
    | TwoMin      // '2min'
    | OneMin      // '1min'
    | ThirtySec   // '30sec'
    | FiveSec     // '5sec'
    | Peak        // 'max'

  /** Window length of a bucket, in samples (one sample per second). */
  function Duration(sl: Slice): (w: nat)
    ensures w >= 1
  {
    match sl
    case OneHour => 3600
    case TwentyMin => 1200
    case TenMin => 600
    case FiveMin => 300
    case TwoMin => 120
    case OneMin => 60
    case ThirtySec => 30
    case FiveSec => 5
    case Peak => 1
  }

  /** Position of a bucket in the scan of lines 236-312. */
  function Rank(sl: Slice): (r: nat)
    ensures r < 9
  {
    match sl
    case OneHour => 0
    case TwentyMin => 1
    case TenMin => 2
    case FiveMin => 3
    case TwoMin => 4
    case OneMin => 5
    case ThirtySec => 6
    case FiveSec => 7
    case Peak => 8
  }

  /** The buckets the heart-rate half of the object has. */
  predicate HeartRateSlice(sl: Slice)
  {
    sl.OneHour? || sl.TwentyMin? || sl.TenMin? || sl.FiveMin? || sl.Peak?
  }

  datatype BestsRecord = BestsRecord(hasHeartRate: bool, heartrate: map<Slice, int>,
                                     hasWatts: bool, watts: map<Slice, int>)

  /** `_.sum`. */
  function Sum(s: seq<int>): int
  {
    if s == [] then 0 else s[0] + Sum(s[1..])
  }

  /** Sum of the window of `w` samples starting at `i`. */
  function WindowSum(s: seq<int>, i: nat, w: nat): int
    requires i + w <= |s|
  {
    Sum(s[i..i + w])
  }

  /** `sum / timeSlice.length` for a full window. */
  function Mean(s: seq<int>, i: nat, w: nat): real
    requires w >= 1 && i + w <= |s|
  {
    WindowSum(s, i, w) as real / w as real
  }

  /** The guard of each bucket block: `i + w < listLength` as written (lines 237,
      247, 257, 267, 277, 284, 291, 298, 305), or the evidently intended
      `i + w <= listLength`, under which the last full window counts too. */
  datatype Guard = Strict | Inclusive

  predicate Admits(guard: Guard, i: nat, w: nat, listLength: nat)
  {
    match guard
    case Strict => i + w < listLength
    case Inclusive => i + w <= listLength
  }

  /** How many start offsets the guard admits: exactly the offsets below it. */
  function Starts(listLength: nat, w: nat, guard: Guard): (n: nat)
    ensures n == 0 || n - 1 + w <= listLength
  {
    match guard
    case Strict => if listLength > w then listLength - w else 0
    case Inclusive => if listLength >= w then listLength - w + 1 else 0
  }

  lemma AdmitsBelowStarts(guard: Guard, i: nat, w: nat, listLength: nat)
    ensures Admits(guard, i, w, listLength) <==> i < Starts(listLength, w, guard)
  {
  }

  /** Largest window sum among the first `k` start offsets. */
  function MaxWindowSum(s: seq<int>, w: nat, k: nat): (r: int)
    requires 1 <= k && k - 1 + w <= |s|
    ensures forall j :: 0 <= j < k ==> WindowSum(s, j, w) <= r
    ensures exists j :: 0 <= j < k && r == WindowSum(s, j, w)
  {
    if k == 1 then WindowSum(s, 0, w)
    else Max(MaxWindowSum(s, w, k - 1), WindowSum(s, k - 1, w))
  }

  /** The closed form of a bucket after `k` start offsets: the rounded largest
      mean, floored at the initial 0 of the bests object. */
  function RoundedMaxMean(s: seq<int>, w: nat, k: nat): int
    requires w >= 1 && (k == 0 || k - 1 + w <= |s|)
  {
    if k == 0 then 0 else Max(0, Round(MaxWindowSum(s, w, k) as real / w as real))
  }

  /** The best of a scanned stream: every admitted start offset considered. */
  function WindowBest(s: seq<int>, w: nat, guard: Guard): int
    requires w >= 1
  {
    RoundedMaxMean(s, w, Starts(|s|, w, guard))
  }

  /** The update `buildStats` applies to a bucket holding `best`. */
  function Improve(best: int, average: real): (r: int)
    ensures r >= best
    ensures r != best ==> r == Round(average)
    ensures r == best || r as real > average - 0.5
  {
    if average > best as real then Round(average) else best
  }

  /** A bucket after `buildStats` has run on the first `k` start offsets, one at a time. */
  function Scanned(s: seq<int>, w: nat, k: nat): int
    requires w >= 1 && (k == 0 || k - 1 + w <= |s|)
  {
    if k == 0 then 0 else Improve(Scanned(s, w, k - 1), Mean(s, k - 1, w))
  }

  /** Replacing on a strict `>` with the rounded mean, offset by offset, stores
      the rounded running maximum. */
  lemma {:induction false} ScannedIsRoundedMaxMean(s: seq<int>, w: nat, k: nat)
    requires w >= 1 && (k == 0 || k - 1 + w <= |s|)
    ensures Scanned(s, w, k) == RoundedMaxMean(s, w, k)
  {
    if k > 0 {
      ScannedIsRoundedMaxMean(s, w, k - 1);
      BestStep(s, w, k - 1);
    }
  }

  /** What a bucket holds after `k` loop iterations: a stream whose length is not
      `listLength` is never scanned and stays 0. */
  function Expected(s: seq<int>, listLength: nat, sl: Slice, k: nat, guard: Guard): int
  {
    if |s| == listLength then Scanned(s, Duration(sl), Min(k, Starts(listLength, Duration(sl), guard))) else 0
  }

  /** One step of the closed form follows the update of `buildStats`. */
  lemma BestStep(s: seq<int>, w: nat, k: nat)
    requires w >= 1 && k + w <= |s|
    ensures RoundedMaxMean(s, w, k + 1) == Improve(RoundedMaxMean(s, w, k), Mean(s, k, w))
  {
    var a := Mean(s, k, w);
    var b := RoundedMaxMean(s, w, k);
    if k == 0 {
      RoundOfInt(0);
      if a > 0.0 {
        RoundAbove(a, 0);
      } else {
        RoundMonotone(a, 0.0);
      }
    } else {
      var previous := MaxWindowSum(s, w, k) as real / w as real;
      var next := MaxWindowSum(s, w, k + 1) as real / w as real;
      assert MaxWindowSum(s, w, k + 1) == Max(MaxWindowSum(s, w, k), WindowSum(s, k, w));
      DivideMonotone(MaxWindowSum(s, w, k), WindowSum(s, k, w), w);
      DivideMonotone(WindowSum(s, k, w), MaxWindowSum(s, w, k), w);
      assert next == if a >= previous then a else previous;
      if a > b as real {
        RoundAbove(a, b);
        if a < previous {
          RoundMonotone(a, previous);
        }
      } else {
        RoundMonotone(a, b as real);
        RoundOfInt(b);
        if a > previous {
          RoundMonotone(previous, a);
        }
      }
    }
  }

  lemma DivideMonotone(x: int, y: int, w: nat)
    requires w >= 1
    ensures x <= y ==> x as real / w as real <= y as real / w as real
  {
  }

  /** `buildStats` for start offset `i` of bucket `sl`. */
  method BuildStats(best: map<Slice, int>, list: seq<int>, i: nat, sl: Slice) returns (updated: map<Slice, int>)
    requires sl in best && i + Duration(sl) <= |list|
    ensures updated == best[sl := Improve(best[sl], Mean(list, i, Duration(sl)))]
  {
    var w := Duration(sl);
    var timeSlice := list[i..w + i];
    var sum := Sum(timeSlice);
    var average := sum as real / |timeSlice| as real;
    updated := best;
    if average > best[sl] as real {
      updated := best[sl := Round(average)];
    }
  }

  /** The buckets in the order the loop body of lines 236-312 visits them. */
  const Order: seq<Slice> := [OneHour, TwentyMin, TenMin, FiveMin, TwoMin, OneMin, ThirtySec, FiveSec, Peak]

  lemma OrderRanks(j: nat)
    requires j < |Order|
    ensures Rank(Order[j]) == j
  {
  }

  /** Bucket state in the middle of iteration `i`: buckets ranked below `r` have
      seen `i + 1` offsets, the others `i`. */
  ghost predicate ScannedTo(watts: map<Slice, int>, hr: map<Slice, int>, wattsStream: seq<int>, hrStream: seq<int>,
                            listLength: nat, guard: Guard, i: nat, r: nat)
  {
    && (forall sl :: sl in watts)
    && (forall sl :: sl in hr <==> HeartRateSlice(sl))
    && Stage(watts, wattsStream, listLength, guard, i, r)
    && Stage(hr, hrStream, listLength, guard, i, r)
  }

  /** The buckets of one stream's half of the object, midway through iteration `i`. */
  ghost predicate Stage(m: map<Slice, int>, s: seq<int>, listLength: nat, guard: Guard, i: nat, r: nat)
  {
    forall sl :: sl in m ==> m[sl] == Expected(s, listLength, sl, if Rank(sl) < r then i + 1 else i, guard)
  }

  /** One bucket's block of the loop body (lines 237-244 for '1hr', and so on):
      guarded by `guard`, each stream scanned only if its length is
      `listLength`, heart rate only for the heart-rate buckets. */
  method ScanSlice(watts: map<Slice, int>, hr: map<Slice, int>, wattsStream: seq<int>, hrStream: seq<int>,
                   listLength: nat, guard: Guard, i: nat, sl: Slice)
    returns (watts': map<Slice, int>, hr': map<Slice, int>)
    requires i < listLength
    requires ScannedTo(watts, hr, wattsStream, hrStream, listLength, guard, i, Rank(sl))
    ensures ScannedTo(watts', hr', wattsStream, hrStream, listLength, guard, i, Rank(sl) + 1)
  {
    var w := Duration(sl);
    watts', hr' := watts, hr;
    if Admits(guard, i, w, listLength) {
      if |wattsStream| == listLength {
        watts' := BuildStats(watts', wattsStream, i, sl);
      }
      if HeartRateSlice(sl) && |hrStream| == listLength {
        hr' := BuildStats(hr', hrStream, i, sl);
      }
    }
    StageStep(watts, watts', wattsStream, listLength, guard, i, sl);
    StageStep(hr, hr', hrStream, listLength, guard, i, sl);
  }

  /** A bucket block advances its own bucket by one offset when the guard admits
      it and leaves every other bucket alone. */
  lemma StageStep(m: map<Slice, int>, m': map<Slice, int>, s: seq<int>, listLength: nat, guard: Guard,
                  i: nat, sl: Slice)
    requires Stage(m, s, listLength, guard, i, Rank(sl))
    requires m' == if sl in m && Admits(guard, i, Duration(sl), listLength) && |s| == listLength
                   then m[sl := Improve(m[sl], Mean(s, i, Duration(sl)))] else m
    ensures Stage(m', s, listLength, guard, i, Rank(sl) + 1)
  {
    ExpectedStep(s, listLength, sl, guard, i);
    forall u | u in m'
      ensures m'[u] == Expected(s, listLength, u, if Rank(u) < Rank(sl) + 1 then i + 1 else i, guard)
    {
      if u != sl {
        RankInjective(u, sl);
      }
    }
  }

  lemma RankInjective(u: Slice, v: Slice)
    requires u != v
    ensures Rank(u) != Rank(v)
  {
  }

  /** In iteration `i` a bucket advances exactly when the guard admits offset `i`
      and the stream is scanned; otherwise it is already final or never scanned. */
  lemma ExpectedStep(s: seq<int>, listLength: nat, sl: Slice, guard: Guard, i: nat)
    ensures Admits(guard, i, Duration(sl), listLength) && |s| == listLength ==>
              i + Duration(sl) <= |s|
              && Expected(s, listLength, sl, i + 1, guard)
                 == Improve(Expected(s, listLength, sl, i, guard), Mean(s, i, Duration(sl)))
    ensures !(Admits(guard, i, Duration(sl), listLength) && |s| == listLength) ==>
              Expected(s, listLength, sl, i + 1, guard) == Expected(s, listLength, sl, i, guard)
  {
    AdmitsBelowStarts(guard, i, Duration(sl), listLength);
  }

  /** `Workout.getBests`, under either guard. The stream fetch is abstracted:
      absent streams are empty. Every power bucket, and every heart-rate bucket
      the object has, holds the window best of its stream when that stream's
      length is the scanned length, and 0 otherwise. */
  method GetBests(heartrate: seq<int>, watts: seq<int>, guard: Guard) returns (bests: BestsRecord)
    ensures bests.hasWatts == (|watts| > 0)
    ensures bests.hasHeartRate == (|heartrate| > 0)
    ensures forall sl :: sl in bests.watts
    ensures forall sl :: sl in bests.heartrate <==> HeartRateSlice(sl)
    ensures forall sl :: bests.watts[sl]
              == if |watts| == BestsLength(heartrate, watts) then WindowBest(watts, Duration(sl), guard) else 0
    ensures forall sl :: sl in bests.heartrate ==> (bests.heartrate[sl]
              == if |heartrate| == BestsLength(heartrate, watts) then WindowBest(heartrate, Duration(sl), guard) else 0)
  {
    var listLength := BestsLength(heartrate, watts);
    var hrBests := map[OneHour := 0, TwentyMin := 0, TenMin := 0, FiveMin := 0, Peak := 0];
    var wattBests := map[OneHour := 0, TwentyMin := 0, TenMin := 0, FiveMin := 0, TwoMin := 0,
                         OneMin := 0, ThirtySec := 0, FiveSec := 0, Peak := 0];
    var hasWatts := |watts| > 0;
    var hasHeartRate := |heartrate| > 0;
    InitialScan(wattBests, hrBests, watts, heartrate, listLength, guard);
    wattBests, hrBests := ScanAll(wattBests, hrBests, watts, heartrate, listLength, guard);
    FinalScan(wattBests, hrBests, watts, heartrate, guard);
    bests := BestsRecord(hasHeartRate, hrBests, hasWatts, wattBests);
  }

  /** The loop of lines 235-313 over every start offset. */
  method ScanAll(wattBests: map<Slice, int>, hrBests: map<Slice, int>, watts: seq<int>, heartrate: seq<int>,
                 listLength: nat, guard: Guard)
    returns (wattBests': map<Slice, int>, hrBests': map<Slice, int>)
    requires ScannedTo(wattBests, hrBests, watts, heartrate, listLength, guard, 0, 0)
    ensures ScannedTo(wattBests', hrBests', watts, heartrate, listLength, guard, listLength, 0)
  {
    wattBests', hrBests' := wattBests, hrBests;
    var i := 0;
    while i < listLength
      invariant 0 <= i <= listLength
      invariant ScannedTo(wattBests', hrBests', watts, heartrate, listLength, guard, i, 0)
    {
      wattBests', hrBests' := ScanOffset(wattBests', hrBests', watts, heartrate, listLength, guard, i);
      i := i + 1;
    }
  }

  /** `heartrate?.length || watts?.length`. */
  function BestsLength(heartrate: seq<int>, watts: seq<int>): (n: nat)
    ensures n == |watts| || n == |heartrate|
    ensures n == 0 <==> |watts| == 0 && |heartrate| == 0
    ensures |heartrate| > 0 ==> n == |heartrate|
  {
    if |heartrate| > 0 then |heartrate| else |watts|
  }

  /** `buildZoneDistribution` takes its length from the power stream first and
      `getBests` from the heart-rate stream first: when both streams are present
      with different lengths they disagree, and `getBests` scans no power window. */
  lemma LengthChoiceDiffers(watts: seq<int>, heartrate: seq<int>)
    requires |watts| > 0 && |heartrate| > 0 && |watts| != |heartrate|
    ensures ZoneDistribution.ListLength(watts, heartrate) == |watts|
    ensures BestsLength(heartrate, watts) == |heartrate|
    ensures |watts| != BestsLength(heartrate, watts)
  {
  }

  /** The body of the loop of lines 235-313 for offset `i`: every bucket's block,
      in the order of `Order`. */
  method ScanOffset(wattBests: map<Slice, int>, hrBests: map<Slice, int>, watts: seq<int>, heartrate: seq<int>,
                    listLength: nat, guard: Guard, i: nat)
    returns (wattBests': map<Slice, int>, hrBests': map<Slice, int>)
    requires i < listLength
    requires ScannedTo(wattBests, hrBests, watts, heartrate, listLength, guard, i, 0)
    ensures ScannedTo(wattBests', hrBests', watts, heartrate, listLength, guard, i + 1, 0)
  {
    wattBests', hrBests' := wattBests, hrBests;
    var j := 0;
    while j < |Order|
      invariant 0 <= j <= |Order|
      invariant ScannedTo(wattBests', hrBests', watts, heartrate, listLength, guard, i, j)
    {
      OrderRanks(j);
      wattBests', hrBests' := ScanSlice(wattBests', hrBests', watts, heartrate, listLength, guard, i, Order[j]);
      j := j + 1;
    }
    NextIteration(wattBests', watts, listLength, guard, i);
    NextIteration(hrBests', heartrate, listLength, guard, i);
  }

  lemma InitialScan(watts: map<Slice, int>, hr: map<Slice, int>, wattsStream: seq<int>, hrStream: seq<int>,
                    listLength: nat, guard: Guard)
    requires watts == map[OneHour := 0, TwentyMin := 0, TenMin := 0, FiveMin := 0, TwoMin := 0,
                          OneMin := 0, ThirtySec := 0, FiveSec := 0, Peak := 0]
    requires hr == map[OneHour := 0, TwentyMin := 0, TenMin := 0, FiveMin := 0, Peak := 0]
    ensures ScannedTo(watts, hr, wattsStream, hrStream, listLength, guard, 0, 0)
  {
    forall sl: Slice ensures sl in watts && (sl in hr <==> HeartRateSlice(sl)) {
      match sl
      case OneHour => case TwentyMin => case TenMin => case FiveMin => case TwoMin =>
      case OneMin => case ThirtySec => case FiveSec => case Peak =>
    }
    forall sl | sl in watts ensures watts[sl] == Expected(wattsStream, listLength, sl, 0, guard) {
      NothingScannedYet(wattsStream, listLength, sl, guard);
    }
    forall sl | sl in hr ensures hr[sl] == Expected(hrStream, listLength, sl, 0, guard) {
      NothingScannedYet(hrStream, listLength, sl, guard);
    }
  }

  lemma NothingScannedYet(s: seq<int>, listLength: nat, sl: Slice, guard: Guard)
    ensures Expected(s, listLength, sl, 0, guard) == 0
  {
  }

  /** After the last bucket block, offset `i` is done for every bucket. */
  lemma NextIteration(m: map<Slice, int>, s: seq<int>, listLength: nat, guard: Guard, i: nat)
    requires Stage(m, s, listLength, guard, i, |Order|)
    ensures Stage(m, s, listLength, guard, i + 1, 0)
  {
    forall sl | sl in m ensures m[sl] == Expected(s, listLength, sl, i + 1, guard) {
      assert Rank(sl) < |Order|;
    }
  }

  /** Once every offset is done, each bucket holds its window best. */
  lemma FinalScan(wattBests: map<Slice, int>, hrBests: map<Slice, int>, watts: seq<int>, heartrate: seq<int>,
                  guard: Guard)
    requires ScannedTo(wattBests, hrBests, watts, heartrate, BestsLength(heartrate, watts), guard,
                       BestsLength(heartrate, watts), 0)
    ensures forall sl :: sl in wattBests
    ensures forall sl :: sl in hrBests <==> HeartRateSlice(sl)
    ensures forall sl :: wattBests[sl]
              == if |watts| == BestsLength(heartrate, watts) then WindowBest(watts, Duration(sl), guard) else 0
    ensures forall sl :: sl in hrBests ==> (hrBests[sl]
              == if |heartrate| == BestsLength(heartrate, watts) then WindowBest(heartrate, Duration(sl), guard) else 0)
  {
    var listLength := BestsLength(heartrate, watts);
    StageFinal(wattBests, watts, listLength, guard);
    StageFinal(hrBests, heartrate, listLength, guard);
  }

  lemma StageFinal(m: map<Slice, int>, s: seq<int>, listLength: nat, guard: Guard)
    requires Stage(m, s, listLength, guard, listLength, 0)
    ensures forall sl :: sl in m ==> m[sl] == if |s| == listLength then WindowBest(s, Duration(sl), guard) else 0
  {
    forall sl | sl in m ensures |s| == listLength ==> m[sl] == WindowBest(s, Duration(sl), guard) {
      if |s| == listLength {
        ScannedIsRoundedMaxMean(s, Duration(sl), Starts(listLength, Duration(sl), guard));
      }
    }
  }

  /** The rounded mean of a window never exceeds the rounded maximum mean, and
      the maximum is attained by some window. */
  lemma MeansBelowMax(s: seq<int>, w: nat, k: nat)
    requires w >= 1 && 1 <= k && k - 1 + w <= |s|
    ensures forall j :: 0 <= j < k ==> Round(Mean(s, j, w)) <= Round(MaxWindowSum(s, w, k) as real / w as real)
    ensures exists j :: 0 <= j < k && Round(MaxWindowSum(s, w, k) as real / w as real) == Round(Mean(s, j, w))
  {
    var top := MaxWindowSum(s, w, k);
    forall j | 0 <= j < k ensures Round(Mean(s, j, w)) <= Round(top as real / w as real) {
      DivideMonotone(WindowSum(s, j, w), top, w);
      RoundMonotone(Mean(s, j, w), top as real / w as real);
    }
    var j :| 0 <= j < k && top == WindowSum(s, j, w);
    assert Round(top as real / w as real) == Round(Mean(s, j, w));
  }

  /** Every admitted window's rounded mean is at most the stored best, which is
      never negative; and a positive best is the rounded mean of an admitted window. */
  lemma {:induction false} BestIsLargestMean(s: seq<int>, w: nat, guard: Guard)
    requires w >= 1
    ensures WindowBest(s, w, guard) >= 0
    ensures forall j :: 0 <= j < Starts(|s|, w, guard) ==> Round(Mean(s, j, w)) <= WindowBest(s, w, guard)
    ensures WindowBest(s, w, guard) > 0 ==>
              exists j :: 0 <= j < Starts(|s|, w, guard) && WindowBest(s, w, guard) == Round(Mean(s, j, w))
  {
    if Starts(|s|, w, guard) > 0 {
      MeansBelowMax(s, w, Starts(|s|, w, guard));
    }
  }

  /** A stream no longer than the window gets no best under the strict guard;
      the intended guard needs only one full window. */
  lemma ShortStreamNoBest(s: seq<int>, w: nat)
    requires w >= 1 && |s| <= w
    ensures WindowBest(s, w, Strict) == 0
    ensures |s| < w ==> WindowBest(s, w, Inclusive) == 0
  {
  }

  /** The strict guard never reads the last sample: changing it changes no best. */
  lemma {:induction false} LastSampleUnread(s: seq<int>, x: int, w: nat)
    requires w >= 1 && |s| >= 1
    ensures WindowBest(s[|s| - 1 := x], w, Strict) == WindowBest(s, w, Strict)
  {
    var t := s[|s| - 1 := x];
    var n := Starts(|s|, w, Strict);
    if n > 0 {
      SameWindowsSameMax(s, t, w, n);
    }
  }

  lemma {:induction false} SameWindowsSameMax(s: seq<int>, t: seq<int>, w: nat, k: nat)
    requires 1 <= k && k + w < |s| + 1 && |t| == |s|
    requires forall i :: 0 <= i < k - 1 + w ==> s[i] == t[i]
    ensures MaxWindowSum(s, w, k) == MaxWindowSum(t, w, k)
  {
    assert s[k - 1..k - 1 + w] == t[k - 1..k - 1 + w];
    if k > 1 {
      SameWindowsSameMax(s, t, w, k - 1);
    } else {
      assert s[0..w] == t[0..w];
    }
  }

  /** A constant stream at a non-negative value `v` whose first window the guard
      admits has best `v`. */
  lemma ConstantStreamBest(s: seq<int>, v: int, w: nat, guard: Guard)
    requires w >= 1 && v >= 0 && Admits(guard, 0, w, |s|)
    requires forall i :: 0 <= i < |s| ==> s[i] == v
    ensures WindowBest(s, w, guard) == v
  {
    var n := Starts(|s|, w, guard);
    AdmitsBelowStarts(guard, 0, w, |s|);
    forall j | 0 <= j < n ensures WindowSum(s, j, w) == w * v {
      SumConstant(s[j..j + w], v);
    }
    var top := MaxWindowSum(s, w, n);
    var j :| 0 <= j < n && top == WindowSum(s, j, w);
    DivideExact(w, v);
    RoundOfInt(v);
  }

  lemma DivideExact(w: nat, v: int)
    requires w >= 1
    ensures (w * v) as real / w as real == v as real
  {
    assert (w * v) as real == w as real * v as real;
  }

  lemma {:induction false} SumConstant(s: seq<int>, v: int)
    requires forall i :: 0 <= i < |s| ==> s[i] == v
    ensures Sum(s) == |s| * v
  {
    if s != [] {
      SumConstant(s[1..], v);
    }
  }

  /** Under the intended guard the best bounds every window whose end is within
      the stream, the last one included. */
  lemma IntendedBestCoversEveryWindow(s: seq<int>, w: nat)
    requires w >= 1
    ensures WindowBest(s, w, Inclusive) >= 0
    ensures forall j :: 0 <= j && j + w <= |s| ==> Round(Mean(s, j, w)) <= WindowBest(s, w, Inclusive)
  {
    if |s| >= w {
      MeansBelowMax(s, w, |s| - w + 1);
    }
  }

  /** The strict guard as written loses the last window: for the stream [0, 5]
      the 'max' bucket stays 0 although a sample of 5 was recorded; the
      intended guard stores 5. */
  lemma StrictGuardLosesLastWindow()
    ensures WindowBest([0, 5], Duration(Peak), Strict) == 0
    ensures WindowBest([0, 5], Duration(Peak), Inclusive) == 5
  {
    var s := [0, 5];
    assert s[0..1] == [0];
    assert s[1..2] == [5];
    assert Sum([0]) == 0;
    assert Sum([5]) == 5;
    RoundOfInt(0);
    RoundOfInt(5);
    assert MaxWindowSum(s, 1, 2) == 5;
  }
}
