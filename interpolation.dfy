/** `linearInterpolate` and `interpolateArray`: resampling a stream to a given
    number of points by linear interpolation between its neighbouring samples.
    Positions are exact reals where the source uses floating point. */
module Interpolation {
  import opened Js

  /** `Math.round(before + (after - before) * atPoint)`. Within the segment the
      result lies between the two samples, and the ends give the samples. */
  function LinearInterpolate(before: int, after: int, atPoint: real): (r: int)
    ensures 0.0 <= atPoint <= 1.0 ==> Min(before, after) <= r <= Max(before, after)
    ensures atPoint == 0.0 ==> r == before
    ensures atPoint == 1.0 ==> r == after
  {
    var x := before as real + (after - before) as real * atPoint;
    SegmentBetween(before, after, atPoint);
    if atPoint == 0.0 then RoundOfInt(before); Round(x)
    else if atPoint == 1.0 then RoundOfInt(after); Round(x)
    else Round(x)
  }

  lemma SegmentBetween(before: int, after: int, atPoint: real)
    ensures 0.0 <= atPoint <= 1.0 ==>
              var x := before as real + (after - before) as real * atPoint;
              Min(before, after) as real <= x <= Max(before, after) as real
                && Min(before, after) <= Round(x) <= Max(before, after)
  {
    if 0.0 <= atPoint <= 1.0 {
      var d := (after - before) as real;
      var x := before as real + d * atPoint;
      assert d - d * atPoint == d * (1.0 - atPoint);
      if d >= 0.0 {
        ProductNonNegative(d, atPoint);
        ProductNonNegative(d, 1.0 - atPoint);
      } else {
        ProductNonNegative(-d, atPoint);
        ProductNonNegative(-d, 1.0 - atPoint);
      }
      RoundBetween(x, Min(before, after), Max(before, after));
    }
  }

  lemma ProductNonNegative(a: real, b: real)
    requires a >= 0.0 && b >= 0.0
    ensures a * b >= 0.0
  {
  }

  /** `i * springFactor`: where output point `i` falls in the input, with
      `springFactor = (length - 1) / (fitCount - 1)`. */
  function Position(length: nat, fitCount: int, i: int): real
    requires fitCount >= 2
  {
    i as real * ((length - 1) as real / (fitCount - 1) as real)
  }

  /** The two input indices an interior output point reads are in range and
      adjacent (or equal). */
  lemma PositionInRange(length: nat, fitCount: int, i: int)
    requires length >= 1 && fitCount >= 2 && 0 <= i <= fitCount - 1
    ensures var tmp := Position(length, fitCount, i);
            && 0.0 <= tmp <= (length - 1) as real
            && 0 <= Floor(tmp) <= Ceil(tmp) <= length - 1
            && Ceil(tmp) - Floor(tmp) <= 1
  {
    var spring := (length - 1) as real / (fitCount - 1) as real;
    var tmp := Position(length, fitCount, i);
    assert spring * (fitCount - 1) as real == (length - 1) as real;
    assert 0.0 <= spring;
    assert 0.0 <= tmp <= spring * (fitCount - 1) as real by {
      assert i as real <= (fitCount - 1) as real;
    }
    assert Ceil(tmp) <= length - 1 by {
      CeilAtMost(tmp, length - 1);
    }
  }

  lemma CeilAtMost(x: real, n: int)
    requires x <= n as real
    ensures Ceil(x) <= n
  {
  }

  /** The value of interior output point `i` (lines 9-15). */
  function Interior(data: seq<int>, fitCount: int, i: int): (r: int)
    requires |data| >= 1 && fitCount >= 2 && 1 <= i < fitCount - 1
    ensures var tmp := Position(|data|, fitCount, i);
            0 <= Floor(tmp) <= Ceil(tmp) < |data|
            && Min(data[Floor(tmp)], data[Ceil(tmp)]) <= r <= Max(data[Floor(tmp)], data[Ceil(tmp)])
  {
    var tmp := Position(|data|, fitCount, i);
    PositionInRange(|data|, fitCount, i);
    var before := Floor(tmp);
    var after := Ceil(tmp);
    LinearInterpolate(data[before], data[after], tmp - before as real)
  }

  /** The array `interpolateArray` returns. A `fitCount` below 1 leaves only the
      first sample: the write at index `fitCount - 1` then makes a property, not
      an element. With `fitCount == 1` the last sample overwrites the first. */
  function Resampled(data: seq<int>, fitCount: int): (r: seq<int>)
    requires |data| >= 1
    ensures |r| == Max(fitCount, 1)
    ensures fitCount <= 0 ==> r == [data[0]]
    ensures fitCount == 1 ==> r == [data[|data| - 1]]
    ensures fitCount >= 2 ==> r[0] == data[0] && r[fitCount - 1] == data[|data| - 1]
  {
    if fitCount <= 0 then [data[0]]
    else if fitCount == 1 then [data[|data| - 1]]
    else seq(fitCount, i requires 0 <= i < fitCount =>
               if i == 0 then data[0]
               else if i == fitCount - 1 then data[|data| - 1]
               else Interior(data, fitCount, i))
  }

  /** `interpolateArray`. The source reads `data[0]` unconditionally, so the
      data must not be empty. */
  method InterpolateArray(data: seq<int>, fitCount: int) returns (newData: array<int>)
    requires |data| >= 1
    ensures fresh(newData)
    ensures newData[..] == Resampled(data, fitCount)
  {
    newData := new int[Max(fitCount, 1)];
    newData[0] := data[0];
    var i := 1;
    while i < fitCount - 1
      invariant 1 <= i <= Max(fitCount - 1, 1)
      invariant newData[0] == data[0]
      invariant forall k :: 1 <= k < i ==> newData[k] == Interior(data, fitCount, k)
    {
      var tmp := Position(|data|, fitCount, i);
      PositionInRange(|data|, fitCount, i);
      var before := Floor(tmp);
      var after := Ceil(tmp);
      var atPoint := tmp - before as real;
      newData[i] := LinearInterpolate(data[before], data[after], atPoint);
      i := i + 1;
    }
    if fitCount >= 1 {
      newData[fitCount - 1] := data[|data| - 1];
    }
    assert newData[..] == Resampled(data, fitCount) by {
      if fitCount >= 2 {
        forall k | 0 <= k < fitCount ensures newData[k] == Resampled(data, fitCount)[k] {
        }
      }
    }
  }

  /** Resampling to the stream's own length gives the stream back. */
  lemma ResampleToOwnLength(data: seq<int>)
    requires |data| >= 1
    ensures Resampled(data, |data|) == data
  {
    var n := |data|;
    if n >= 2 {
      forall i | 1 <= i < n - 1 ensures Interior(data, n, i) == data[i] {
        InteriorAtOwnLength(data, i);
      }
    }
  }

  lemma InteriorAtOwnLength(data: seq<int>, i: int)
    requires 1 <= i < |data| - 1
    ensures Interior(data, |data|, i) == data[i]
  {
    var n := |data|;
    PositionAtOwnLength(n, i);
    var tmp := Position(n, n, i);
    assert Floor(tmp) == i && Ceil(tmp) == i;
  }

  lemma PositionAtOwnLength(n: nat, i: int)
    requires n >= 2
    ensures Position(n, n, i) == i as real
  {
    assert (n - 1) as real / (n - 1) as real == 1.0;
  }

  /** A constant stream resamples to the same constant at every point. */
  lemma ConstantStaysConstant(data: seq<int>, fitCount: int, v: int)
    requires |data| >= 1
    requires forall k :: 0 <= k < |data| ==> data[k] == v
    ensures forall k :: 0 <= k < |Resampled(data, fitCount)| ==> Resampled(data, fitCount)[k] == v
  {
    if fitCount >= 2 {
      forall k | 1 <= k < fitCount - 1 ensures Interior(data, fitCount, k) == v {
        PositionInRange(|data|, fitCount, k);
      }
    }
  }

  /** Every resampled point lies between the smallest and largest input sample. */
  lemma ResampledWithinRange(data: seq<int>, fitCount: int, lo: int, hi: int)
    requires |data| >= 1
    requires forall k :: 0 <= k < |data| ==> lo <= data[k] <= hi
    ensures forall k :: 0 <= k < |Resampled(data, fitCount)| ==> lo <= Resampled(data, fitCount)[k] <= hi
  {
    if fitCount >= 2 {
      forall k | 1 <= k < fitCount - 1 ensures lo <= Interior(data, fitCount, k) <= hi {
        PositionInRange(|data|, fitCount, k);
      }
    }
  }
}
