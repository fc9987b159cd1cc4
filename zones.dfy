/** `Workout.buildZoneDistribution`: seconds spent in each training zone, for
    power and for heart rate independently, with the share of the whole
    stream carried as integer hundredths. */
module ZoneDistribution {
  import opened Js

  /** The zone titles the distribution object has keys for. */
  datatype ZoneTitle = Recovery | Endurance | Tempo | Threshold | VO2Max | Anaerobic

  /** The open-ended top band of each table. */
  const PowerTop: ZoneTitle := Anaerobic
  const HeartRateTop: ZoneTitle := VO2Max

  /** One entry of a zone table. */
  datatype Band = Band(title: ZoneTitle, low: int, high: int)

  /** Per-zone counters; percentages are in hundredths (0.37 is 37). */
  datatype ZoneStat = ZoneStat(hrPercentage: int, wattPercentage: int, hrSeconds: nat, wattSeconds: nat)

  datatype Zones = Zones(hasWatts: bool, hasHeartRate: bool, zones: map<ZoneTitle, ZoneStat>)

  /** The predicate handed to `_.find`: at or above the band's low bound, and at or
      below its high bound unless it is the table's top band. */
  predicate InBand(b: Band, v: int, top: ZoneTitle)
  {
    v >= b.low && (v <= b.high || b.title == top)
  }

  /** `_.find` over a zone table: the title of the first band that holds `v`. */
  function FirstMatch(table: seq<Band>, v: int, top: ZoneTitle): (r: Option<ZoneTitle>)
    ensures r.None? <==> forall k :: 0 <= k < |table| ==> !InBand(table[k], v, top)
    ensures r.Some? ==> exists k :: 0 <= k < |table| && table[k].title == r.value && InBand(table[k], v, top)
                                    && forall j :: 0 <= j < k ==> !InBand(table[j], v, top)
  {
    if table == [] then None
    else if InBand(table[0], v, top) then Some(table[0].title)
    else
      var r := FirstMatch(table[1..], v, top);
      assert r.Some? ==> exists k :: 0 <= k < |table| && table[k].title == r.value && InBand(table[k], v, top)
                                    && forall j :: 0 <= j < k ==> !InBand(table[j], v, top) by {
        if r.Some? {
          var k :| 0 <= k < |table| - 1 && table[1..][k].title == r.value && InBand(table[1..][k], v, top)
                   && forall j :: 0 <= j < k ==> !InBand(table[1..][j], v, top);
          assert forall j :: 0 <= j < k + 1 ==> !InBand(table[j], v, top) by {
            forall j | 0 <= j < k + 1 ensures !InBand(table[j], v, top) {
              if j > 0 { assert table[j] == table[1..][j - 1]; }
            }
          }
          assert table[k + 1] == table[1..][k];
        }
      }
      r
  }

  /** `watts?.length || heartrate?.length`. */
  function ListLength(watts: seq<int>, heartrate: seq<int>): (n: nat)
    ensures n == |watts| || n == |heartrate|
    ensures n == 0 <==> |watts| == 0 && |heartrate| == 0
    ensures |watts| > 0 ==> n == |watts|
  {
    if |watts| > 0 then |watts| else |heartrate|
  }

  /** An absent zone table finds nothing, like an empty one. */
  function TableOf(table: Option<seq<Band>>): seq<Band>
  {
    if table.Some? then table.value else []
  }

  /** The zone of sample `i`; an index past the stream's end reads `undefined`,
      which is in no band. */
  function SampleZone(stream: seq<int>, table: seq<Band>, top: ZoneTitle, i: nat): Option<ZoneTitle>
  {
    if i < |stream| then FirstMatch(table, stream[i], top) else None
  }

  /** Number of the first `n` sample indices whose zone is `t`. */
  function Seconds(stream: seq<int>, table: seq<Band>, top: ZoneTitle, t: ZoneTitle, n: nat): (r: nat)
    ensures r <= n
  {
    if n == 0 then 0
    else Seconds(stream, table, top, t, n - 1) + (if SampleZone(stream, table, top, n - 1) == Some(t) then 1 else 0)
  }

  /** Number of the first `n` sample indices that fall in some zone. */
  function Matched(stream: seq<int>, table: seq<Band>, top: ZoneTitle, n: nat): (r: nat)
    ensures r <= n
  {
    if n == 0 then 0
    else Matched(stream, table, top, n - 1) + (if SampleZone(stream, table, top, n - 1).Some? then 1 else 0)
  }

  /** `Math.round((seconds / listLength) * 100)`, the stored fraction in hundredths,
      computed in integers: for a non-negative count this is the floor of
      `(200 * seconds + listLength) / (2 * listLength)` (see `HundredthsIsRounded`). */
  function Hundredths(seconds: nat, listLength: nat): (r: int)
    ensures seconds == 0 ==> r == 0
    ensures seconds <= listLength ==> 0 <= r <= 100
  {
    if listLength == 0 then 0
    else
      HundredthsBounds(seconds, listLength);
      (200 * seconds + listLength) / (2 * listLength)
  }

  lemma HundredthsBounds(seconds: nat, listLength: nat)
    requires listLength > 0
    ensures seconds == 0 ==> (200 * seconds + listLength) / (2 * listLength) == 0
    ensures seconds <= listLength ==> 0 <= (200 * seconds + listLength) / (2 * listLength) <= 100
  {
    if seconds <= listLength {
      assert 200 * seconds + listLength < 101 * (2 * listLength);
      DivBelow(200 * seconds + listLength, 2 * listLength, 101);
    }
  }

  lemma DivBelow(a: nat, d: nat, k: nat)
    requires d > 0 && a < k * d
    ensures a / d < k
  {
  }

  /** The integer form above is exactly JavaScript's rounding of the real share. */
  lemma HundredthsIsRounded(seconds: nat, listLength: nat)
    requires listLength > 0
    ensures Hundredths(seconds, listLength) == Round(seconds as real / listLength as real * 100.0)
  {
    var L := listLength as real;
    var q := (200 * seconds + listLength) / (2 * listLength);
    var m := (200 * seconds + listLength) % (2 * listLength);
    assert q * (2 * listLength) + m == 200 * seconds + listLength;
    assert 0 <= m < 2 * listLength;
    var x := seconds as real / L * 100.0 + 0.5;
    assert x == (200 * seconds + listLength) as real / (2.0 * L) by {
      assert x * (2.0 * L) == (200 * seconds + listLength) as real;
    }
    var frac := m as real / (2.0 * L);
    assert x == q as real + frac by {
      assert (q as real + frac) * (2.0 * L) == (q * (2 * listLength) + m) as real;
    }
    FractionBelowOne(m as real, 2.0 * L);
    assert x.Floor == q;
  }

  lemma FractionBelowOne(a: real, b: real)
    requires 0.0 <= a < b
    ensures 0.0 <= a / b < 1.0
  {
  }

  /** What the distribution holds for zone `t` after the first `n` indices. */
  function StatAfter(watts: seq<int>, heartrate: seq<int>, hrTable: seq<Band>, powerTable: seq<Band>,
                     t: ZoneTitle, n: nat): ZoneStat
  {
    var listLength := ListLength(watts, heartrate);
    var hrSeconds := Seconds(heartrate, hrTable, HeartRateTop, t, n);
    var wattSeconds := Seconds(watts, powerTable, PowerTop, t, n);
    ZoneStat(Hundredths(hrSeconds, listLength), Hundredths(wattSeconds, listLength), hrSeconds, wattSeconds)
  }

  /** The power counters of `stat` after the first `n` indices. */
  predicate WattCounted(stat: ZoneStat, watts: seq<int>, powerTable: seq<Band>, t: ZoneTitle, n: nat, listLength: nat)
  {
    stat.wattSeconds == Seconds(watts, powerTable, PowerTop, t, n)
    && stat.wattPercentage == Hundredths(stat.wattSeconds, listLength)
  }

  /** The heart-rate counters of `stat` after the first `n` indices. */
  predicate HeartRateCounted(stat: ZoneStat, heartrate: seq<int>, hrTable: seq<Band>, t: ZoneTitle, n: nat, listLength: nat)
  {
    stat.hrSeconds == Seconds(heartrate, hrTable, HeartRateTop, t, n)
    && stat.hrPercentage == Hundredths(stat.hrSeconds, listLength)
  }

  lemma SecondsStep(stream: seq<int>, table: seq<Band>, top: ZoneTitle, t: ZoneTitle, i: nat)
    ensures Seconds(stream, table, top, t, i + 1)
         == Seconds(stream, table, top, t, i) + (if SampleZone(stream, table, top, i) == Some(t) then 1 else 0)
  {
  }

  lemma EveryTitleIsKey(m: map<ZoneTitle, ZoneStat>)
    requires Recovery in m && Endurance in m && Tempo in m && Threshold in m && VO2Max in m && Anaerobic in m
    ensures forall t :: t in m
  {
    forall t: ZoneTitle ensures t in m {
      match t
      case Recovery => case Endurance => case Tempo =>
      case Threshold => case VO2Max => case Anaerobic =>
    }
  }

  /** The initial object of lines 121-158: every zone at 0 seconds and 0%. */
  function EmptyZones(): (m: map<ZoneTitle, ZoneStat>)
    ensures forall t :: t in m && m[t] == ZoneStat(0, 0, 0, 0)
  {
    var empty := ZoneStat(0, 0, 0, 0);
    var m := map[Recovery := empty, Endurance := empty, Tempo := empty,
                 Threshold := empty, VO2Max := empty, Anaerobic := empty];
    EveryTitleIsKey(m);
    m
  }

  /** The loop invariant: the power counters reflect the first `wattN` indices, the
      heart-rate counters the first `hrN`, and the heart-rate counters of the
      power-only zone are untouched. */
  ghost predicate Counted(zones: map<ZoneTitle, ZoneStat>, watts: seq<int>, heartrate: seq<int>,
                          hrTable: seq<Band>, powerTable: seq<Band>, wattN: nat, hrN: nat)
  {
    && (forall t :: t in zones)
    && zones[Anaerobic].hrSeconds == 0
    && (forall t :: t in zones ==> WattCounted(zones[t], watts, powerTable, t, wattN, ListLength(watts, heartrate)))
    && (forall t :: t in zones ==> HeartRateCounted(zones[t], heartrate, hrTable, t, hrN, ListLength(watts, heartrate)))
  }

  lemma CountedIsStatAfter(zones: map<ZoneTitle, ZoneStat>, watts: seq<int>, heartrate: seq<int>,
                           hrTable: seq<Band>, powerTable: seq<Band>, n: nat)
    requires Counted(zones, watts, heartrate, hrTable, powerTable, n, n)
    ensures forall t :: t in zones
    ensures zones[Anaerobic].hrSeconds == 0
    ensures forall t :: t in zones ==> zones[t] == StatAfter(watts, heartrate, hrTable, powerTable, t, n)
  {
    forall t | t in zones ensures zones[t] == StatAfter(watts, heartrate, hrTable, powerTable, t, n) {
      assert WattCounted(zones[t], watts, powerTable, t, n, ListLength(watts, heartrate));
      assert HeartRateCounted(zones[t], heartrate, hrTable, t, n, ListLength(watts, heartrate));
    }
  }

  /** Heart-rate tables name only zones that have heart-rate counters. */
  predicate HeartRateTitles(hrZones: Option<seq<Band>>)
  {
    forall k :: 0 <= k < |TableOf(hrZones)| ==> TableOf(hrZones)[k].title != Anaerobic
  }

  method BuildZoneDistribution(watts: seq<int>, heartrate: seq<int>,
                               hrZones: Option<seq<Band>>, powerZones: Option<seq<Band>>)
    returns (z: Zones)
    requires HeartRateTitles(hrZones)
    ensures z.hasWatts == (|watts| > 0)
    ensures z.hasHeartRate == (|heartrate| > 0)
    ensures forall t :: t in z.zones
    ensures forall t :: t in z.zones ==>
              z.zones[t] == StatAfter(watts, heartrate, TableOf(hrZones), TableOf(powerZones), t,
                                      ListLength(watts, heartrate))
    ensures z.zones[Anaerobic].hrSeconds == 0
  {
    var zones := CountAll(watts, heartrate, hrZones, powerZones);
    CountedIsStatAfter(zones, watts, heartrate, TableOf(hrZones), TableOf(powerZones), ListLength(watts, heartrate));
    z := Zones(|watts| > 0, |heartrate| > 0, zones);
  }

  /** Lines 168-189: the loop over every index of the longer stream. */
  method CountAll(watts: seq<int>, heartrate: seq<int>, hrZones: Option<seq<Band>>, powerZones: Option<seq<Band>>)
    returns (zones: map<ZoneTitle, ZoneStat>)
    requires HeartRateTitles(hrZones)
    ensures Counted(zones, watts, heartrate, TableOf(hrZones), TableOf(powerZones),
                    ListLength(watts, heartrate), ListLength(watts, heartrate))
  {
    var listLength := ListLength(watts, heartrate);
    zones := EmptyZones();
    var i := 0;
    while i < listLength
      invariant 0 <= i <= listLength
      invariant Counted(zones, watts, heartrate, TableOf(hrZones), TableOf(powerZones), i, i)
    {
      zones := CountSample(zones, watts, heartrate, hrZones, powerZones, i);
      i := i + 1;
    }
  }

  /** One pass of the loop body. */
  method CountSample(zones: map<ZoneTitle, ZoneStat>, watts: seq<int>, heartrate: seq<int>,
                     hrZones: Option<seq<Band>>, powerZones: Option<seq<Band>>, i: nat)
    returns (updated: map<ZoneTitle, ZoneStat>)
    requires i < ListLength(watts, heartrate)
    requires HeartRateTitles(hrZones)
    requires Counted(zones, watts, heartrate, TableOf(hrZones), TableOf(powerZones), i, i)
    ensures Counted(updated, watts, heartrate, TableOf(hrZones), TableOf(powerZones), i + 1, i + 1)
  {
    updated := CountPowerSample(zones, watts, heartrate, TableOf(hrZones), powerZones, i);
    updated := CountHeartRateSample(updated, watts, heartrate, hrZones, TableOf(powerZones), i);
  }

  /** Lines 169-177 for sample `i`: the power counters move from `i` to `i + 1`
      indices, the heart-rate counters stay. */
  method CountPowerSample(zones: map<ZoneTitle, ZoneStat>, watts: seq<int>, heartrate: seq<int>,
                          ghost hrTable: seq<Band>, powerZones: Option<seq<Band>>, i: nat)
    returns (updated: map<ZoneTitle, ZoneStat>)
    requires i < ListLength(watts, heartrate)
    requires Counted(zones, watts, heartrate, hrTable, TableOf(powerZones), i, i)
    ensures Counted(updated, watts, heartrate, hrTable, TableOf(powerZones), i + 1, i)
  {
    var listLength := ListLength(watts, heartrate);
    updated := zones;
    if |watts| > 0 && powerZones.Some? {
      var value := FirstMatch(powerZones.value, watts[i], PowerTop);
      if value.Some? {
        var t := value.value;
        var seconds := updated[t].wattSeconds + 1;
        updated := updated[t := updated[t].(wattSeconds := seconds, wattPercentage := Hundredths(seconds, listLength))];
      }
      assert SampleZone(watts, TableOf(powerZones), PowerTop, i) == value;
    } else {
      assert SampleZone(watts, TableOf(powerZones), PowerTop, i) == None;
    }
    forall u | u in updated
      ensures WattCounted(updated[u], watts, TableOf(powerZones), u, i + 1, listLength)
    {
      SecondsStep(watts, TableOf(powerZones), PowerTop, u, i);
    }
  }

  /** Lines 180-188 for sample `i`: the heart-rate counters move from `i` to
      `i + 1` indices, the power counters stay. */
  method CountHeartRateSample(zones: map<ZoneTitle, ZoneStat>, watts: seq<int>, heartrate: seq<int>,
                              hrZones: Option<seq<Band>>, ghost powerTable: seq<Band>, i: nat)
    returns (updated: map<ZoneTitle, ZoneStat>)
    requires i < ListLength(watts, heartrate)
    requires HeartRateTitles(hrZones)
    requires Counted(zones, watts, heartrate, TableOf(hrZones), powerTable, i + 1, i)
    ensures Counted(updated, watts, heartrate, TableOf(hrZones), powerTable, i + 1, i + 1)
  {
    var listLength := ListLength(watts, heartrate);
    updated := zones;
    if |heartrate| > 0 && hrZones.Some? {
      var value := if i < |heartrate| then FirstMatch(hrZones.value, heartrate[i], HeartRateTop) else None;
      if value.Some? {
        var t := value.value;
        var seconds := updated[t].hrSeconds + 1;
        updated := updated[t := updated[t].(hrSeconds := seconds, hrPercentage := Hundredths(seconds, listLength))];
      }
      assert SampleZone(heartrate, TableOf(hrZones), HeartRateTop, i) == value;
    } else {
      assert SampleZone(heartrate, TableOf(hrZones), HeartRateTop, i) == None;
    }
    forall u | u in updated
      ensures HeartRateCounted(updated[u], heartrate, TableOf(hrZones), u, i + 1, listLength)
    {
      SecondsStep(heartrate, TableOf(hrZones), HeartRateTop, u, i);
    }
  }

  /** The seconds counted over all six zones. */
  function TotalSeconds(stream: seq<int>, table: seq<Band>, top: ZoneTitle, n: nat): nat
  {
    Seconds(stream, table, top, Recovery, n) + Seconds(stream, table, top, Endurance, n)
    + Seconds(stream, table, top, Tempo, n) + Seconds(stream, table, top, Threshold, n)
    + Seconds(stream, table, top, VO2Max, n) + Seconds(stream, table, top, Anaerobic, n)
  }

  /** The seconds of all six zones add up to the number of matched indices:
      no index is counted in two zones. */
  lemma {:induction false} ZonesPartitionMatches(stream: seq<int>, table: seq<Band>, top: ZoneTitle, n: nat)
    ensures TotalSeconds(stream, table, top, n) == Matched(stream, table, top, n)
  {
    if n > 0 {
      ZonesPartitionMatches(stream, table, top, n - 1);
      PartitionStep(stream, table, top, n);
    }
  }

  /** One more index adds one second to exactly one zone when it matches,
      and to none otherwise. */
  lemma PartitionStep(stream: seq<int>, table: seq<Band>, top: ZoneTitle, n: nat)
    requires n > 0
    ensures TotalSeconds(stream, table, top, n)
         == TotalSeconds(stream, table, top, n - 1) + (if SampleZone(stream, table, top, n - 1).Some? then 1 else 0)
    ensures Matched(stream, table, top, n)
         == Matched(stream, table, top, n - 1) + (if SampleZone(stream, table, top, n - 1).Some? then 1 else 0)
  {
  }

  /** Hence the seconds over all zones never exceed the stream length used. */
  lemma TotalSecondsBounded(stream: seq<int>, table: seq<Band>, top: ZoneTitle, n: nat)
    ensures TotalSeconds(stream, table, top, n) <= n
  {
    ZonesPartitionMatches(stream, table, top, n);
  }

  /** Indices past a stream's end add no seconds: a stream shorter than the
      scanned length contributes only for its own samples. */
  lemma {:induction false} SecondsStopAtEnd(stream: seq<int>, table: seq<Band>, top: ZoneTitle, t: ZoneTitle, n: nat)
    requires n >= |stream|
    ensures Seconds(stream, table, top, t, n) == Seconds(stream, table, top, t, |stream|)
    decreases n - |stream|
  {
    if n != |stream| {
      var m := n - 1;
      SecondsStopAtEnd(stream, table, top, t, m);
      SecondsPastEnd(stream, table, top, t, n);
    }
  }

  lemma SecondsPastEnd(stream: seq<int>, table: seq<Band>, top: ZoneTitle, t: ZoneTitle, n: nat)
    requires n > |stream|
    ensures Seconds(stream, table, top, t, n) == Seconds(stream, table, top, t, n - 1)
  {
  }

  /** A missing stream or a missing table leaves every counter of that metric at 0. */
  lemma {:induction false} NoDataNoSeconds(stream: seq<int>, table: seq<Band>, top: ZoneTitle, t: ZoneTitle, n: nat)
    requires stream == [] || table == []
    ensures Seconds(stream, table, top, t, n) == 0
  {
    if n > 0 {
      NoDataNoSeconds(stream, table, top, t, n - 1);
    }
  }
}
