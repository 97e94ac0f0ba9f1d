/**
 The throughput chart: 24 bars derived from the seed-777 `mulberry32`
 stream, two draws per bar (value first, then height), with a repeating
 six-colour gradient and the last bar marked as the latest.
 */
module Chart {
  import opened Prng

  const ChartSeed: int := 777
  const BarCount: nat := 24

  /** The bar gradients, used in turn. */
  const AuroraColors: seq<string> := [
    "from-emerald-400/70 to-cyan-400/70",
    "from-cyan-400/70 to-blue-400/70",
    "from-blue-400/70 to-indigo-400/70",
    "from-indigo-400/70 to-violet-400/70",
    "from-violet-400/70 to-purple-400/70",
    "from-purple-400/70 to-pink-400/70"
  ]

  /** The value shown when there is no latest bar (or its value is zero). */
  const FallbackValue: int := 847

  /** One bar. The height itself is a float computed from `heightNumerator`
      and is not modelled; `minutesAgo` is the offset subtracted from the
      current time to label the bar. */
  datatype Bar = Bar(value: int, heightNumerator: bv32, gradient: string, minutesAgo: int, isLatest: bool)

  /** `Math.floor(300 + rng() * 600)` for a draw with numerator `n`. */
  function TpsValue(n: bv32): (v: int)
    ensures 300 <= v <= 899
  {
    300 + (n as int * 600) / Modulus
  }

  /** `TpsValue` is the floor of the real `300 + Unit(n) * 600`. The double
      arithmetic of the source is exact here (n * 600 fits in 42 bits), so
      this is also the floor the browser computes. */
  lemma TpsValueIsFloor(n: bv32)
    ensures TpsValue(n) as real <= 300.0 + Unit(n) * 600.0 < TpsValue(n) as real + 1.0
  {
    var q := (n as int * 600) / Modulus;
    assert n as int * 600 == q * Modulus + (n as int * 600) % Modulus;
  }

  /** The bar at index `i`, given the numerators of its two draws. */
  function MakeBar(i: nat, valueDraw: bv32, heightDraw: bv32): (b: Bar)
    ensures 300 <= b.value <= 899 && b.heightNumerator == heightDraw
    ensures b.gradient in AuroraColors
    ensures b.isLatest <==> b.minutesAgo == 0
  {
    Bar(TpsValue(valueDraw), heightDraw, AuroraColors[i % |AuroraColors|], (23 - i) * 5, i == 23)
  }

  /** The bars from index `i` on, taking the draws `ns` in order as the `map`
      callback does: the value first, then the height, for each bar. */
  function Bars(ns: seq<bv32>, i: nat): (bars: seq<Bar>)
    requires |ns| % 2 == 0
    ensures 2 * |bars| == |ns|
    ensures forall k :: 0 <= k < |bars| ==> bars[k] == MakeBar(i + k, ns[k + k], ns[k + k + 1])
    decreases |ns|
  {
    if ns == [] then []
    else
      var rest := Bars(ns[2..], i + 1);
      BarsStep(ns, i, rest);
      [MakeBar(i, ns[0], ns[1])] + rest
  }

  lemma BarsStep(ns: seq<bv32>, i: nat, rest: seq<Bar>)
    requires 2 <= |ns| && 2 * |rest| + 2 == |ns|
    requires forall k :: 0 <= k < |rest| ==> rest[k] == MakeBar(i + 1 + k, ns[2..][k + k], ns[2..][k + k + 1])
    ensures forall k :: 0 <= k <= |rest| ==> ([MakeBar(i, ns[0], ns[1])] + rest)[k] == MakeBar(i + k, ns[k + k], ns[k + k + 1])
  {
    forall k | 0 < k <= |rest|
      ensures ([MakeBar(i, ns[0], ns[1])] + rest)[k] == MakeBar(i + k, ns[k + k], ns[k + k + 1])
    {
      var j := k - 1;
      assert ns[2..][j + j] == ns[k + k];
      assert ns[2..][j + j + 1] == ns[k + k + 1];
      assert rest[j] == MakeBar(i + k, ns[k + k], ns[k + k + 1]);
    }
  }

  /** The chart data built from a fresh generator seeded with `seed`; the
      component builds it once, with `ChartSeed`. */
  function ChartData(seed: int): (bars: seq<Bar>)
    ensures |bars| == BarCount
    ensures forall i :: 0 <= i < BarCount ==>
      bars[i] == MakeBar(i, Stream(seed, 2 * BarCount)[i + i], Stream(seed, 2 * BarCount)[i + i + 1])
  {
    Bars(Stream(seed, 2 * BarCount), 0)
  }

  /** `chartData[chartData.length - 1]?.value || 847`. */
  function CurrentValue(bars: seq<Bar>): (v: int)
    ensures |bars| > 0 && bars[|bars| - 1].value != 0 ==> v == bars[|bars| - 1].value
    ensures |bars| == 0 || bars[|bars| - 1].value == 0 ==> v == FallbackValue
  {
    if |bars| == 0 || bars[|bars| - 1].value == 0 then FallbackValue else bars[|bars| - 1].value
  }

  /** Every bar of the chart: its value is an integer TPS in [300, 899],
      its gradient cycles through the six colours, and only the last bar is
      the latest, which is also the only one with no time offset. */
  lemma ChartBars(seed: int, i: nat)
    requires i < BarCount
    ensures 300 <= ChartData(seed)[i].value <= 899
    ensures ChartData(seed)[i].gradient == AuroraColors[i % 6]
    ensures ChartData(seed)[i].isLatest <==> i == BarCount - 1
    ensures ChartData(seed)[i].minutesAgo == 0 <==> i == BarCount - 1
    ensures ChartData(seed)[i].minutesAgo == (BarCount - 1 - i) * 5
  {
  }

  /** Bar `i` takes its value from draw `2i` and its height from draw `2i + 1`
      of the stream, so two mounts render identical data. */
  lemma ChartDraws(seed: int, i: nat)
    requires i < BarCount
    ensures ChartData(seed)[i].value == TpsValue(Stream(seed, 2 * BarCount)[2 * i])
    ensures ChartData(seed)[i].heightNumerator == Stream(seed, 2 * BarCount)[2 * i + 1]
  {
  }

  /** The headline value is the latest bar's value: that value is never 0,
      so the 847 fallback is never taken. */
  lemma CurrentValueIsLatest(seed: int)
    ensures CurrentValue(ChartData(seed)) == ChartData(seed)[BarCount - 1].value
    ensures 300 <= CurrentValue(ChartData(seed)) <= 899
  {
    ChartBars(seed, BarCount - 1);
  }

  /** The chart the component renders, from `ChartSeed`: 24 bars, and a
      headline that is the latest bar's value, in 300..899. */
  lemma ChartAtSeed()
    ensures |ChartData(ChartSeed)| == BarCount
    ensures CurrentValue(ChartData(ChartSeed)) == ChartData(ChartSeed)[BarCount - 1].value
    ensures 300 <= CurrentValue(ChartData(ChartSeed)) <= 899
  {
    CurrentValueIsLatest(ChartSeed);
  }
}
