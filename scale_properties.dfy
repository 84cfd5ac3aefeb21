/**
  What the colour scales promise: which tier each value lands in, that equal-
  to-threshold values fall on the less favourable side, that values no
  comparison accepts fall through to red, that the tier moves monotonically
  with the value, and what the header lookup returns.
*/
module ScaleProperties {
  import opened Wrappers
  import opened Scales

  /** Every threshold is below every later one. */
  predicate StrictlyIncreasing(ts: seq<real>) {
    forall i, j :: 0 <= i < j < |ts| ==> ts[i] < ts[j]
  }

  /** How unfavourable a basic colour is: green 0, yellow 1, red 2. */
  function TierRank(c: string): nat {
    if c == Green then 0 else if c == Yellow then 1 else 2
  }

  /** The metrics whose scales are lower-is-better, by column title. */
  const AscendingMetrics: set<string> :=
    {"P/E", "PEG", "P/S", "P/B", "Payout Ratio", "Debt/Equity", "Beta", "EV/Revenue", "EV/EBITDA"}

  /** The metrics whose scales are higher-is-better, by column title. */
  const DescendingMetrics: set<string> := {"Dividend Yield", "Current Ratio", "ROE", "ROA"}

  /** The header lookup written as a table. */
  const MetricTables: map<string, Thresholds> := map[
    "P/E" := PeThresholds,
    "PEG" := PegThresholds,
    "P/S" := PriceToSalesThresholds,
    "P/B" := PriceToBookThresholds,
    "Dividend Yield" := DividendYieldThresholds,
    "Payout Ratio" := PayoutRatioThresholds,
    "Debt/Equity" := DebtToEquityThresholds,
    "Current Ratio" := CurrentRatioThresholds,
    "Beta" := BetaThresholds,
    "ROE" := RoeThresholds,
    "ROA" := RoaThresholds,
    "EV/Revenue" := EvToRevenueThresholds,
    "EV/EBITDA" := EvToEbitdaThresholds
  ]

  /**
    An ascending scale is green below `excellent`, yellow from `excellent` up
    to `good`, and red from there on and for values no comparison accepts; its
    interpolated colour always equals its basic colour.
  */
  lemma AscendingTiers(ts: seq<real>, v: Num)
    requires |ts| == 3
    ensures var r := AscendingResult(ts, v);
      && r.interpolatedColor == r.basicColor
      && (r.basicColor == Green <==> v.Num? && v.x < ts[0])
      && (r.basicColor == Yellow <==> v.Num? && ts[0] <= v.x < ts[1])
      && (r.basicColor == Red <==> !v.Num? || (ts[0] <= v.x && ts[1] <= v.x))
  {
    var k := FirstBelow(ts, v);
    if k == 0 {
      assert Below(v, ts[0]);
    } else if k == 1 {
      assert !Below(v, ts[0]) && Below(v, ts[1]);
    } else {
      assert !Below(v, ts[0]) && !Below(v, ts[1]);
    }
  }

  /**
    A descending scale is green/green above `good`; yellow above `excellent`
    up to and including `good`, with the first green shade as its interpolated
    colour, or the second exactly at `good`; and red/red at or below
    `excellent` and for values no comparison accepts.
  */
  lemma DescendingTiers(ts: seq<real>, v: Num)
    requires |ts| == 2
    ensures var r := DescendingResult(ts, v);
      && (r == ScaleColors(Green, Green) <==> v.Num? && v.x > ts[1])
      && (r.basicColor == Yellow <==> v.Num? && ts[0] < v.x <= ts[1])
      && (r.basicColor == Yellow ==>
            r.interpolatedColor == (if v.x == ts[1] then "#55FF00" else Green))
      && (r == ScaleColors(Red, Red) <==> !v.Num? || (v.x <= ts[0] && v.x <= ts[1]))
  {
    var k := LastAbove(ts, v);
    if k == 2 {
      assert Above(v, ts[1]);
    } else if k == 1 {
      assert Above(v, ts[0]) && !Above(v, ts[1]);
    } else {
      assert !Above(v, ts[0]) && !Above(v, ts[1]);
    }
  }

  /** Whatever the value, the basic colour is green, yellow or red. */
  lemma BasicColorIsATier(asc: seq<real>, desc: seq<real>, v: Num)
    requires |asc| == 3 && |desc| == 2
    ensures AscendingResult(asc, v).basicColor in {Green, Yellow, Red}
    ensures DescendingResult(desc, v).basicColor in {Green, Yellow, Red}
  {
    AscendingTiers(asc, v);
    DescendingTiers(desc, v);
  }

  /**
    A value equal to an ascending threshold is not below it: it lands in the
    band after the one that threshold closes.
  */
  lemma {:induction false} AscendingThresholdIsWorse(ts: seq<real>, i: nat)
    requires StrictlyIncreasing(ts) && i < |ts|
    ensures FirstBelow(ts, Num(ts[i])) == i + 1
  {
    if i > 0 {
      assert StrictlyIncreasing(ts[1..]) by {
        forall a, b | 0 <= a < b < |ts[1..]| ensures ts[1..][a] < ts[1..][b] {
          assert ts[1..][a] == ts[a + 1] && ts[1..][b] == ts[b + 1];
        }
      }
      AscendingThresholdIsWorse(ts[1..], i - 1);
      assert ts[1..][i - 1] == ts[i];
      assert !Below(Num(ts[i]), ts[0]);
    }
  }

  /**
    A value equal to a descending threshold is not above it: it lands in the
    band below the one that threshold opens.
  */
  lemma {:induction false} DescendingThresholdIsWorse(ts: seq<real>, i: nat)
    requires StrictlyIncreasing(ts) && i < |ts|
    ensures LastAbove(ts, Num(ts[i])) == i
  {
    var n := |ts| - 1;
    if i < n {
      var front := ts[..n];
      assert StrictlyIncreasing(front);
      DescendingThresholdIsWorse(front, i);
      assert front[i] == ts[i];
      assert !Above(Num(ts[i]), ts[n]);
    }
  }

  /** At `excellent` an ascending scale is already yellow and at `good` already red. */
  lemma AscendingBoundaries(ts: seq<real>)
    requires |ts| == 3 && StrictlyIncreasing(ts)
    ensures AscendingResult(ts, Num(ts[0])).basicColor == Yellow
    ensures AscendingResult(ts, Num(ts[1])).basicColor == Red
    ensures AscendingResult(ts, Num(ts[2])).basicColor == Red
  {
    AscendingThresholdIsWorse(ts, 0);
    AscendingThresholdIsWorse(ts, 1);
    AscendingThresholdIsWorse(ts, 2);
  }

  /** At `good` a descending scale is only yellow and at `excellent` already red. */
  lemma DescendingBoundaries(ts: seq<real>)
    requires |ts| == 2 && StrictlyIncreasing(ts)
    ensures DescendingResult(ts, Num(ts[1])) == ScaleColors("#55FF00", Yellow)
    ensures DescendingResult(ts, Num(ts[0])) == ScaleColors(Red, Red)
  {
    DescendingThresholdIsWorse(ts, 0);
    DescendingThresholdIsWorse(ts, 1);
  }

  /** `NaN` and `undefined` pass no comparison and fall through to red/red. */
  lemma NotANumberIsRed(asc: seq<real>, desc: seq<real>)
    requires |asc| == 3 && |desc| == 2
    ensures AscendingResult(asc, NotANumber) == ScaleColors(Red, Red)
    ensures DescendingResult(desc, NotANumber) == ScaleColors(Red, Red)
  {
    assert !Below(NotANumber, asc[0]);
  }

  /** A larger value never stops an ascending scan earlier. */
  lemma FirstBelowMonotone(ts: seq<real>, x: real, y: real)
    requires x <= y
    ensures FirstBelow(ts, Num(x)) <= FirstBelow(ts, Num(y))
  {
    var k := FirstBelow(ts, Num(y));
    if k < |ts| {
      assert Below(Num(x), ts[k]);
    }
  }

  /** A larger value never stops a descending scan lower. */
  lemma LastAboveMonotone(ts: seq<real>, x: real, y: real)
    requires x <= y
    ensures LastAbove(ts, Num(x)) <= LastAbove(ts, Num(y))
  {
    var k := LastAbove(ts, Num(x));
    if k > 0 {
      assert Above(Num(y), ts[k - 1]);
    }
  }

  /**
    Raising the value never makes an ascending colour more favourable, and a
    value no comparison accepts is as unfavourable as any.
  */
  lemma AscendingMonotone(ts: seq<real>, x: real, y: real)
    requires |ts| == 3 && x <= y
    ensures TierRank(AscendingResult(ts, Num(x)).basicColor)
         <= TierRank(AscendingResult(ts, Num(y)).basicColor)
    ensures TierRank(AscendingResult(ts, Num(y)).basicColor)
         <= TierRank(AscendingResult(ts, NotANumber).basicColor)
  {
    FirstBelowMonotone(ts, x, y);
    NotANumberIsRed(ts, [0.0, 0.0]);
  }

  /**
    Raising the value never makes a descending colour less favourable, and a
    value no comparison accepts is as unfavourable as any.
  */
  lemma DescendingMonotone(ts: seq<real>, x: real, y: real)
    requires |ts| == 2 && x <= y
    ensures TierRank(DescendingResult(ts, Num(y)).basicColor)
         <= TierRank(DescendingResult(ts, Num(x)).basicColor)
    ensures TierRank(DescendingResult(ts, Num(x)).basicColor)
         <= TierRank(DescendingResult(ts, NotANumber).basicColor)
  {
    LastAboveMonotone(ts, x, y);
    NotANumberIsRed([0.0, 0.0, 0.0], ts);
  }

  /**
    `poor` never changes an ascending colour: two tables that agree on
    `excellent` and `good` colour every value alike.
  */
  lemma AscendingIgnoresPoor(ts: seq<real>, us: seq<real>, v: Num)
    requires |ts| == 3 && |us| == 3 && ts[0] == us[0] && ts[1] == us[1]
    ensures AscendingResult(ts, v) == AscendingResult(us, v)
  {
    AscendingTiers(ts, v);
    AscendingTiers(us, v);
  }

  /** The header lookup agrees with the metric table, and is `{}` off it. */
  lemma GetThresholdsIsTableLookup(metric: string)
    ensures GetThresholds(metric)
         == if metric in MetricTables then MetricTables[metric] else NoThresholds
    ensures GetThresholds(metric) != NoThresholds
        <==> metric in AscendingMetrics + DescendingMetrics
  {
  }

  /**
    Every table the header lookup returns is strictly increasing in listed
    order; the lower-is-better ones have a `poor` threshold and the
    higher-is-better ones do not.
  */
  lemma MetricTablesOrdered(metric: string)
    ensures metric in AscendingMetrics ==>
      GetThresholds(metric).Thresholds? && GetThresholds(metric).poor.Some?
    ensures metric in DescendingMetrics ==>
      GetThresholds(metric).Thresholds? && GetThresholds(metric).poor.None?
    ensures GetThresholds(metric).Thresholds? ==>
      StrictlyIncreasing(ThresholdList(GetThresholds(metric)))
  {
  }

  /**
    Each lower-is-better column, as its header names it: green below
    `excellent`, yellow up to `good`, red from `good` on and for `NaN`.
  */
  lemma AscendingMetricTiers(metric: string, v: Num)
    requires metric in AscendingMetrics
    ensures var t := GetThresholds(metric);
      && t.Thresholds? && t.poor.Some?
      && var r := AscendingResult(ThresholdList(t), v);
      && r.interpolatedColor == r.basicColor
      && (r.basicColor == Green <==> v.Num? && v.x < t.excellent)
      && (r.basicColor == Yellow <==> v.Num? && t.excellent <= v.x < t.good)
      && (r.basicColor == Red <==> !v.Num? || t.good <= v.x)
  {
    MetricTablesOrdered(metric);
    AscendingTiers(ThresholdList(GetThresholds(metric)), v);
  }

  /**
    Each higher-is-better column, as its header names it: green above `good`,
    yellow above `excellent`, red at or below `excellent` and for `NaN`.
  */
  lemma DescendingMetricTiers(metric: string, v: Num)
    requires metric in DescendingMetrics
    ensures var t := GetThresholds(metric);
      && t.Thresholds? && t.poor.None?
      && var r := DescendingResult(ThresholdList(t), v);
      && (r == ScaleColors(Green, Green) <==> v.Num? && v.x > t.good)
      && (r.basicColor == Yellow <==> v.Num? && t.excellent < v.x <= t.good)
      && (r == ScaleColors(Red, Red) <==> !v.Num? || v.x <= t.excellent)
  {
    MetricTablesOrdered(metric);
    DescendingTiers(ThresholdList(GetThresholds(metric)), v);
  }
}
