/**
  The metric colour-tier evaluator of the stock screener's front end.

  Each metric has a fixed threshold table. A scale function walks the table
  with strict comparisons and returns two colours: the discrete tier colour
  (`basicColor`) and a shade picked from a three-entry colour scale
  (`interpolatedColor`). "Ascending" metrics are better when lower and scan
  `[excellent, good, poor]` upwards with `<`; "descending" metrics are better
  when higher and scan `[excellent, good]` downwards with `>`.
*/
module Scales {
  import opened Wrappers

  /**
    A JavaScript number as a scale function sees it. `NotANumber` stands for
    `NaN` and `undefined`, which every `<` and `>` comparison rejects.
  */
  datatype Num = Num(x: real) | NotANumber

  /** JavaScript's `v < t`. */
  predicate Below(v: Num, t: real) {
    v.Num? && v.x < t
  }

  /** JavaScript's `v > t`. */
  predicate Above(v: Num, t: real) {
    v.Num? && v.x > t
  }

  const Green: string := "#00FF00"
  const Yellow: string := "#FFFF00"
  const Red: string := "#FF0000"

  const GreenScale: seq<string> := [Green, "#55FF00", "#AAFF00"]
  const YellowScale: seq<string> := [Yellow, "#FFDD00", "#FFBB00"]
  const RedScale: seq<string> := [Red, "#FF3333", "#CC0000"]

  const ColorScales: seq<seq<string>> := [GreenScale, YellowScale, RedScale]

  /** What every scale function returns. */
  datatype ScaleColors = ScaleColors(interpolatedColor: string, basicColor: string)

  function Max(a: int, b: int): int {
    if a < b then b else a
  }

  /**
    Picks the shade of `colorScale` at index `max(0, floor((value - min) / (max - min)))`.
    `None` is JavaScript's `undefined`: an index past the end of the scale, or
    a zero divisor, where `(value - min) / 0` is `+Infinity` (no entry),
    `-Infinity` (clamped to index 0) or `NaN` (no entry).
  */
  function GetColorFromScale(value: real, min: real, max: real, colorScale: seq<string>): (r: Option<string>)
    ensures r.Some? ==> r.value in colorScale
    ensures max == min ==> (r.Some? <==> value < min && |colorScale| > 0)
    ensures max == min && r.Some? ==> r.value == colorScale[0]
    ensures max != min ==>
      (r.Some? <==> |colorScale| > 0 && (value - min) / (max - min) < |colorScale| as real)
  {
    if max == min then
      if value < min && |colorScale| > 0 then Some(colorScale[0]) else None
    else
      var index := Max(0, ((value - min) / (max - min)).Floor);
      if index < |colorScale| then Some(colorScale[index]) else None
  }

  /**
    Inside an ascending band `[min, max)` the ratio lies in `[0, 1)`, so the
    index is 0 and the divisor is not zero.
  */
  lemma AscendingBandShade(value: real, min: real, max: real, colorScale: seq<string>)
    requires min <= value < max
    requires |colorScale| >= 1
    ensures GetColorFromScale(value, min, max, colorScale) == Some(colorScale[0])
  {
    var d := max - min;
    var q := (value - min) / d;
    assert q * d == value - min;
    assert 0.0 <= q < 1.0;
  }

  /**
    Inside a descending band `(min, max]` the ratio lies in `(0, 1]`, so the
    index is 1 exactly at `value == max` and 0 otherwise.
  */
  lemma DescendingBandShade(value: real, min: real, max: real, colorScale: seq<string>)
    requires min < value <= max
    requires |colorScale| >= 2
    ensures GetColorFromScale(value, min, max, colorScale)
         == Some(colorScale[if value == max then 1 else 0])
  {
    var d := max - min;
    var q := (value - min) / d;
    assert q * d == value - min;
    if value == max {
      assert q == d / d == 1.0;
    } else {
      PositiveFactor(q, d);
      assert (1.0 - q) * d == d - q * d == max - value;
      PositiveFactor(1.0 - q, d);
    }
  }

  /** A product with a positive factor is positive only if the other factor is. */
  lemma PositiveFactor(a: real, b: real)
    requires b > 0.0 && a * b > 0.0
    ensures a > 0.0
  {
  }

  /**
    The band an ascending scan stops in: the first index whose threshold the
    value is below, or `|ts|` when it is below none of them.
  */
  function FirstBelow(ts: seq<real>, v: Num): (k: nat)
    ensures k <= |ts|
    ensures forall j :: 0 <= j < k ==> !Below(v, ts[j])
    ensures k < |ts| ==> Below(v, ts[k])
  {
    if ts == [] then 0
    else if Below(v, ts[0]) then 0
    else 1 + FirstBelow(ts[1..], v)
  }

  /**
    The band a descending scan stops in: one past the last index whose
    threshold the value is above, or 0 when it is above none of them.
  */
  function LastAbove(ts: seq<real>, v: Num): (k: nat)
    ensures k <= |ts|
    ensures forall j :: k <= j < |ts| ==> !Above(v, ts[j])
    ensures k > 0 ==> Above(v, ts[k - 1])
  {
    if ts == [] then 0
    else if Above(v, ts[|ts| - 1]) then |ts|
    else LastAbove(ts[..|ts| - 1], v)
  }

  /** Colours of an ascending scale, best first. */
  const AscendingColors: seq<string> := [Green, Yellow, Red]

  /** Colours of a descending scale, worst first. */
  const DescendingColors: seq<string> := [Red, Yellow, Green]

  /**
    What an ascending scale over `[excellent, good, poor]` returns: the colour
    of the band the scan stops in, red when it falls through, and the same
    colour as the interpolated one.
  */
  function AscendingResult(ts: seq<real>, v: Num): ScaleColors
    requires |ts| == 3
  {
    var band := FirstBelow(ts, v);
    var basic := if band < |ts| then AscendingColors[band] else Red;
    ScaleColors(basic, basic)
  }

  /**
    What a descending scale over `[excellent, good]` returns: green above
    `good`; yellow above `excellent`, with the interpolated shade taken from
    the green scale (its second shade exactly at `good`); red otherwise.
  */
  function DescendingResult(ts: seq<real>, v: Num): ScaleColors
    requires |ts| == 2
  {
    var band := LastAbove(ts, v);
    if band == 2 then ScaleColors(Green, Green)
    else if band == 1 then ScaleColors(GreenScale[if v.x == ts[1] then 1 else 0], Yellow)
    else ScaleColors(Red, Red)
  }

  /** The loop shared by the nine lower-is-better scale functions. */
  method AscendingScale(ts: seq<real>, v: Num) returns (r: ScaleColors)
    requires |ts| == 3
    ensures r == AscendingResult(ts, v)
    ensures r.interpolatedColor == r.basicColor
  {
    var colors := AscendingColors;
    for i := 0 to |ts|
      invariant forall j :: 0 <= j < i ==> !Below(v, ts[j])
    {
      if Below(v, ts[i]) {
        var interpolated: string;
        if i == 0 {
          interpolated := colors[i];
        } else {
          AscendingBandShade(v.x, ts[i - 1], ts[i], ColorScales[i]);
          var shade := GetColorFromScale(v.x, ts[i - 1], ts[i], ColorScales[i]);
          interpolated := shade.value;
        }
        return ScaleColors(interpolated, colors[i]);
      }
    }
    return ScaleColors(colors[|colors| - 1], colors[|colors| - 1]);
  }

  /** The loop shared by the four higher-is-better scale functions. */
  method DescendingScale(ts: seq<real>, v: Num) returns (r: ScaleColors)
    requires |ts| == 2
    ensures r == DescendingResult(ts, v)
  {
    var colors := DescendingColors;
    var i := |ts| - 1;
    while i >= 0
      invariant -1 <= i < |ts|
      invariant forall j :: i < j < |ts| ==> !Above(v, ts[j])
    {
      if Above(v, ts[i]) {
        var interpolated: string;
        if i == |ts| - 1 {
          interpolated := colors[i + 1];
        } else {
          DescendingBandShade(v.x, ts[i], ts[i + 1], ColorScales[i]);
          var shade := GetColorFromScale(v.x, ts[i], ts[i + 1], ColorScales[i]);
          interpolated := shade.value;
        }
        return ScaleColors(interpolated, colors[i + 1]);
      }
      i := i - 1;
    }
    return ScaleColors(colors[0], colors[0]);
  }

  /**
    A threshold table. `poor` is absent from the higher-is-better tables;
    `NoThresholds` is the empty object `{}`.
  */
  datatype Thresholds =
    | Thresholds(excellent: real, good: real, poor: Option<real>)
    | NoThresholds

  const PeThresholds: Thresholds := Thresholds(15.0, 25.0, Some(35.0))
  const PegThresholds: Thresholds := Thresholds(1.0, 2.0, Some(25.0))
  const PriceToSalesThresholds: Thresholds := Thresholds(1.0, 2.0, Some(25.0))
  const PriceToBookThresholds: Thresholds := Thresholds(1.0, 3.0, Some(25.0))
  const DividendYieldThresholds: Thresholds := Thresholds(2.0, 4.0, None)
  const PayoutRatioThresholds: Thresholds := Thresholds(0.5, 0.6, Some(0.8))
  const DebtToEquityThresholds: Thresholds := Thresholds(1.0, 2.0, Some(3.0))
  const CurrentRatioThresholds: Thresholds := Thresholds(1.0, 2.0, None)
  const BetaThresholds: Thresholds := Thresholds(1.0, 2.0, Some(3.0))
  const RoeThresholds: Thresholds := Thresholds(10.0, 20.0, None)
  const RoaThresholds: Thresholds := Thresholds(5.0, 10.0, None)
  const EvToRevenueThresholds: Thresholds := Thresholds(1.0, 3.0, Some(5.0))
  const EvToEbitdaThresholds: Thresholds := Thresholds(8.0, 10.0, Some(12.0))

  /** The thresholds of a table in listed order. */
  function ThresholdList(t: Thresholds): (ts: seq<real>)
    ensures t.NoThresholds? <==> ts == []
    ensures t.Thresholds? ==> |ts| == (if t.poor.Some? then 3 else 2) && ts[0] == t.excellent && ts[1] == t.good
    ensures t.Thresholds? && t.poor.Some? ==> ts[2] == t.poor.value
  {
    match t
    case NoThresholds => []
    case Thresholds(excellent, good, poor) =>
      [excellent, good] + (match poor case Some(p) => [p] case None => [])
  }

  method PeScale(pe: Num) returns (r: ScaleColors)
    ensures r == AscendingResult(ThresholdList(PeThresholds), pe)
  {
    r := AscendingScale(ThresholdList(PeThresholds), pe);
  }

  method PegScale(peg: Num) returns (r: ScaleColors)
    ensures r == AscendingResult(ThresholdList(PegThresholds), peg)
  {
    r := AscendingScale(ThresholdList(PegThresholds), peg);
  }

  method PriceToSalesScale(priceToSales: Num) returns (r: ScaleColors)
    ensures r == AscendingResult(ThresholdList(PriceToSalesThresholds), priceToSales)
  {
    r := AscendingScale(ThresholdList(PriceToSalesThresholds), priceToSales);
  }

  method PriceToBookScale(priceToBook: Num) returns (r: ScaleColors)
    ensures r == AscendingResult(ThresholdList(PriceToBookThresholds), priceToBook)
  {
    r := AscendingScale(ThresholdList(PriceToBookThresholds), priceToBook);
  }

  method DividendYieldScale(dividendYield: Num) returns (r: ScaleColors)
    ensures r == DescendingResult(ThresholdList(DividendYieldThresholds), dividendYield)
  {
    r := DescendingScale(ThresholdList(DividendYieldThresholds), dividendYield);
  }

  method PayoutRatioScale(payoutRatio: Num) returns (r: ScaleColors)
    ensures r == AscendingResult(ThresholdList(PayoutRatioThresholds), payoutRatio)
  {
    r := AscendingScale(ThresholdList(PayoutRatioThresholds), payoutRatio);
  }

  method DebtToEquityScale(debtToEquity: Num) returns (r: ScaleColors)
    ensures r == AscendingResult(ThresholdList(DebtToEquityThresholds), debtToEquity)
  {
    r := AscendingScale(ThresholdList(DebtToEquityThresholds), debtToEquity);
  }

  method CurrentRatioScale(currentRatio: Num) returns (r: ScaleColors)
    ensures r == DescendingResult(ThresholdList(CurrentRatioThresholds), currentRatio)
  {
    r := DescendingScale(ThresholdList(CurrentRatioThresholds), currentRatio);
  }

  method BetaScale(beta: Num) returns (r: ScaleColors)
    ensures r == AscendingResult(ThresholdList(BetaThresholds), beta)
  {
    r := AscendingScale(ThresholdList(BetaThresholds), beta);
  }

  method RoeScale(roe: Num) returns (r: ScaleColors)
    ensures r == DescendingResult(ThresholdList(RoeThresholds), roe)
  {
    r := DescendingScale(ThresholdList(RoeThresholds), roe);
  }

  method RoaScale(roa: Num) returns (r: ScaleColors)
    ensures r == DescendingResult(ThresholdList(RoaThresholds), roa)
  {
    r := DescendingScale(ThresholdList(RoaThresholds), roa);
  }

  method EvToRevenueScale(evToRevenue: Num) returns (r: ScaleColors)
    ensures r == AscendingResult(ThresholdList(EvToRevenueThresholds), evToRevenue)
  {
    r := AscendingScale(ThresholdList(EvToRevenueThresholds), evToRevenue);
  }

  method EvToEbitdaScale(evToEbitda: Num) returns (r: ScaleColors)
    ensures r == AscendingResult(ThresholdList(EvToEbitdaThresholds), evToEbitda)
  {
    r := AscendingScale(ThresholdList(EvToEbitdaThresholds), evToEbitda);
  }

  /** The table shown for a column header; `{}` for any other title. */
  function GetThresholds(metric: string): (t: Thresholds)
    ensures t.Thresholds? ==> 0.0 < t.excellent < t.good
    ensures t.Thresholds? && t.poor.Some? ==> t.good < t.poor.value
  {
    if metric == "P/E" then PeThresholds
    else if metric == "PEG" then PegThresholds
    else if metric == "P/S" then PriceToSalesThresholds
    else if metric == "P/B" then PriceToBookThresholds
    else if metric == "Dividend Yield" then DividendYieldThresholds
    else if metric == "Payout Ratio" then PayoutRatioThresholds
    else if metric == "Debt/Equity" then DebtToEquityThresholds
    else if metric == "Current Ratio" then CurrentRatioThresholds
    else if metric == "Beta" then BetaThresholds
    else if metric == "ROE" then RoeThresholds
    else if metric == "ROA" then RoaThresholds
    else if metric == "EV/Revenue" then EvToRevenueThresholds
    else if metric == "EV/EBITDA" then EvToEbitdaThresholds
    else NoThresholds
  }
}
