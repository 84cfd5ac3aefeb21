# Stock screener: metric colour tiers and ticker-list parsing

This project is a Dafny model of the two pieces of logic in the stock screener.

**The colour-tier evaluator** is `frontend/src/utils/scales.ts`. Thirteen metrics each have a fixed threshold table. A scale function maps a metric value to a pair `{interpolatedColor, basicColor}`:

- **Lower-is-better metrics.** These are P/E, PEG, P/S, P/B, payout ratio, debt/equity, beta, EV/Revenue and EV/EBITDA. Their scale walks `[excellent, good, poor]` upwards with a strict `<`.
- **Higher-is-better metrics.** These are dividend yield, current ratio, ROE and ROA. Their scale walks `[excellent, good]` downwards with a strict `>`.
- **Shades.** `getColorFromScale` picks a shade from one of three three-entry colour scales.
- **Header lookup.** `getThresholds` maps a column title to its table.

**The ticker-list parser** is the symbol handling of the back end's `/api/stock` endpoint (`backend/src/main.py`):

- The `tickers` query parameter defaults to `"NVDA"`.
- It is split on commas.
- Each piece is stripped and upper-cased, and empty pieces are dropped.
- The list is refused when it is empty or holds more than 50 symbols.

## Modules

- `wrappers.dfy`, module `Wrappers`: the `Option` and `Result` datatypes. `None` stands for JavaScript's `undefined`.
- `scales.dfy`, module `Scales`: the model of `scales.ts`.
  - **Values.** A JavaScript number is `Num(x: real)`, or `NotANumber` for `NaN` and `undefined`. Every `<` and `>` on `NotANumber` is false.
  - **Colours.** Colours are the source's hex strings.
  - **Loops.** The two loop shapes are the methods `AscendingScale` and `DescendingScale`. Each keeps the source's `for` loop and early `return`. Each is proved equal to a specification function, `AscendingResult` or `DescendingResult`. Those are built on the scans `FirstBelow` and `LastAbove`.
  - **Named scales.** Each of the thirteen named scale functions is a method that runs the shared loop on its own table.
- `scale_properties.dfy`, module `ScaleProperties`: what the scales promise. This covers tiers, boundaries, the fall-through for `NaN`, monotonicity, and the header lookup.
- `tickers.dfy`, module `Tickers`: the model of `main.py:29-36`. It is written as pure functions: Python's `split`, `strip` and `upper` on ASCII, the list comprehension, and the two guard returns.

## Behaviour of the code worth knowing

- **Boundaries.** Comparisons are strict, so a value equal to a threshold falls on the less favourable side in both directions. At P/E 15 the colour is already yellow, and at ROE 20 it is only yellow. See `AscendingThresholdIsWorse` and `DescendingThresholdIsWorse`.
- **Missing values.** `NaN` and `undefined` fail every comparison and fall through to red/red (`NotANumberIsRed`). JavaScript's `null` compares as `0`, so a `null` input is the caller passing `Num(0.0)`.
- **Unknown titles.** `getThresholds` returns `{}` (`NoThresholds`) for any title other than the thirteen it lists.
- **Shades.** The interpolated colour comes straight from the tier colours in the first band checked and on fall-through. Lower-is-better scales use `colors[0]` below `excellent` and red on fall-through. Higher-is-better scales use green above `good` and red on fall-through. Only in the other bands is it the entry `getColorFromScale` picks from `colorScales[i]`, from the value's position between two thresholds.
- **Lower-is-better scales.** Inside band `i ≥ 1` the ratio lies in `[0, 1)`, so the index is 0. `colorScales[i][0]` equals `colors[i]`, so the interpolated colour always equals the basic colour. The `poor` threshold never changes the result, because at or above `good` the colour is red either way (`AscendingIgnoresPoor`).
- **Higher-is-better scales.** The yellow band takes its interpolated shade from the green scale (`colorScales[0]`). That shade is `#00FF00`, or `#55FF00` exactly at `good`.
- **Index bounds.** The early returns already force `t[i-1] ≤ v < t[i]` (lower-is-better) or `t[i] < v ≤ t[i+1]` (higher-is-better). So the divisor given to `getColorFromScale` is never zero and the index is 0 or 1, whatever the table. The tables are also strictly increasing (`MetricTablesOrdered`), but the bounds fact does not depend on that.

## Model

| member | source | states |
|---|---|---|
| `Scales.GetColorFromScale` | frontend/src/utils/scales.ts:13-25 | The shade picked is always one of the scale's entries. With a zero divisor a shade comes exactly when the value is below `min`, and it is entry 0, as `-Infinity` clamps to 0 while `+Infinity` and `NaN` index nothing. Otherwise a shade comes exactly when the ratio `(value - min) / (max - min)` is below the scale's length; past the end the result is `None` (`undefined`). |
| `Scales.AscendingBandShade` | frontend/src/utils/scales.ts:19-24 | For `min ≤ value < max` the divisor is nonzero, the index is 0, and the first shade is returned. |
| `Scales.DescendingBandShade` | frontend/src/utils/scales.ts:19-24 | For `min < value ≤ max` the index is 1 exactly at `value == max` and 0 otherwise. It is always within the scale. |
| `Scales.FirstBelow` | frontend/src/utils/scales.ts:46-47 | The upward scan stops at the first threshold the value is strictly below. It has passed every earlier threshold, or falls through at `|ts|`. |
| `Scales.LastAbove` | frontend/src/utils/scales.ts:136-137 | The downward scan stops one past the last threshold the value is strictly above. It has failed every higher threshold, or falls through at 0. |
| `Scales.AscendingScale` | frontend/src/utils/scales.ts:42-59 | The lower-is-better loop returns the colour of the band the scan stops in, or red on fall-through. Its interpolated colour equals its basic colour, via the shade at index 0 of `colorScales[i]`. |
| `Scales.DescendingScale` | frontend/src/utils/scales.ts:129-149 | The higher-is-better loop returns green/green above `good`, yellow with a green-scale shade above `excellent`, and red/red otherwise. |
| `Scales.PeScale` | frontend/src/utils/scales.ts:42-59 | P/E is the lower-is-better scale on 15/25/35. |
| `Scales.PegScale` | frontend/src/utils/scales.ts:61-78 | PEG is the lower-is-better scale on 1/2/25. |
| `Scales.PriceToSalesScale` | frontend/src/utils/scales.ts:80-104 | P/S is the lower-is-better scale on 1/2/25. |
| `Scales.PriceToBookScale` | frontend/src/utils/scales.ts:106-127 | P/B is the lower-is-better scale on 1/3/25. |
| `Scales.DividendYieldScale` | frontend/src/utils/scales.ts:129-149 | Dividend yield is the higher-is-better scale on 2/4. |
| `Scales.PayoutRatioScale` | frontend/src/utils/scales.ts:151-172 | Payout ratio is the lower-is-better scale on 0.5/0.6/0.8. |
| `Scales.DebtToEquityScale` | frontend/src/utils/scales.ts:174-198 | Debt/equity is the lower-is-better scale on 1/2/3. |
| `Scales.CurrentRatioScale` | frontend/src/utils/scales.ts:200-220 | Current ratio is the higher-is-better scale on 1/2. |
| `Scales.BetaScale` | frontend/src/utils/scales.ts:222-239 | Beta is the lower-is-better scale on 1/2/3. |
| `Scales.RoeScale` | frontend/src/utils/scales.ts:241-258 | ROE is the higher-is-better scale on 10/20. |
| `Scales.RoaScale` | frontend/src/utils/scales.ts:260-277 | ROA is the higher-is-better scale on 5/10. |
| `Scales.EvToRevenueScale` | frontend/src/utils/scales.ts:279-300 | EV/Revenue is the lower-is-better scale on 1/3/5. |
| `Scales.EvToEbitdaScale` | frontend/src/utils/scales.ts:302-323 | EV/EBITDA is the lower-is-better scale on 8/10/12. |
| `Scales.ThresholdList` | frontend/src/utils/scales.ts:43 | A table's thresholds in listed order: `excellent`, `good`, then `poor` when the table has one; empty for `{}`. The other twelve scales build the same array (line 62, line 84 and so on). |
| `Scales.GetThresholds` | frontend/src/utils/scales.ts:340-371 | Every table the header lookup returns is strictly increasing and positive: `0 < excellent < good < poor`. Which table each title gets is `GetThresholdsIsTableLookup`. |
| `ScaleProperties.AscendingTiers` | frontend/src/utils/scales.ts:42-59 | Green iff `v < excellent`. Yellow iff `excellent ≤ v < good`. Red iff `v` is NaN or at least both thresholds. Interpolated equals basic. |
| `ScaleProperties.DescendingTiers` | frontend/src/utils/scales.ts:129-149 | Green/green iff `v > good`. Yellow iff `excellent < v ≤ good`, with shade `#00FF00`, or `#55FF00` at `good`. Red/red iff `v` is NaN or at most both thresholds. |
| `ScaleProperties.BasicColorIsATier` | frontend/src/utils/scales.ts:3-5 | Every basic colour is green, yellow or red, in both directions. |
| `ScaleProperties.AscendingThresholdIsWorse` | frontend/src/utils/scales.ts:46-47 | With strictly increasing thresholds, a value equal to threshold `i` lands in band `i + 1`, the less favourable side. |
| `ScaleProperties.DescendingThresholdIsWorse` | frontend/src/utils/scales.ts:136-137 | With strictly increasing thresholds, a value equal to threshold `i` lands in band `i`, the less favourable side. |
| `ScaleProperties.AscendingBoundaries` | frontend/src/utils/scales.ts:43-58 | At `excellent` the colour is yellow. At `good` and at `poor` it is red. |
| `ScaleProperties.DescendingBoundaries` | frontend/src/utils/scales.ts:133-148 | At `good` the result is `#55FF00`/yellow. At `excellent` it is red/red. |
| `ScaleProperties.NotANumberIsRed` | frontend/src/utils/scales.ts:56-58 | NaN/undefined falls through to red/red in both directions. |
| `ScaleProperties.FirstBelowMonotone` | frontend/src/utils/scales.ts:46-47 | A larger value never stops the upward scan earlier. |
| `ScaleProperties.LastAboveMonotone` | frontend/src/utils/scales.ts:136-137 | A larger value never stops the downward scan lower. |
| `ScaleProperties.AscendingMonotone` | frontend/src/utils/scales.ts:46-58 | Raising the value never gives a more favourable colour. NaN is the least favourable. |
| `ScaleProperties.DescendingMonotone` | frontend/src/utils/scales.ts:136-148 | Raising the value never gives a less favourable colour. NaN is the least favourable. |
| `ScaleProperties.AscendingIgnoresPoor` | frontend/src/utils/scales.ts:43-58 | Two lower-is-better tables that agree on `excellent` and `good` colour every value the same. |
| `ScaleProperties.GetThresholdsIsTableLookup` | frontend/src/utils/scales.ts:340-371 | The lookup returns each of the 13 titles' tables and `{}` for every other string. It is non-empty exactly on the 13 titles. |
| `ScaleProperties.MetricTablesOrdered` | frontend/src/utils/scales.ts:28-40 | Every table is strictly increasing in listed order. The lower-is-better ones have `poor` and the higher-is-better ones do not. |
| `ScaleProperties.AscendingMetricTiers` | frontend/src/utils/scales.ts:340-371 | For each lower-is-better title, the tier is stated through its looked-up table. |
| `ScaleProperties.DescendingMetricTiers` | frontend/src/utils/scales.ts:340-371 | For each higher-is-better title, the tier is stated through its looked-up table. |
| `Tickers.UpperChar` | backend/src/main.py:30 | A lower-case letter becomes its capital (`'a'` to `'A'`, code minus 32). Every other character is unchanged, so whitespace and commas are kept and no lower-case letter remains. |
| `Tickers.Upper` | backend/src/main.py:30 | Same length, upper-cased character by character. |
| `Tickers.SkipSpaces` | backend/src/main.py:30 | The leading part that `strip` drops is all whitespace and stops at a non-space or the end. |
| `Tickers.BackOverSpaces` | backend/src/main.py:30 | The trailing part that `strip` drops is all whitespace and stops after a non-space or at the start. |
| `Tickers.Strip` | backend/src/main.py:30 | No whitespace at either end. Empty exactly when the input is all whitespace. The result is the input's run from its first non-space, followed in the input only by whitespace. |
| `Tickers.Split` | backend/src/main.py:30 | There is always at least one piece, even for an empty input. |
| `Tickers.SplitPiecesLackSeparator` | backend/src/main.py:30 | No piece contains the separator. |
| `Tickers.SplitWithoutSeparator` | backend/src/main.py:30 | A string without the separator is a single piece, itself. |
| `Tickers.SplitCons` | backend/src/main.py:30 | A leading separator opens an empty piece. Any other leading character joins the first piece. |
| `Tickers.SplitCount` | backend/src/main.py:30 | The number of pieces is the number of separators plus one. |
| `Tickers.JoinSplit` | backend/src/main.py:30 | Joining the pieces with the separator gives back the input. |
| `Tickers.SplitConcat` | backend/src/main.py:30 | Splitting `a + sep + b` gives the pieces of `a` followed by those of `b`. |
| `Tickers.CleanedIsSymbol` | backend/src/main.py:30 | A non-blank comma-free piece, stripped and upper-cased, is a well-formed symbol. |
| `Tickers.CleanPiece` | backend/src/main.py:30 | Each piece yields at most one symbol, and a well-formed one when the piece has no comma. |
| `Tickers.CleanPieces` | backend/src/main.py:30 | There are no more symbols than pieces. |
| `Tickers.CleanPiecesAreSymbols` | backend/src/main.py:30 | Comma-free pieces yield only non-empty, trimmed, comma-free, upper-case symbols. |
| `Tickers.CleanPiecesConcat` | backend/src/main.py:30 | The comprehension maps concatenated piece lists to concatenated results, so order is kept. |
| `Tickers.ParseSymbols` | backend/src/main.py:30 | At most (commas + 1) symbols, each non-empty, trimmed, comma-free and upper-case. |
| `Tickers.ParseSymbolsConcat` | backend/src/main.py:30 | The symbols of `a,b` are those of `a` followed by those of `b`, so order and duplicates are kept. |
| `Tickers.ParseSymbolsPiece` | backend/src/main.py:30 | A comma-free piece yields nothing if it is blank, otherwise its stripped, upper-cased self. |
| `Tickers.ParseSymbolsEmpty` | backend/src/main.py:30 | The list is empty exactly when the parameter is only commas and whitespace. |
| `Tickers.SymbolIsClean` | backend/src/main.py:30 | Stripping and upper-casing leave a well-formed symbol unchanged. |
| `Tickers.ParseSingleSymbol` | backend/src/main.py:30 | A lone well-formed symbol parses to the one-element list holding it. |
| `Tickers.BlankAroundComma` | backend/src/main.py:30 | A parameter is blank exactly when both sides of any one of its commas are blank. |
| `Tickers.ParseJoinedSymbols` | backend/src/main.py:30 | Parsing the comma-joined form of well-formed symbols gives the same list back. |
| `Tickers.ParseTickers` | backend/src/main.py:29-36 | Success carries 1 to 50 well-formed symbols. Failure carries one of the two error messages. |
| `Tickers.ParseTickersOutcome` | backend/src/main.py:30-36 | For every parameter: accepted exactly when it parses to 1 to 50 symbols, and then the parsed list is returned as is. The "Maximum of 50" error comes exactly when it parses to more than 50. |
| `Tickers.MixedCaseParameter` | backend/src/main.py:30-36 | `" aapl,msft "` is accepted as `["AAPL", "MSFT"]`: pieces are stripped and upper-cased, and order is kept. |
| `Tickers.DefaultIsNvda` | backend/src/main.py:29 | With no `tickers` parameter the result is `["NVDA"]`. |
| `Tickers.ParseTickersLimits` | backend/src/main.py:33-36 | On joined symbol lists: empty gives "No ticker symbols provided.", more than 50 gives "Maximum of 50 ticker symbols allowed.", and 1 to 50 (exactly 50 included) is accepted unchanged. |
| `Tickers.BlankParameterRefused` | backend/src/main.py:30-34 | The "no symbols" error comes exactly when the parameter is only commas and whitespace. |

## Left out

- Numbers are exact reals, not IEEE doubles. Rounding in `(value - min) / (max - min)` is not modelled. Only NaN's "every comparison is false" is modelled, as `NotANumber`.
- JavaScript's coercion of `null` to `0` in comparisons is left to the caller, who passes `Num(0.0)`.
- `Tickers.Strip`: only ASCII whitespace is stripped. Python's `str.strip` also strips non-ASCII whitespace such as U+0085, U+00A0 and U+2000-U+200A.
- `Tickers.Upper`: only `a`-`z` are mapped. Python's `str.upper` also maps non-ASCII letters, sometimes to several characters (`ß` becomes `SS`).
- The handler's `print` logging (main.py:28, 31-32) is not modelled. It is console output and does not affect the result.
- The error outcome is the message string. The JSON wrapper `{"error": ...}` around it is not modelled.
- The rest of `main.py` is not modelled: the FastAPI app and CORS set-up, the health check, the `yf.Tickers` fetch loop with its swallowed exceptions, and the `__main__` demonstration. These are network and library I/O.
- The React components that call the scales are not modelled. Neither are the opacity strings, the number formatting, or the `colorScales.flat()` display in the header cell. These are presentation.
- Local storage, file import and export, and the price-chart widget are not modelled. These are browser I/O.
