# Turkey hunger-line and GDP per capita charts, modelled in Dafny

The repository draws three line charts with Chart.js inside React
components. This project models the logic under the drawing:

- **Hunger line vs. minimum wage** (`components/HungerMinWageUsdChart.tsx`). The data are fixed tables:
  - the hunger line in nominal USD;
  - the hunger line as a multiple of the minimum wage;
  - the US CPI.
  
  The component derives three series from them:
  - the minimum wage in USD (`hunger / multiple`, to the cent), with the reported figure 653 replacing the last year;
  - the hunger/wage ratio, to three decimals;
  - inflation-adjusted ("real", 2024 dollars) versions of the two dollar series, each point scaled by `cpi[base] / cpi[year]` and rounded to the cent.
  
  A point that is not a finite number becomes a gap. A toggle switches between nominal and real dollars.
- **GDP per capita** (`components/GdpPerCapitaChart.tsx`): current and constant series, either nominal or PPP. The y axis runs from `max(0, min - 2000)` to `max + 2000` over both series.
- **GDP per capita ranking** (`components/GdpPerCapitaRankingChart.tsx`): the world rank and the percent of the world average, nominal or PPP. The rank axis runs from `min - 5` to `max + 5`. The percent axis runs from `max(0, min - 20)` to `max + 20`.

All three charts share two pieces of logic:
- **The legend click rule.** A click toggles one dataset's visibility, but the only visible dataset is never hidden.
- **The tooltip.** It prints ` label: value`, or a dash for a gap. The GDP chart as written shows a garbled placeholder instead of the dash; see "## Findings".

## Modules

| file | module | contents |
|---|---|---|
| `values.dfy` | `ChartValues` | Points are `Missing` (NaN, ±Infinity or undefined) or `Val(r)`. Also holds `toFixed` rounding (half away from zero), guarded division, and their lemmas. |
| `extrema.dfy` | `Extrema` | `Math.min(...xs)` and `Math.max(...xs)` on non-empty sequences, how the extrema of a concatenation bound both halves, and the two axis-range shapes: padded, and padded with a floor at 0. |
| `legend.dfy` | `Legend` | The legend click rule, both as a function on visibility flags and as a method updating an array in place. |
| `tooltip.dfy` | `TooltipText` | The tooltip line format (a prefix, then the body) and its injectivity. |
| `hunger_min_wage_usd_chart.dfy` | `HungerMinWageUsdChart` | The tables, the derivation pipeline, the mode projection, the tooltip, and the `ChartView` class (mode and visibility). |
| `gdp_per_capita_chart.dfy` | `GdpPerCapitaChart` | The tables, the projection, the y-axis range, the tooltip as written and as intended, and `ChartView`. |
| `gdp_per_capita_ranking_chart.dfy` | `GdpPerCapitaRankingChart` | The tables, the projection, both axis ranges, the tooltip, and `ChartView`. |

Some modelling decisions:
- Each chart's React state becomes a `ChartView` object:
  - `mode` is a field;
  - the per-dataset visibility that Chart.js keeps is a `visible: array<bool>`.
  
  `HandleModeSelect` and `OnLegendClick` update these in place. Their invariant `Valid()` states that at least one dataset is always visible.
- The `Intl.NumberFormat` formatters are parameters of the tooltip functions, of type `real -> string`.
- The last multiple of the hunger table is the quotient `30126 / 28075`, about 1.073. This is the "2026 oran ≈ 1.07" of the subtitle line `ratioLine` (components/HungerMinWageUsdChart.tsx:100). The model keeps that exact quotient. Because the wage at the last position is overridden to 653, its exact value never reaches a plotted point.

## Model

| member | source | states |
|---|---|---|
| `ChartValues.IsFiniteNumber` | components/HungerMinWageUsdChart.tsx:30-32 | Defines the encoding of the finiteness test rather than stating a proved result: a point passes exactly when it carries a real number, and NaN, the infinities and `undefined` are all the one `Missing` point. |
| `ChartValues.At` | components/HungerMinWageUsdChart.tsx:55-57 | Defines the encoding of a JavaScript array read rather than stating a proved result: a read inside the table gives the entry, and a read past either end gives `undefined`, a gap. |
| `ChartValues.RoundValue` | components/HungerMinWageUsdChart.tsx:62 | Rounding a point keeps a gap a gap and a number a number. |
| `ChartValues.Div` | components/HungerMinWageUsdChart.tsx:78-80 | The guarded quotient is a gap exactly when an operand is a gap or the divisor is zero. Otherwise the quotient times the divisor gives back the dividend. |
| `ChartValues.Round` | components/HungerMinWageUsdChart.tsx:62 | `+x.toFixed(n)` is within half a unit of the n-th decimal of x. For non-negative x, `RoundTo` pins its value; `RoundSymmetric` gives negative x from -x, and `RoundExact` and `RoundIdempotent` fix it on multiples of 10^-n. |
| `ChartValues.RoundExact` | components/HungerMinWageUsdChart.tsx:62 | A multiple of 10^-n is unchanged by rounding to n decimals. |
| `ChartValues.RoundTo` | components/HungerMinWageUsdChart.tsx:62 | A non-negative value rounds to k/10^n when k is the integer nearest to x·10^n. |
| `ChartValues.RoundSymmetric` | components/HungerMinWageUsdChart.tsx:62 | Rounding -x gives minus the rounding of x, as `toFixed` formats a negative number as the rounding of its magnitude with a minus sign. |
| `ChartValues.RoundIdempotent` | components/HungerMinWageUsdChart.tsx:62 | Rounding twice to n decimals equals rounding once. |
| `ChartValues.RoundValueIdempotent` | components/HungerMinWageUsdChart.tsx:80 | Rounding a point twice equals rounding it once. This is why an already rounded wage passes unchanged through the base-year adjustment. |
| `Extrema.MinOf` | components/GdpPerCapitaChart.tsx:168 | `Math.min` of a non-empty list is one of its elements and is at most every element. |
| `Extrema.MaxOf` | components/GdpPerCapitaChart.tsx:169 | `Math.max` of a non-empty list is one of its elements and is at least every element. |
| `Extrema.PaddedAxis` | components/GdpPerCapitaRankingChart.tsx:262-263 | Every value lies at least `margin` inside `min - margin` to `max + margin`. The lowest and the highest value lie exactly `margin` inside. |
| `Extrema.FlooredAxis` | components/GdpPerCapitaChart.tsx:243-244 | `max(0, min - margin)` is never negative. It is at most `max(0, v - margin)` for every value v, and equals it for one v. `max + margin` is at least every value plus `margin`, and is exactly that for one value. |
| `Extrema.ConcatBounds` | components/GdpPerCapitaChart.tsx:167-169 | The extrema of `[...a, ...b]` bound every element of a and of b, and each extremum comes from a or from b. |
| `Legend.VisibleCount` | components/HungerMinWageUsdChart.tsx:224-227 | The number of visible datasets never exceeds the number of datasets. |
| `Legend.Clicked` | components/HungerMinWageUsdChart.tsx:218-240 | A click produces one visibility flag per dataset. |
| `Legend.NoneVisible` | components/HungerMinWageUsdChart.tsx:224-227 | The visible count is zero exactly when no dataset is visible. |
| `Legend.OnlyVisible` | components/HungerMinWageUsdChart.tsx:229-232 | The guard "visible count is 1 and the clicked dataset is visible" holds exactly when the clicked dataset is visible and no other is. |
| `Legend.CountAfterFlip` | components/HungerMinWageUsdChart.tsx:234-238 | Toggling one dataset changes the visible count by exactly one, down if it was visible and up if it was hidden. |
| `Legend.ClickKeepsOneVisible` | components/HungerMinWageUsdChart.tsx:229-238 | After a click at least one dataset is visible, provided one was visible before or a dataset was clicked. |
| `Legend.ClickIsLocal` | components/HungerMinWageUsdChart.tsx:218-240 | A click on dataset i leaves every other dataset as it was. Dataset i is left unchanged exactly when it is the only visible one. |
| `Legend.ClickUndefinedIsNoop` | components/HungerMinWageUsdChart.tsx:221-222 | A click whose dataset index is undefined changes nothing. |
| `Legend.ClickTwiceRestores` | components/HungerMinWageUsdChart.tsx:218-240 | While some dataset is visible, two clicks on the same entry restore every flag. |
| `Legend.Click` | components/HungerMinWageUsdChart.tsx:218-240 | The in-place handler leaves the flags array equal to `Clicked` of its old contents. |
| `TooltipText.Line` | components/HungerMinWageUsdChart.tsx:130-134 | Defines the tooltip line format rather than stating a proved result: a line is the prefix `` ` ${label}: ` `` followed by exactly the body. `LineInjective` is the property built on it. |
| `TooltipText.LineInjective` | components/HungerMinWageUsdChart.tsx:130-134 | Two tooltip lines for the same dataset are equal exactly when their bodies are. |
| `HungerMinWageUsdChart.IndexOf` | components/HungerMinWageUsdChart.tsx:48 | `indexOf` returns -1 exactly when the year is absent. Otherwise it returns the first position holding the year. |
| `HungerMinWageUsdChart.BaseIndex` | components/HungerMinWageUsdChart.tsx:47-50 | `CPI_BASE_INDEX` is the base year's first position, or the last position when the year is missing. It is always in range for non-empty labels. |
| `HungerMinWageUsdChart.LabelsAreConsecutive` | components/HungerMinWageUsdChart.tsx:34-37 | The 25 labels are the consecutive years 2002 to 2026. |
| `HungerMinWageUsdChart.CpiBaseIndexIsBaseYear` | components/HungerMinWageUsdChart.tsx:40-50 | The base index is 22, the position of 2024, where the CPI table holds 318.13. |
| `HungerMinWageUsdChart.TablesAligned` | components/HungerMinWageUsdChart.tsx:34-75 | The CPI, hunger and multiple tables each have one entry per label. |
| `HungerMinWageUsdChart.AdjustPoint` | components/HungerMinWageUsdChart.tsx:56-62 | An adjusted point is a gap exactly when the value, the year's CPI or the base CPI is a gap, or the year's CPI is zero. Otherwise it is `round2(value * (base / yearCpi))`, half away from zero, and so within half a cent of the product. |
| `HungerMinWageUsdChart.AdjustSeriesForInflation` | components/HungerMinWageUsdChart.tsx:54-63 | There is one output per input. Output i depends only on `series[i]`, `cpi[i]` and `cpi[baseIndex]`, with out-of-range reads acting as undefined. |
| `HungerMinWageUsdChart.AdjustAtBase` | components/HungerMinWageUsdChart.tsx:54-63 | At the base index the multiplier is 1, so the adjusted point is the value rounded to the cent. |
| `HungerMinWageUsdChart.AdjustGapIsLocal` | components/HungerMinWageUsdChart.tsx:57-62 | Take a position i that is not the base index. A zero, missing or out-of-range CPI at i puts a gap at i, and every other position is unchanged. At the base index a bad CPI affects every point; `AdjustWithoutBase` covers the missing case. |
| `HungerMinWageUsdChart.AdjustWithoutBase` | components/HungerMinWageUsdChart.tsx:55-60 | A missing base CPI turns every point into a gap, and the length is kept. |
| `HungerMinWageUsdChart.AdjustHalvesAtDoubleCpi` | components/HungerMinWageUsdChart.tsx:54-63 | Values [100, 100] with CPI [100, 200] and base 0 adjust to [100.00, 50.00]. |
| `HungerMinWageUsdChart.MinWageUsd` | components/HungerMinWageUsdChart.tsx:77-81 | The last position is 653. Every other position is a gap exactly when the quotient is not finite, and otherwise within half a cent of `hunger / k`. |
| `HungerMinWageUsdChart.WagePoint` | components/HungerMinWageUsdChart.tsx:78-80 | A derived wage is a gap exactly when the quotient is not finite. Otherwise it is within half a cent of it. |
| `HungerMinWageUsdChart.OverrideTakesPrecedence` | components/HungerMinWageUsdChart.tsx:78 | The last wage is 653, whatever the tables hold at that position. |
| `HungerMinWageUsdChart.MinWageBelowLast` | components/HungerMinWageUsdChart.tsx:79-80 | Below the last position the wage is exactly the guarded quotient rounded to the cent. |
| `HungerMinWageUsdChart.Ratio` | components/HungerMinWageUsdChart.tsx:83-87 | A ratio point is a gap exactly when `hunger / wage` is not finite. Otherwise it is within 0.0005 of it. |
| `HungerMinWageUsdChart.RatioPoint` | components/HungerMinWageUsdChart.tsx:84-86 | One ratio point is a gap exactly when the quotient is not finite. Otherwise it is within 0.0005 of it. |
| `HungerMinWageUsdChart.RatioConsistency` | components/HungerMinWageUsdChart.tsx:83-87 | Where hunger and a non-zero wage are numbers, the ratio equals `round3(hunger / wage)`. |
| `HungerMinWageUsdChart.RatioUsesOverriddenWage` | components/HungerMinWageUsdChart.tsx:77-87 | The last ratio is computed from the overridden wage 653, not from the derived quotient. |
| `HungerMinWageUsdChart.LastRatioUsesReportedWage` | components/HungerMinWageUsdChart.tsx:77-87 | For the chart's own tables, the last wage is 653 and the last ratio is `round3(700.7 / 653)`. |
| `HungerMinWageUsdChart.LastRatioValue` | components/HungerMinWageUsdChart.tsx:83-87 | The last ratio of the chart is 1.073. |
| `HungerMinWageUsdChart.WageAndRatioAtFirstRow` | components/HungerMinWageUsdChart.tsx:77-87 | Hunger 212.06 at multiple 1.88 gives wage 112.80 and ratio 1.880. |
| `HungerMinWageUsdChart.FirstYearWageAndRatio` | components/HungerMinWageUsdChart.tsx:66-87 | The 2002 wage of the chart is 112.80 and its ratio is 1.880. |
| `HungerMinWageUsdChart.Project` | components/HungerMinWageUsdChart.tsx:94-99 | Real mode selects the adjusted series with "2024 $" and "USD (2024 $)". Nominal mode selects the raw series with "$" and "USD ($)". Every series has one point per label, and the ratio is the same series in both modes. |
| `HungerMinWageUsdChart.RatioIsModeIndependent` | components/HungerMinWageUsdChart.tsx:94-99 | The ratio dataset does not depend on the dollar mode. |
| `HungerMinWageUsdChart.RealHungerAtBaseYear` | components/HungerMinWageUsdChart.tsx:89 | The real hunger line of 2024 equals the nominal one. |
| `HungerMinWageUsdChart.RealMinWageAtBaseYear` | components/HungerMinWageUsdChart.tsx:90 | The real wage of 2024 equals the nominal one. |
| `HungerMinWageUsdChart.RealMatchesNominalAtBaseYear` | components/HungerMinWageUsdChart.tsx:89-90 | In the base year the real and nominal points coincide for both dollar series. |
| `HungerMinWageUsdChart.TooltipLabel` | components/HungerMinWageUsdChart.tsx:127-137 | Every line starts with the dataset's prefix. The body is the dash for a gap, the ratio format on the `yRatio` axis, and the dollar format on every other axis. |
| `HungerMinWageUsdChart.TooltipPlaceholderIffMissing` | components/HungerMinWageUsdChart.tsx:127-137 | If no formatter prints a bare dash, the tooltip shows the dash exactly for a gap, and a gap never reads like a formatted 0. |
| `HungerMinWageUsdChart.ChartView.constructor` | components/HungerMinWageUsdChart.tsx:93 | The chart opens in nominal mode with all three datasets visible. |
| `HungerMinWageUsdChart.ChartView.HandleModeSelect` | components/HungerMinWageUsdChart.tsx:108-110 | The mode becomes the requested one, and the plotted data becomes the projection of that mode. Selecting the current mode changes nothing, not even the plotted data. Visibility is untouched. |
| `HungerMinWageUsdChart.ChartView.OnLegendClick` | components/HungerMinWageUsdChart.tsx:218-240 | The flags become `Clicked` of the old flags. The mode and the plotted data are kept, and at least one dataset stays visible. |
| `GdpPerCapitaChart.TablesAligned` | components/GdpPerCapitaChart.tsx:31-60 | There are 23 labels, and each of the four tables has one entry per label. |
| `GdpPerCapitaChart.Project` | components/GdpPerCapitaChart.tsx:67-74 | PPP mode selects the PPP tables with "Int. $" and base year 2021. Nominal mode selects the nominal tables with "$" and base year 2015. |
| `GdpPerCapitaChart.AllValues` | components/GdpPerCapitaChart.tsx:167 | `[...currentSeries, ...constantSeries]` holds exactly the values of the two series, and its length is the sum of theirs. |
| `GdpPerCapitaChart.YAxisRange` | components/GdpPerCapitaChart.tsx:243-244 | `suggestedMin` is `max(0, v - 2000)` for the lowest plotted value v. So it is never negative and never above a non-negative value. `suggestedMax` is at least 2000 above every plotted value, and exactly 2000 above the highest. |
| `GdpPerCapitaChart.YAxisBracketsBothSeries` | components/GdpPerCapitaChart.tsx:167-169 | Both the current and the constant series stay at least 2000 below `suggestedMax`. |
| `GdpPerCapitaChart.TooltipLabelAsWritten` | components/GdpPerCapitaChart.tsx:95-102 | As written, every line starts with the dataset's prefix. The body is the three characters U+00E2 U+20AC U+201D for a gap, and the dollar format otherwise. |
| `GdpPerCapitaChart.AsWrittenPlaceholderIsGarbled` | components/GdpPerCapitaChart.tsx:98 | The source's gap placeholder is a three-character string, not the em dash the other charts show. |
| `GdpPerCapitaChart.TooltipLabel` | components/GdpPerCapitaChart.tsx:95-102 | With the intended em dash, every line starts with the dataset's prefix. The body is the dash for a gap, and the dollar format otherwise. |
| `GdpPerCapitaChart.TooltipPlaceholderIffMissing` | components/GdpPerCapitaChart.tsx:95-102 | With the intended em dash, and a formatter that never prints a bare dash, the dash appears exactly for a gap, and a gap never reads like a formatted 0. |
| `GdpPerCapitaChart.ChartView.constructor` | components/GdpPerCapitaChart.tsx:65 | The chart opens in nominal mode with both datasets visible. |
| `GdpPerCapitaChart.ChartView.HandleModeSelect` | components/GdpPerCapitaChart.tsx:81-83 | The mode becomes the requested one, and the plotted data becomes the projection of that mode. Selecting the current mode changes nothing, not even the plotted data. Visibility is untouched. |
| `GdpPerCapitaChart.ChartView.OnLegendClick` | components/GdpPerCapitaChart.tsx:185-207 | The flags become `Clicked` of the old flags. The mode and the plotted data are kept, and at least one dataset stays visible. |
| `GdpPerCapitaRankingChart.TablesAligned` | components/GdpPerCapitaRankingChart.tsx:31-58 | There are 23 labels, and each of the four tables has one entry per label. |
| `GdpPerCapitaRankingChart.Project` | components/GdpPerCapitaRankingChart.tsx:92-97 | PPP mode selects the PPP ranking and percent tables and the heading "SGP (PPP)". Nominal mode selects the nominal tables and the heading "Nominal". |
| `GdpPerCapitaRankingChart.RankAxisRange` | components/GdpPerCapitaRankingChart.tsx:262-263 | Every rank lies at least 5 inside the rank axis. The best and the worst rank lie exactly 5 inside, so the ends are `minRank - 5` and `maxRank + 5`. |
| `GdpPerCapitaRankingChart.PercentAxisRange` | components/GdpPerCapitaRankingChart.tsx:281-282 | The lower end is `max(0, p - 20)` for the lowest percent p, so it is never negative and never above a non-negative percent. The upper end is at least 20 above every percent, and exactly 20 above the highest. |
| `GdpPerCapitaRankingChart.TooltipLabel` | components/GdpPerCapitaRankingChart.tsx:118-128 | Every line starts with the dataset's prefix. The body is the dash for a gap, the percent format followed by "%" on the `yPercent` axis, and the rank format on every other axis. |
| `GdpPerCapitaRankingChart.TooltipPlaceholderIffMissing` | components/GdpPerCapitaRankingChart.tsx:118-128 | If the rank formatter never prints a bare dash, the dash appears exactly for a gap. A percent body always ends in "%", so it can never be the dash. |
| `GdpPerCapitaRankingChart.ChartView.constructor` | components/GdpPerCapitaRankingChart.tsx:63 | The chart opens in nominal mode with both datasets visible. |
| `GdpPerCapitaRankingChart.ChartView.HandleModeSelect` | components/GdpPerCapitaRankingChart.tsx:104-106 | The mode becomes the requested one, and the plotted data becomes the projection of that mode. Selecting the current mode changes nothing, not even the plotted data. Visibility is untouched. |
| `GdpPerCapitaRankingChart.ChartView.OnLegendClick` | components/GdpPerCapitaRankingChart.tsx:203-225 | The flags become `Clicked` of the old flags. The mode and the plotted data are kept, and at least one dataset stays visible. |

## Left out

- Rendering is not modelled: JSX, Chart.js options, colours, gradients and the page layout. Only the data, the axis ranges, the tooltip text and the state handlers are modelled.
- `handleDownload` in `components/GdpPerCapitaRankingChart.tsx` is not modelled. It copies the canvas to a PNG and clicks a link, which is browser I/O.
- The `Intl.NumberFormat` formatters are not modelled. They are opaque parameters `real -> string`, and the tooltip lemmas assume only that a formatter never prints a bare dash.
- Numbers are exact reals, not IEEE doubles, so binary rounding artefacts are not modelled. One example is `toFixed` on a value like 1.005, which is stored just below the half-way point.
- Overflow is not modelled. `value * multiplier` could become Infinity in the source, and `toFixed` and the finiteness test would let that through. With exact reals this cannot happen.
- `ChartValues.Round`: modelled as exact half-away-from-zero rounding of the real value, which is weaker than a bit-level `toFixed`.
- `Extrema.MinOf`: requires a non-empty sequence. `Math.min()` of an empty list is Infinity in the source. Every chart passes it 23 or 46 values.
- `Extrema.MaxOf`: requires a non-empty sequence, for the same reason. `Math.max()` of an empty list is -Infinity.
- `Legend.Clicked`: requires the clicked index to name an existing dataset. Chart.js only reports indices of datasets it drew.
- `Legend.Click`: requires the clicked index to name an existing dataset, for the same reason.
- What the chart library does with a dataset's hidden flag on a mode switch is library behaviour and is not modelled. The dollar datasets' labels name the mode, so the library may treat them as new datasets after a switch; the hunger chart's ratio label "Oran: Açlık / Asgari" (components/HungerMinWageUsdChart.tsx:185) does not. The model keeps the flags in `ChartView.visible`, and `HandleModeSelect` leaves them as they were.
- The hunger chart's ratio axis has fixed bounds `suggestedMin: 0.8` and `suggestedMax: 2.0`. These are constants with nothing to prove and are not modelled.
- The subtitle line `ratioLine` (components/HungerMinWageUsdChart.tsx:100), "2026 oran ≈ 1.07", is not modelled.
- The `src/app` page files are not part of this model. The three chart pages only mount one component with its metadata. `src/app/page.tsx` is a list of links with hover styles. None of them holds logic.
- `ChartValues.Div`: a gap divisor gives a gap, although in the source a finite number divided by ±Infinity is ±0, which is finite. No divisor the charts compute is infinite: the wage quotient divides by a finite table entry, and the ratio divides by a wage that the finiteness guard leaves finite or NaN.

## Findings

| source | as written | input that shows it | evidently intended | confidence | as-written member | corrected member |
|---|---|---|---|---|---|---|
| components/GdpPerCapitaChart.tsx:98 | The gap placeholder is the three characters U+00E2 U+20AC U+201D, "â€”". This is an em dash whose UTF-8 bytes were decoded as Windows-1252. | Any gap a tooltip reaches with `y === null` or a non-finite `y` shows "`label: â€”`". | The em dash U+2014 that the other two charts use. | high; not executed | `GdpPerCapitaChart.TooltipLabelAsWritten`, shown by `GdpPerCapitaChart.AsWrittenPlaceholderIsGarbled` | `GdpPerCapitaChart.TooltipLabel`, with `GdpPerCapitaChart.TooltipPlaceholderIffMissing` |
