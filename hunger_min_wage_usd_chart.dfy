/**
 * The hunger-line vs minimum-wage chart (components/HungerMinWageUsdChart.tsx):
 * the derived minimum-wage and ratio series, the CPI inflation adjustment,
 * the nominal/real mode projection, the tooltip text and the per-chart view
 * state (mode and dataset visibility).
 */
module HungerMinWageUsdChart {
  import opened ChartValues
  import opened TooltipText
  import Legend

  /** The years of the x axis, 2002..2026; every table below is aligned to them. */
  const Labels: seq<int> := [
    2002, 2003, 2004, 2005, 2006, 2007, 2008, 2009, 2010, 2011, 2012, 2013, 2014,
    2015, 2016, 2017, 2018, 2019, 2020, 2021, 2022, 2023, 2024, 2025, 2026
  ]

  /** Annual US CPI-U (1982-84 = 100). */
  const CpiIndex: seq<real> := [
    179.9, 184.0, 188.9, 195.3, 201.6, 207.3, 215.3, 214.5, 218.1, 224.9, 229.6,
    232.96, 236.74, 237.02, 240.01, 245.12, 251.11, 255.66, 258.81, 270.97,
    292.66, 305.36, 318.13, 324.49, 330.99
  ]

  /** Hunger line in nominal USD. */
  const HungerUsd: seq<real> := [
    212.06, 242.09, 338.84, 386.16, 410.92, 444.4, 594.08, 478.3, 545.66, 559.69,
    508.45, 563.44, 505.12, 535.1, 490.99, 417.82, 428.17, 376.13, 372.41, 359.84,
    315.75, 470.95, 495.68, 627.79, 700.7
  ]

  /** Hunger line as a multiple of the minimum wage. */
  const HungerOverMinwage: seq<real> := [
    1.88, 1.77, 1.49, 1.49, 1.46, 1.5, 1.38, 1.35, 1.36, 1.32, 1.3, 1.25, 1.23,
    1.26, 1.11, 1.05, 1.0, 0.99, 0.95, 0.94, 1.0, 1.04, 0.89, 1.0, 30126.0 / 28075.0
  ]

  const CpiBaseYear: int := 2024

  /** The reported minimum wage of the last year, which replaces the derived value there. */
  const MinWageOverride: real := 653.0

  /** `labels.indexOf(x)`: the first position holding x, or -1. */
  function IndexOf(s: seq<int>, x: int): (r: int)
    ensures r == -1 <==> x !in s
    ensures r != -1 ==> 0 <= r < |s| && s[r] == x && forall j :: 0 <= j < r ==> s[j] != x
  {
    if |s| == 0 then -1
    else if s[0] == x then 0
    else
      var rest := IndexOf(s[1..], x);
      assert forall j :: 1 <= j < |s| ==> s[j] == s[1..][j - 1];
      if rest == -1 then -1 else rest + 1
  }

  /**
   * The `CPI_BASE_INDEX` rule: the position of the base year, or the last
   * position when the base year is not among the labels.
   */
  function BaseIndex(labels: seq<int>, year: int): (r: int)
    ensures year in labels ==> 0 <= r < |labels| && labels[r] == year
                               && forall j :: 0 <= j < r ==> labels[j] != year
    ensures year !in labels ==> r == |labels| - 1
    ensures |labels| > 0 ==> 0 <= r < |labels|
  {
    var idx := IndexOf(labels, year);
    if idx == -1 then |labels| - 1 else idx
  }

  const CpiBaseIndex: int := BaseIndex(Labels, CpiBaseYear)

  /** The x-axis labels are the consecutive years from 2002. */
  lemma LabelsAreConsecutive()
    ensures |Labels| == 25
    ensures forall i :: 0 <= i < |Labels| ==> Labels[i] == 2002 + i
  {
  }

  /** The base index points at 2024, position 22, inside every table. */
  lemma CpiBaseIndexIsBaseYear()
    ensures CpiBaseIndex == 22 && Labels[CpiBaseIndex] == CpiBaseYear
    ensures CpiBaseIndex < |CpiIndex| && CpiIndex[CpiBaseIndex] == 318.13
  {
    LabelsAreConsecutive();
    assert Labels[22] == CpiBaseYear;
    assert Labels[CpiBaseIndex] == 2002 + CpiBaseIndex;
    BaseYearCpiEntry();
  }

  /** The 2024 entry of the CPI table, at position 22, is 318.13. */
  lemma BaseYearCpiEntry()
    ensures |CpiIndex| == 25 && CpiIndex[22] == 318.13
  {
  }

  /** The three tables have one entry per label. */
  lemma TablesAligned()
    ensures |CpiIndex| == |Labels| && |HungerUsd| == |Labels| && |HungerOverMinwage| == |Labels|
  {
  }

  /**
   * One point of `adjustSeriesForInflation`: `value * (base / yearCpi)` to the
   * cent, or a gap when an operand is not a finite number or the multiplier
   * is not finite (a zero `yearCpi`).
   */
  function AdjustPoint(value: Value, yearCpi: Value, base: Value): (r: Value)
    ensures r.Missing? <==> (value.Missing? || yearCpi.Missing? || base.Missing? || yearCpi.r == 0.0)
    ensures r.Val? ==> r.r == Round(value.r * (base.r / yearCpi.r), 2)
    ensures r.Val? ==> Abs(r.r - value.r * (base.r / yearCpi.r)) <= 0.005
  {
    if !IsFiniteNumber(value) || !IsFiniteNumber(yearCpi) || !IsFiniteNumber(base) then Missing
    else if yearCpi.r == 0.0 then Missing
    else
      var exact := value.r * (base.r / yearCpi.r);
      assert Scale(2) == 100.0;
      Val(Round(exact, 2))
  }

  /**
   * `adjustSeriesForInflation(series, baseIndex)` against the CPI table `cpi`:
   * one output per input, and output i depends only on `series[i]`, `cpi[i]`
   * and `cpi[baseIndex]` (read as `undefined` when out of range).
   */
  function AdjustSeriesForInflation(series: seq<Value>, cpi: seq<Value>, baseIndex: int): (r: seq<Value>)
    ensures |r| == |series|
    ensures forall i :: 0 <= i < |series| ==> r[i] == AdjustPoint(series[i], At(cpi, i), At(cpi, baseIndex))
  {
    seq(|series|, i requires 0 <= i < |series| => AdjustPoint(series[i], At(cpi, i), At(cpi, baseIndex)))
  }

  /** At the base index the multiplier is 1: the point is only rounded to the cent. */
  lemma AdjustAtBase(series: seq<Value>, cpi: seq<Value>, baseIndex: int)
    requires 0 <= baseIndex < |series|
    requires At(cpi, baseIndex).Val? && At(cpi, baseIndex).r != 0.0
    ensures AdjustSeriesForInflation(series, cpi, baseIndex)[baseIndex] == RoundValue(series[baseIndex], 2)
  {
    var c := At(cpi, baseIndex).r;
    assert c / c == 1.0;
  }

  /**
   * A bad CPI entry at position i (zero, a gap, or past the end) makes a gap
   * at i only: every other position is the same as with the original table.
   */
  lemma AdjustGapIsLocal(series: seq<Value>, cpi: seq<Value>, cpi': seq<Value>, baseIndex: int, i: int)
    requires 0 <= i < |series| && i != baseIndex
    requires forall j :: j != i ==> At(cpi', j) == At(cpi, j)
    requires At(cpi', i).Missing? || At(cpi', i).r == 0.0
    ensures AdjustSeriesForInflation(series, cpi', baseIndex)[i] == Missing
    ensures forall j :: 0 <= j < |series| && j != i ==>
              AdjustSeriesForInflation(series, cpi', baseIndex)[j] == AdjustSeriesForInflation(series, cpi, baseIndex)[j]
  {
  }

  /** A missing base CPI turns every point into a gap, and the series keeps its length. */
  lemma AdjustWithoutBase(series: seq<Value>, cpi: seq<Value>, baseIndex: int)
    requires At(cpi, baseIndex).Missing?
    ensures |AdjustSeriesForInflation(series, cpi, baseIndex)| == |series|
    ensures forall i :: 0 <= i < |series| ==> AdjustSeriesForInflation(series, cpi, baseIndex)[i] == Missing
  {
  }

  /**
   * The `minWageUSD` derivation: the last position is the reported figure
   * 653; every other one is `hunger[i] / k[i]` to the cent, or a gap when
   * that quotient is not finite.
   */
  function MinWageUsd(hunger: seq<Value>, k: seq<Value>): (r: seq<Value>)
    ensures |r| == |hunger|
    ensures |hunger| > 0 ==> r[|hunger| - 1] == Val(MinWageOverride)
    ensures forall i :: 0 <= i < |hunger| - 1 ==>
              (r[i].Missing? <==> (hunger[i].Missing? || At(k, i).Missing? || At(k, i).r == 0.0))
    ensures forall i :: 0 <= i < |hunger| - 1 && r[i].Val? ==>
              Abs(r[i].r - hunger[i].r / At(k, i).r) <= 0.005
  {
    seq(|hunger|, i requires 0 <= i < |hunger| =>
      if i == |hunger| - 1 then Val(MinWageOverride) else WagePoint(hunger[i], At(k, i)))
  }

  /** `round2(hunger / k)`, or a gap. */
  function WagePoint(hunger: Value, k: Value): (r: Value)
    ensures r.Missing? <==> (hunger.Missing? || k.Missing? || k.r == 0.0)
    ensures r.Val? ==> Abs(r.r - hunger.r / k.r) <= 0.005
  {
    var q := Div(hunger, k);
    if q.Val? then
      assert Scale(2) == 100.0;
      Val(Round(q.r, 2))
    else Missing
  }

  /** The override wins whatever the tables hold at the last position. */
  lemma OverrideTakesPrecedence(hunger: seq<Value>, k: seq<Value>, hunger': seq<Value>, k': seq<Value>)
    requires |hunger| == |hunger'| > 0
    ensures MinWageUsd(hunger, k)[|hunger| - 1] == MinWageUsd(hunger', k')[|hunger| - 1] == Val(MinWageOverride)
  {
  }

  /** Below the last position the wage is exactly the rounded quotient. */
  lemma MinWageBelowLast(hunger: seq<Value>, k: seq<Value>, i: int)
    requires 0 <= i < |hunger| - 1
    ensures MinWageUsd(hunger, k)[i] == RoundValue(Div(hunger[i], At(k, i)), 2)
  {
  }

  /**
   * The `ratio` derivation: `hunger[i] / minWage[i]` to three decimals, or a
   * gap when that quotient is not finite.
   */
  function Ratio(hunger: seq<Value>, minWage: seq<Value>): (r: seq<Value>)
    ensures |r| == |hunger|
    ensures forall i :: 0 <= i < |hunger| ==>
              (r[i].Missing? <==> (hunger[i].Missing? || At(minWage, i).Missing? || At(minWage, i).r == 0.0))
    ensures forall i :: 0 <= i < |hunger| && r[i].Val? ==>
              Abs(r[i].r - hunger[i].r / At(minWage, i).r) <= 0.0005
  {
    seq(|hunger|, i requires 0 <= i < |hunger| => RatioPoint(hunger[i], At(minWage, i)))
  }

  /** `round3(hunger / wage)`, or a gap. */
  function RatioPoint(hunger: Value, wage: Value): (r: Value)
    ensures r.Missing? <==> (hunger.Missing? || wage.Missing? || wage.r == 0.0)
    ensures r.Val? ==> Abs(r.r - hunger.r / wage.r) <= 0.0005
  {
    var q := Div(hunger, wage);
    if q.Val? then
      assert Scale(3) == 1000.0;
      Val(Round(q.r, 3))
    else Missing
  }

  /** Where both points are numbers and the wage is non-zero, the ratio is their rounded quotient. */
  lemma RatioConsistency(hunger: seq<Value>, minWage: seq<Value>, i: int)
    requires 0 <= i < |hunger| && i < |minWage|
    requires hunger[i].Val? && minWage[i].Val? && minWage[i].r != 0.0
    ensures Ratio(hunger, minWage)[i] == Val(Round(hunger[i].r / minWage[i].r, 3))
  {
  }

  /**
   * The ratio at the last position is computed from the overridden wage 653,
   * not from the quotient the tables would give there.
   */
  lemma RatioUsesOverriddenWage(hunger: seq<Value>, k: seq<Value>)
    requires |hunger| > 0 && hunger[|hunger| - 1].Val?
    ensures Ratio(hunger, MinWageUsd(hunger, k))[|hunger| - 1]
            == Val(Round(hunger[|hunger| - 1].r / MinWageOverride, 3))
  {
    var last := |hunger| - 1;
    assert At(MinWageUsd(hunger, k), last) == Val(MinWageOverride);
  }

  /** The series plotted in nominal mode. */
  const NominalHunger: seq<Value> := AsValues(HungerUsd)
  const NominalMinWage: seq<Value> := MinWageUsd(AsValues(HungerUsd), AsValues(HungerOverMinwage))
  const RatioSeries: seq<Value> := Ratio(AsValues(HungerUsd), NominalMinWage)

  /** The series plotted in real mode, in 2024 dollars. */
  const RealHunger: seq<Value> := AdjustSeriesForInflation(AsValues(HungerUsd), AsValues(CpiIndex), CpiBaseIndex)
  const RealMinWage: seq<Value> := AdjustSeriesForInflation(NominalMinWage, AsValues(CpiIndex), CpiBaseIndex)

  datatype DollarMode = Nominal | Real

  /** What one mode puts on the chart: its three series and its currency texts. */
  datatype ChartData = ChartData(
    hunger: seq<Value>,
    minWage: seq<Value>,
    ratio: seq<Value>,
    currencySuffix: string,
    axisCurrencyLabel: string,
    headingMode: string)

  /** The mode projection: real mode picks the inflation-adjusted series, the ratio is shared. */
  function Project(mode: DollarMode): (d: ChartData)
    ensures |d.hunger| == |Labels| && |d.minWage| == |Labels| && |d.ratio| == |Labels|
    ensures d.ratio == RatioSeries
    ensures mode == Real ==> d.hunger == RealHunger && d.minWage == RealMinWage
                             && d.currencySuffix == "2024 $" && d.axisCurrencyLabel == "USD (2024 $)"
    ensures mode == Nominal ==> d.hunger == NominalHunger && d.minWage == NominalMinWage
                                && d.currencySuffix == "$" && d.axisCurrencyLabel == "USD ($)"
  {
    match mode
    case Real => ChartData(RealHunger, RealMinWage, RatioSeries, "2024 $", "USD (2024 $)", "Reel USD (2024)")
    case Nominal => ChartData(NominalHunger, NominalMinWage, RatioSeries, "$", "USD ($)", "Nominal USD")
  }

  /** The ratio dataset is the same in both modes. */
  lemma RatioIsModeIndependent()
    ensures Project(Nominal).ratio == Project(Real).ratio
  {
  }

  /**
   * In the base year the real and nominal points coincide, for the hunger
   * line and for the wage: the multiplier there is 1 and both points are
   * already whole cents.
   */
  lemma RealMatchesNominalAtBaseYear()
    ensures Project(Real).hunger[CpiBaseIndex] == Project(Nominal).hunger[CpiBaseIndex]
    ensures Project(Real).minWage[CpiBaseIndex] == Project(Nominal).minWage[CpiBaseIndex]
  {
    RealHungerAtBaseYear();
    RealMinWageAtBaseYear();
  }

  /** The 2024 hunger line, 495.68, is whole cents and its multiplier is 1. */
  lemma RealHungerAtBaseYear()
    ensures RealHunger[CpiBaseIndex] == NominalHunger[CpiBaseIndex]
  {
    BaseCpiValue();
    AdjustAtBase(AsValues(HungerUsd), AsValues(CpiIndex), CpiBaseIndex);
    BaseYearHungerIsWholeCents();
  }

  /** The base index is in range and the base CPI read there is 318.13. */
  lemma BaseCpiValue()
    ensures 0 <= CpiBaseIndex < |HungerUsd|
    ensures At(AsValues(CpiIndex), CpiBaseIndex) == Val(318.13)
  {
    CpiBaseIndexIsBaseYear();
  }

  lemma BaseYearHungerIsWholeCents()
    ensures NominalHunger[CpiBaseIndex] == Val(495.68)
    ensures Round(495.68, 2) == 495.68
  {
    CpiBaseIndexIsBaseYear();
    BaseYearHungerEntry();
    WholeCents();
  }

  /** The 2024 entry of the hunger table, at position 22, is 495.68. */
  lemma BaseYearHungerEntry()
    ensures |HungerUsd| == 25 && HungerUsd[22] == 495.68
  {
  }

  lemma WholeCents()
    ensures Round(495.68, 2) == 495.68
  {
    RoundExact(49568, 2);
    assert Scale(2) == 100.0;
    assert 49568 as real / 100.0 == 495.68;
  }

  /** The 2024 wage is already rounded to the cent and its multiplier is 1. */
  lemma RealMinWageAtBaseYear()
    ensures RealMinWage[CpiBaseIndex] == NominalMinWage[CpiBaseIndex]
  {
    BaseCpiValue();
    var b := CpiBaseIndex;
    AdjustAtBase(NominalMinWage, AsValues(CpiIndex), b);
    MinWageBelowLast(AsValues(HungerUsd), AsValues(HungerOverMinwage), b);
    RoundValueIdempotent(Div(AsValues(HungerUsd)[b], At(AsValues(HungerOverMinwage), b)), 2);
  }

  /** The ratio of the last year uses the reported wage: round3(700.7 / 653). */
  lemma LastRatioUsesReportedWage()
    ensures NominalMinWage[|Labels| - 1] == Val(MinWageOverride)
    ensures RatioSeries[|Labels| - 1] == Val(Round(700.7 / MinWageOverride, 3))
  {
    RatioUsesOverriddenWage(AsValues(HungerUsd), AsValues(HungerOverMinwage));
  }

  /** At 653 the last ratio is 700.7 / 653 = 1.07304..., shown as 1.073. */
  lemma LastRatioValue()
    ensures RatioSeries[|Labels| - 1] == Val(1.073)
  {
    LastRatioUsesReportedWage();
    assert Scale(3) == 1000.0;
    RoundTo(700.7 / MinWageOverride, 3, 1073);
  }

  /** A base-year CPI of 100 halves a value whose year has CPI 200, and keeps the base year as it is. */
  lemma AdjustHalvesAtDoubleCpi()
    ensures AdjustSeriesForInflation([Val(100.0), Val(100.0)], [Val(100.0), Val(200.0)], 0)
            == [Val(100.0), Val(50.0)]
  {
    assert Scale(2) == 100.0;
    RoundTo(100.0, 2, 10000);
    RoundTo(50.0, 2, 5000);
  }

  /** 212.06 at 1.88 times the wage gives a wage of 112.80 and a ratio of 1.880. */
  lemma WageAndRatioAtFirstRow()
    ensures WagePoint(Val(212.06), Val(1.88)) == Val(112.8)
    ensures RatioPoint(Val(212.06), Val(112.8)) == Val(1.88)
  {
    assert Scale(2) == 100.0;
    RoundTo(212.06 / 1.88, 2, 11280);
    assert Scale(3) == 1000.0;
    RoundTo(212.06 / 112.8, 3, 1880);
  }

  /** The 2002 row of the tables: the wage is 112.80 and the ratio 1.880. */
  lemma FirstYearWageAndRatio()
    ensures NominalMinWage[0] == Val(112.8)
    ensures RatioSeries[0] == Val(1.88)
  {
    assert AsValues(HungerUsd)[0] == Val(212.06);
    assert At(AsValues(HungerOverMinwage), 0) == Val(1.88);
    WageAndRatioAtFirstRow();
    assert At(NominalMinWage, 0) == Val(112.8);
  }

  /** The tooltip: a dash for a gap, else the ratio format on the ratio axis and dollars elsewhere. */
  function TooltipLabel(datasetLabel: string, yAxisId: string, y: Value,
                        usd: real -> string, ratioFmt: real -> string): (r: string)
    ensures |r| >= |Prefix(datasetLabel)| && r[..|Prefix(datasetLabel)|] == Prefix(datasetLabel)
    ensures y.Missing? ==> r[|Prefix(datasetLabel)|..] == Dash
    ensures y.Val? && yAxisId == "yRatio" ==> r[|Prefix(datasetLabel)|..] == ratioFmt(y.r)
    ensures y.Val? && yAxisId != "yRatio" ==> r[|Prefix(datasetLabel)|..] == usd(y.r)
  {
    match y
    case Missing => Line(datasetLabel, Dash)
    case Val(v) => Line(datasetLabel, if yAxisId == "yRatio" then ratioFmt(v) else usd(v))
  }

  /**
   * When no formatter ever prints a bare dash, the placeholder appears exactly
   * for gaps, so a gap is never shown as a formatted 0.
   */
  lemma TooltipPlaceholderIffMissing(datasetLabel: string, yAxisId: string, y: Value,
                                     usd: real -> string, ratioFmt: real -> string)
    requires forall x :: usd(x) != Dash
    requires forall x :: ratioFmt(x) != Dash
    ensures TooltipLabel(datasetLabel, yAxisId, y, usd, ratioFmt) == Line(datasetLabel, Dash) <==> y.Missing?
    ensures TooltipLabel(datasetLabel, yAxisId, Missing, usd, ratioFmt)
            != TooltipLabel(datasetLabel, yAxisId, Val(0.0), usd, ratioFmt)
  {
    if y.Val? {
      LineInjective(datasetLabel, if yAxisId == "yRatio" then ratioFmt(y.r) else usd(y.r), Dash);
    }
    LineInjective(datasetLabel, Dash, if yAxisId == "yRatio" then ratioFmt(0.0) else usd(0.0));
  }

  /** The hunger line, the wage and the ratio. */
  const DatasetCount: nat := 3

  /** The view state of one rendered chart: the dollar mode and each dataset's visibility. */
  class ChartView {
    var mode: DollarMode
    const visible: array<bool>

    /** Three datasets, and at least one of them is visible. */
    ghost predicate Valid()
      reads this, visible
    {
      visible.Length == DatasetCount && Legend.VisibleCount(visible[..]) >= 1
    }

    /** The chart opens in nominal mode with every dataset shown. */
    constructor ()
      ensures Valid() && fresh(visible)
      ensures mode == Nominal
      ensures forall i :: 0 <= i < visible.Length ==> visible[i]
    {
      mode := Nominal;
      visible := new bool[DatasetCount](_ => true);
      new;
      assert visible[..] == [true, true, true];
    }

    /** What is plotted in the current mode. */
    function Data(): ChartData
      reads this
    {
      Project(mode)
    }

    /** `handleModeSelect`: the mode changes only to a different mode; visibility is untouched. */
    method HandleModeSelect(requested: DollarMode)
      requires Valid()
      modifies this
      ensures Valid()
      ensures mode == requested && Data() == Project(requested)
      ensures old(mode) == requested ==> unchanged(this) && Data() == old(Data())
      ensures visible[..] == old(visible[..])
    {
      if requested != mode {
        mode := requested;
      }
    }

    /** The legend `onClick`: toggles the clicked dataset unless it is the only one visible. */
    method OnLegendClick(clicked: Legend.DatasetIndex)
      requires Valid() && Legend.InRange(visible[..], clicked)
      modifies visible
      ensures Valid()
      ensures mode == old(mode) && Data() == old(Data())
      ensures visible[..] == Legend.Clicked(old(visible[..]), clicked)
    {
      Legend.ClickKeepsOneVisible(visible[..], clicked);
      Legend.Click(visible, clicked);
    }
  }
}
