/**
 * The GDP per capita chart (components/GdpPerCapitaChart.tsx): the
 * nominal/PPP mode projection, the y-axis range, the tooltip text and the
 * per-chart view state.
 */
module GdpPerCapitaChart {
  import opened ChartValues
  import opened Extrema
  import opened TooltipText
  import Legend

  /** The years of the x axis, 2002..2024. */
  const Labels: seq<int> := [
    2002, 2003, 2004, 2005, 2006, 2007, 2008, 2009, 2010, 2011, 2012, 2013, 2014,
    2015, 2016, 2017, 2018, 2019, 2020, 2021, 2022, 2023, 2024
  ]

  /** GDP per capita, current US dollars. */
  const NominalCurrent: seq<real> := [
    3591.0, 4650.0, 5980.0, 7332.0, 7990.0, 9767.0, 10913.0, 9077.0, 10699.0, 11374.0, 11777.0, 12636.0,
    12209.0, 11065.0, 10984.0, 10756.0, 9684.0, 9395.0, 8798.0, 9982.0, 10898.0, 13375.0, 15893.0
  ]

  /** GDP per capita, constant 2015 US dollars. */
  const NominalConstant: seq<real> := [
    6212.0, 6496.0, 7062.0, 7623.0, 8079.0, 8478.0, 8448.0, 7925.0, 8473.0, 9266.0, 9588.0, 10269.0,
    10598.0, 11065.0, 11280.0, 12006.0, 12255.0, 12238.0, 12339.0, 13671.0, 14274.0, 14933.0, 15395.0
  ]

  /** GDP per capita, PPP current international dollars. */
  const PppCurrent: seq<real> := [
    9154.0, 9475.0, 10761.0, 11803.0, 13558.0, 14952.0, 16142.0, 15552.0, 17468.0, 19717.0, 20739.0,
    22475.0, 24193.0, 25897.0, 26731.0, 28354.0, 28640.0, 29016.0, 29209.0, 32106.0, 39919.0, 43196.0,
    45123.0
  ]

  /** GDP per capita, PPP constant 2021 international dollars. */
  const PppConstant: seq<real> := [
    14588.0, 15256.0, 16584.0, 17903.0, 18972.0, 19909.0, 19840.0, 18612.0, 19897.0, 21760.0, 22518.0,
    24117.0, 24889.0, 25985.0, 26490.0, 28195.0, 28780.0, 28741.0, 28977.0, 32106.0, 33521.0, 35069.0,
    36154.0
  ]

  /** The four tables have one entry per label. */
  lemma TablesAligned()
    ensures |Labels| == 23
    ensures |NominalCurrent| == |Labels| && |NominalConstant| == |Labels|
    ensures |PppCurrent| == |Labels| && |PppConstant| == |Labels|
  {
  }

  datatype GdpMode = Nominal | Ppp

  /** What one mode puts on the chart. */
  datatype ChartData = ChartData(
    currentSeries: seq<real>,
    constantSeries: seq<real>,
    headingMode: string,
    currencyLabel: string,
    constantBaseYear: int)

  /** The mode projection: PPP mode picks the PPP tables, "Int. $" and base year 2021. */
  function Project(mode: GdpMode): (d: ChartData)
    ensures |d.currentSeries| == |Labels| && |d.constantSeries| == |Labels|
    ensures mode == Ppp ==> d.currentSeries == PppCurrent && d.constantSeries == PppConstant
                            && d.currencyLabel == "Int. $" && d.constantBaseYear == 2021
    ensures mode == Nominal ==> d.currentSeries == NominalCurrent && d.constantSeries == NominalConstant
                                && d.currencyLabel == "$" && d.constantBaseYear == 2015
  {
    match mode
    case Ppp => ChartData(PppCurrent, PppConstant, "SGP (PPP)", "Int. $", 2021)
    case Nominal => ChartData(NominalCurrent, NominalConstant, "Nominal", "$", 2015)
  }

  /** `[...currentSeries, ...constantSeries]`: every plotted value of the mode. */
  function AllValues(d: ChartData): (r: seq<real>)
    ensures |r| == |d.currentSeries| + |d.constantSeries|
    ensures forall v :: v in r <==> v in d.currentSeries || v in d.constantSeries
  {
    d.currentSeries + d.constantSeries
  }

  /**
   * The y axis: `max(0, minVal - 2000)` to `maxVal + 2000` over both plotted
   * series. The upper end is exactly 2000 above the highest value; the lower
   * end is `max(0, v - 2000)` for the lowest value v, so it is never negative
   * and never above a non-negative value.
   */
  function YAxisRange(mode: GdpMode): (a: AxisRange)
    ensures a.suggestedMin >= 0.0
    ensures forall v :: v in AllValues(Project(mode)) ==> v + 2000.0 <= a.suggestedMax
    ensures a.suggestedMax - 2000.0 in AllValues(Project(mode))
    ensures forall v :: v in AllValues(Project(mode)) ==> a.suggestedMin <= Max(0.0, v - 2000.0)
    ensures exists v :: v in AllValues(Project(mode)) && a.suggestedMin == Max(0.0, v - 2000.0)
    ensures forall v :: v in AllValues(Project(mode)) && v >= 0.0 ==> a.suggestedMin <= v
  {
    FlooredAxis(AllValues(Project(mode)), 2000.0)
  }

  /**
   * The range bounds each of the two series separately, keeping 2000 of
   * margin above the highest value.
   */
  lemma YAxisBracketsBothSeries(mode: GdpMode)
    ensures forall i :: 0 <= i < |Project(mode).currentSeries| ==>
              Project(mode).currentSeries[i] + 2000.0 <= YAxisRange(mode).suggestedMax
    ensures forall i :: 0 <= i < |Project(mode).constantSeries| ==>
              Project(mode).constantSeries[i] + 2000.0 <= YAxisRange(mode).suggestedMax
  {
    var d := Project(mode);
    ConcatBounds(d.currentSeries, d.constantSeries);
  }

  /**
   * The tooltip as the source has it: its gap placeholder is the three
   * characters U+00E2 U+20AC U+201D, the UTF-8 bytes of an em dash read as
   * Windows-1252.
   */
  function TooltipLabelAsWritten(datasetLabel: string, y: Value, usd: real -> string): (r: string)
    ensures |r| >= |Prefix(datasetLabel)| && r[..|Prefix(datasetLabel)|] == Prefix(datasetLabel)
    ensures y.Missing? ==> r[|Prefix(datasetLabel)|..] == "\U{00E2}\U{20AC}\U{201D}"
    ensures y.Val? ==> r[|Prefix(datasetLabel)|..] == usd(y.r)
  {
    match y
    case Missing => Line(datasetLabel, "\U{00E2}\U{20AC}\U{201D}")
    case Val(v) => Line(datasetLabel, usd(v))
  }

  /** The as-written placeholder is not the dash the other two charts show for a gap. */
  lemma AsWrittenPlaceholderIsGarbled(datasetLabel: string, usd: real -> string)
    ensures TooltipLabelAsWritten(datasetLabel, Missing, usd) != Line(datasetLabel, Dash)
    ensures |TooltipLabelAsWritten(datasetLabel, Missing, usd)| == |Line(datasetLabel, Dash)| + 2
  {
    LineInjective(datasetLabel, "\U{00E2}\U{20AC}\U{201D}", Dash);
  }

  /** The tooltip with the intended em dash: a dash for a gap, dollars otherwise. */
  function TooltipLabel(datasetLabel: string, y: Value, usd: real -> string): (r: string)
    ensures |r| >= |Prefix(datasetLabel)| && r[..|Prefix(datasetLabel)|] == Prefix(datasetLabel)
    ensures y.Missing? ==> r[|Prefix(datasetLabel)|..] == Dash
    ensures y.Val? ==> r[|Prefix(datasetLabel)|..] == usd(y.r)
  {
    match y
    case Missing => Line(datasetLabel, Dash)
    case Val(v) => Line(datasetLabel, usd(v))
  }

  /**
   * When the dollar formatter never prints a bare dash, the placeholder
   * appears exactly for gaps, and a gap is never shown as a formatted 0.
   */
  lemma TooltipPlaceholderIffMissing(datasetLabel: string, y: Value, usd: real -> string)
    requires forall x :: usd(x) != Dash
    ensures TooltipLabel(datasetLabel, y, usd) == Line(datasetLabel, Dash) <==> y.Missing?
    ensures TooltipLabel(datasetLabel, Missing, usd) != TooltipLabel(datasetLabel, Val(0.0), usd)
  {
    if y.Val? {
      LineInjective(datasetLabel, usd(y.r), Dash);
    }
    LineInjective(datasetLabel, Dash, usd(0.0));
  }

  /** The current and the constant series. */
  const DatasetCount: nat := 2

  /** The view state of one rendered chart: the GDP mode and each dataset's visibility. */
  class ChartView {
    var mode: GdpMode
    const visible: array<bool>

    /** Two datasets, and at least one of them is visible. */
    ghost predicate Valid()
      reads this, visible
    {
      visible.Length == DatasetCount && Legend.VisibleCount(visible[..]) >= 1
    }

    /** The chart opens in nominal mode with both datasets shown. */
    constructor ()
      ensures Valid() && fresh(visible)
      ensures mode == Nominal
      ensures forall i :: 0 <= i < visible.Length ==> visible[i]
    {
      mode := Nominal;
      visible := new bool[DatasetCount](_ => true);
      new;
      assert visible[..] == [true, true];
    }

    /** What is plotted in the current mode. */
    function Data(): ChartData
      reads this
    {
      Project(mode)
    }

    /** `handleModeSelect`: the mode changes only to a different mode; visibility is untouched. */
    method HandleModeSelect(requested: GdpMode)
      requires Valid()
      modifies this
      ensures Valid()
      ensures mode == requested && Data() == Project(requested)
      ensures old(mode) == requested ==> unchanged(this) && Data() == old(Data())
      ensures visible[..] == old(visible[..])
    {
      if requested != mode {
        mode := requested;
      }
    }

    /** The legend `onClick`: toggles the clicked dataset unless it is the only one visible. */
    method OnLegendClick(clicked: Legend.DatasetIndex)
      requires Valid() && Legend.InRange(visible[..], clicked)
      modifies visible
      ensures Valid()
      ensures mode == old(mode) && Data() == old(Data())
      ensures visible[..] == Legend.Clicked(old(visible[..]), clicked)
    {
      Legend.ClickKeepsOneVisible(visible[..], clicked);
      Legend.Click(visible, clicked);
    }
  }
}
