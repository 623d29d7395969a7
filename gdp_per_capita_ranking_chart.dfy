/**
 * The GDP per capita world-ranking chart
 * (components/GdpPerCapitaRankingChart.tsx): the nominal/PPP mode
 * projection, the ranking and percent axis ranges, the tooltip text and the
 * per-chart view state.
 */
module GdpPerCapitaRankingChart {
  import opened ChartValues
  import opened Extrema
  import opened TooltipText
  import Legend

  /** The years of the x axis, 2002..2024. */
  const Labels: seq<int> := [
    2002, 2003, 2004, 2005, 2006, 2007, 2008, 2009, 2010, 2011, 2012, 2013, 2014,
    2015, 2016, 2017, 2018, 2019, 2020, 2021, 2022, 2023, 2024
  ]

  /** World ranking of GDP per capita, nominal. */
  const NominalRanking: seq<real> := [
    91.0, 83.0, 77.0, 77.0, 79.0, 78.0, 76.0, 81.0, 80.0, 81.0, 84.0, 81.0, 84.0, 81.0, 81.0, 83.0,
    93.0, 96.0, 90.0, 92.0, 92.0, 87.0, 83.0
  ]

  /** World ranking of GDP per capita, PPP. */
  const PppRanking: seq<real> := [
    81.0, 81.0, 79.0, 77.0, 75.0, 75.0, 76.0, 78.0, 76.0, 72.0, 71.0, 67.0, 67.0, 62.0, 63.0, 63.0,
    66.0, 67.0, 61.0, 62.0, 60.0, 59.0, 59.0
  ]

  /** GDP per capita as a percentage of the world's, nominal. */
  const NominalPercentWorld: seq<real> := [
    64.9, 76.0, 87.8, 101.0, 102.0, 113.0, 116.0, 103.0, 112.0, 108.0, 111.0, 118.0, 112.0, 109.0,
    108.0, 100.0, 85.6, 82.6, 80.4, 80.6, 85.2, 101.0, 117.0
  ]

  /** GDP per capita as a percentage of the world's, PPP. */
  const PppPercentWorld: seq<real> := [
    106.0, 105.0, 112.0, 116.0, 123.0, 127.0, 131.0, 126.0, 135.0, 144.0, 146.0, 153.0, 160.0, 169.0,
    170.0, 173.0, 166.0, 160.0, 163.0, 162.0, 182.0, 186.0, 185.0
  ]

  /** The four tables have one entry per label. */
  lemma TablesAligned()
    ensures |Labels| == 23
    ensures |NominalRanking| == |Labels| && |PppRanking| == |Labels|
    ensures |NominalPercentWorld| == |Labels| && |PppPercentWorld| == |Labels|
  {
  }

  datatype RankingMode = Nominal | Ppp

  /** What one mode puts on the chart. */
  datatype ChartData = ChartData(rankingSeries: seq<real>, percentSeries: seq<real>, headingMode: string)

  /** The mode projection: PPP mode picks the PPP ranking and percent tables and heading "SGP (PPP)". */
  function Project(mode: RankingMode): (d: ChartData)
    ensures |d.rankingSeries| == |Labels| && |d.percentSeries| == |Labels|
    ensures mode == Ppp ==> d.rankingSeries == PppRanking && d.percentSeries == PppPercentWorld
                            && d.headingMode == "SGP (PPP)"
    ensures mode == Nominal ==> d.rankingSeries == NominalRanking && d.percentSeries == NominalPercentWorld
                                && d.headingMode == "Nominal"
  {
    match mode
    case Ppp => ChartData(PppRanking, PppPercentWorld, "SGP (PPP)")
    case Nominal => ChartData(NominalRanking, NominalPercentWorld, "Nominal")
  }

  /**
   * The ranking axis, `minRank - 5` to `maxRank + 5`: every rank lies at
   * least 5 inside it, and the best and the worst rank exactly 5 inside it.
   */
  function RankAxisRange(mode: RankingMode): (a: AxisRange)
    ensures forall v :: v in Project(mode).rankingSeries ==> a.suggestedMin + 5.0 <= v <= a.suggestedMax - 5.0
    ensures a.suggestedMin + 5.0 in Project(mode).rankingSeries
    ensures a.suggestedMax - 5.0 in Project(mode).rankingSeries
  {
    PaddedAxis(Project(mode).rankingSeries, 5.0)
  }

  /**
   * The percent axis, `max(0, minPercent - 20)` to `maxPercent + 20`: the
   * upper end is exactly 20 above the highest percent; the lower end is
   * `max(0, p - 20)` for the lowest percent p, so it is never negative and
   * never above a non-negative percent.
   */
  function PercentAxisRange(mode: RankingMode): (a: AxisRange)
    ensures a.suggestedMin >= 0.0
    ensures forall v :: v in Project(mode).percentSeries ==> v + 20.0 <= a.suggestedMax
    ensures a.suggestedMax - 20.0 in Project(mode).percentSeries
    ensures forall v :: v in Project(mode).percentSeries ==> a.suggestedMin <= Max(0.0, v - 20.0)
    ensures exists v :: v in Project(mode).percentSeries && a.suggestedMin == Max(0.0, v - 20.0)
    ensures forall v :: v in Project(mode).percentSeries && v >= 0.0 ==> a.suggestedMin <= v
  {
    FlooredAxis(Project(mode).percentSeries, 20.0)
  }

  /**
   * The tooltip: a dash for a gap; otherwise the percent format and a "%"
   * sign on the `yPercent` axis, and the rank format on every other axis.
   */
  function TooltipLabel(datasetLabel: string, yAxisId: string, y: Value,
                        rankFmt: real -> string, percentFmt: real -> string): (r: string)
    ensures |r| >= |Prefix(datasetLabel)| && r[..|Prefix(datasetLabel)|] == Prefix(datasetLabel)
    ensures y.Missing? ==> r[|Prefix(datasetLabel)|..] == Dash
    ensures y.Val? && yAxisId == "yPercent" ==> r[|Prefix(datasetLabel)|..] == percentFmt(y.r) + "%"
    ensures y.Val? && yAxisId != "yPercent" ==> r[|Prefix(datasetLabel)|..] == rankFmt(y.r)
  {
    match y
    case Missing => Line(datasetLabel, Dash)
    case Val(v) => Line(datasetLabel, if yAxisId == "yPercent" then percentFmt(v) + "%" else rankFmt(v))
  }

  /**
   * When the rank formatter never prints a bare dash, the placeholder
   * appears exactly for gaps, and a gap is never shown as a formatted 0.
   * (A percent body always ends in "%", so it can never be the dash.)
   */
  lemma TooltipPlaceholderIffMissing(datasetLabel: string, yAxisId: string, y: Value,
                                     rankFmt: real -> string, percentFmt: real -> string)
    requires forall x :: rankFmt(x) != Dash
    ensures TooltipLabel(datasetLabel, yAxisId, y, rankFmt, percentFmt) == Line(datasetLabel, Dash) <==> y.Missing?
    ensures TooltipLabel(datasetLabel, yAxisId, Missing, rankFmt, percentFmt)
            != TooltipLabel(datasetLabel, yAxisId, Val(0.0), rankFmt, percentFmt)
  {
    if y.Val? {
      var body := if yAxisId == "yPercent" then percentFmt(y.r) + "%" else rankFmt(y.r);
      if yAxisId == "yPercent" {
        assert body[|body| - 1] == '%';
      }
      LineInjective(datasetLabel, body, Dash);
    }
    var zero := if yAxisId == "yPercent" then percentFmt(0.0) + "%" else rankFmt(0.0);
    if yAxisId == "yPercent" {
      assert zero[|zero| - 1] == '%';
    }
    LineInjective(datasetLabel, Dash, zero);
  }

  /** The ranking and the percent series. */
  const DatasetCount: nat := 2

  /** The view state of one rendered chart: the ranking mode and each dataset's visibility. */
  class ChartView {
    var mode: RankingMode
    const visible: array<bool>

    /** Two datasets, and at least one of them is visible. */
    ghost predicate Valid()
      reads this, visible
    {
      visible.Length == DatasetCount && Legend.VisibleCount(visible[..]) >= 1
    }

    /** The chart opens in nominal mode with both datasets shown. */
    constructor ()
      ensures Valid() && fresh(visible)
      ensures mode == Nominal
      ensures forall i :: 0 <= i < visible.Length ==> visible[i]
    {
      mode := Nominal;
      visible := new bool[DatasetCount](_ => true);
      new;
      assert visible[..] == [true, true];
    }

    /** What is plotted in the current mode. */
    function Data(): ChartData
      reads this
    {
      Project(mode)
    }

    /** `handleModeSelect`: the mode changes only to a different mode; visibility is untouched. */
    method HandleModeSelect(requested: RankingMode)
      requires Valid()
      modifies this
      ensures Valid()
      ensures mode == requested && Data() == Project(requested)
      ensures old(mode) == requested ==> unchanged(this) && Data() == old(Data())
      ensures visible[..] == old(visible[..])
    {
      if requested != mode {
        mode := requested;
      }
    }

    /** The legend `onClick`: toggles the clicked dataset unless it is the only one visible. */
    method OnLegendClick(clicked: Legend.DatasetIndex)
      requires Valid() && Legend.InRange(visible[..], clicked)
      modifies visible
      ensures Valid()
      ensures mode == old(mode) && Data() == old(Data())
      ensures visible[..] == Legend.Clicked(old(visible[..]), clicked)
    {
      Legend.ClickKeepsOneVisible(visible[..], clicked);
      Legend.Click(visible, clicked);
    }
  }
}
