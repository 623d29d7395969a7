/**
 * Tooltip label text: `` ` ${ctx.dataset.label}: ${body}` ``, where the body
 * is a formatted number or, for a gap, a dash placeholder. The number
 * formatters (`Intl.NumberFormat`) are parameters of the chart tooltips.
 */
module TooltipText {

  /** The placeholder shown for a gap, U+2014 EM DASH. */
  const Dash: string := "\U{2014}"

  /** The prefix every tooltip line of a dataset starts with. */
  function Prefix(datasetLabel: string): string {
    " " + datasetLabel + ": "
  }

  /** One tooltip line: the dataset's prefix, then the body. */
  function Line(datasetLabel: string, body: string): (r: string)
    ensures |r| == |Prefix(datasetLabel)| + |body|
    ensures r[..|Prefix(datasetLabel)|] == Prefix(datasetLabel)
    ensures r[|Prefix(datasetLabel)|..] == body
  {
    Prefix(datasetLabel) + body
  }

  /** Two tooltip lines for one dataset are equal exactly when their bodies are. */
  lemma LineInjective(datasetLabel: string, a: string, b: string)
    ensures Line(datasetLabel, a) == Line(datasetLabel, b) <==> a == b
  {
  }
}
