/** The Highcharts payload the dashboard consumes for the Q-score chart. */
module Chart {
  import opened Wrappers
  import opened Text

  /** A vertical two-stop linear gradient: stops [[0, bottom], [1, top]]. */
  datatype Gradient = Gradient(bottom: string, top: string)

  const LowColor := Gradient("#f2fbff", "#4db0e8")
  const HighColor := Gradient("#ebffeb", "#08a11c")
  const AreaHighColor := Gradient("#faffff", "#95edeb")

  /** The boundary between the two colour bands: Q30, as index 29. */
  const Q30Index := 29

  datatype Point = Point(x: int, y: int)

  /** One slot of an area series: None padding or a plotted value. */
  datatype Cell = Null | Val(v: int)

  /** The key under which an area series carries its series tag. */
  datatype Link = Id | LinkedTo

  datatype Series =
    | Column(name: string, points: seq<Point>, color: Gradient)
      /** an area series with its markers disabled; `fill` is None for the
          uncoloured padding series of the oldest revision. */
    | Area(link: Link, tag: string, name: string, cells: seq<Cell>, fill: Option<Gradient>)

  /** The y values of a point list, in order. */
  function Ys(points: seq<Point>): (ys: seq<int>)
    ensures |ys| == |points| && forall i :: 0 <= i < |points| ==> ys[i] == points[i].y
  {
    seq(|points|, i requires 0 <= i < |points| => points[i].y)
  }

  datatype Limit = Limit(read: string, cycleNb: int)

  /** plot_data: data.charts.* and options.value.* flattened into one record. */
  datatype Plot = Plot(
    level: string,
    datasetLabel: string,
    header: string,
    subheader: string,
    xaxisLabels: seq<int>,
    xLimits: seq<Limit>,
    yaxisLabel: string,
    series: seq<Series>,
    limits: seq<Limit>,
    scale: string,
    chart: string)

  /** The envelope every format_q30_plot_data revision sets up before adding
      its series: x axis 1..maxX and the Q30 limit markers. */
  function Envelope(datasetLabel: string, yaxisLabel: string, maxX: int, series: seq<Series>, chart: string): (p: Plot)
    ensures |p.xaxisLabels| == if maxX < 1 then 0 else maxX
    ensures forall i :: 0 <= i < |p.xaxisLabels| ==> p.xaxisLabels[i] == i + 1
    ensures p.series == series && p.chart == chart
  {
    Plot("Q score", datasetLabel, "", "", Range(1, maxX), [Limit("30", 30)], yaxisLabel,
         series, [Limit("30", 30)], "interop", chart)
  }

  /** The empty chart of the "Run is initializing" placeholder. */
  const EmptyPlot := Plot("Q score", "", "", "", [], [], "", [], [Limit("", 0)], "interop", "")

  /** The `data` dictionary handed to every format_q30_plot_data revision:
      the histogram lists (values and widths already cut to int) and the
      axis titles. Both revisions update some of its lists in place. */
  class PlotInput {
    var xLabels: seq<int>
    var values: seq<int>
    var widths: seq<int>
    var xTitle: string
    var yTitle: string

    constructor (xLabels: seq<int>, values: seq<int>, widths: seq<int>, xTitle: string, yTitle: string)
      ensures this.xLabels == xLabels && this.values == values && this.widths == widths
      ensures this.xTitle == xTitle && this.yTitle == yTitle
    {
      this.xLabels := xLabels;
      this.values := values;
      this.widths := widths;
      this.xTitle := xTitle;
      this.yTitle := yTitle;
    }
  }
}
