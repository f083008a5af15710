/** The mood chart (client/src/components/MoodChart.jsx): the mood log mapped to
    numbered points, and the choice between the placeholder and the chart. */
module MoodChart {
  import opened Wrappers
  import opened Mood

  /** `{ x: i + 1, mood: d.mood }`: the sample's timestamp is not carried over. */
  datatype Point = Point(x: int, mood: Option<int>)

  /** The points for `data`, numbered from `first`. */
  function PointsFrom(data: seq<MoodSample>, first: int): (r: seq<Point>)
    ensures |r| == |data|
    ensures forall i | 0 <= i < |data| :: r[i] == Point(first + i, data[i].mood)
    decreases |data|
  {
    if data == [] then [] else [Point(first, data[0].mood)] + PointsFrom(data[1..], first + 1)
  }

  /** `formatted`: one point per sample, in the same order, numbered 1, 2, ...,
      each carrying its sample's mood. */
  function Formatted(data: seq<MoodSample>): (r: seq<Point>)
    ensures |r| == |data|
    ensures forall i | 0 <= i < |data| :: r[i].x == i + 1 && r[i].mood == data[i].mood
  {
    PointsFrom(data, 1)
  }

  /** The x values run from 1 to n and strictly increase. */
  lemma FormattedAxis(data: seq<MoodSample>, i: int, j: int)
    requires 0 <= i < j < |data|
    ensures 1 <= Formatted(data)[i].x < Formatted(data)[j].x <= |data|
  {
  }

  /** What the component shows. */
  datatype ChartView = NoDataPlaceholder | LineChart(points: seq<Point>)

  /** The placeholder exactly when there is no sample; otherwise the chart of
      the formatted points. */
  function View(data: seq<MoodSample>): (v: ChartView)
    ensures v.NoDataPlaceholder? <==> data == []
    ensures v.LineChart? ==> v.points == Formatted(data) && |v.points| > 0
  {
    var formatted := Formatted(data);
    if |formatted| == 0 then NoDataPlaceholder else LineChart(formatted)
  }
}
