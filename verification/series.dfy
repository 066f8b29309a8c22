/**
 * parse_data: the stored daily points, oldest first, projected into the `{x, y}` point
 * lists the charts read, once for the whole series and once for its last 28 days.
 */
module Series {
  import opened Basics

  /** One stored day: the date key and the two measured values. */
  datatype DailyPoint = DailyPoint(date: string, videoCount: int, totalMinutes: int)

  /** A chart point `{"x": date, "y": value}`. */
  datatype Point = Point(x: string, y: int)

  /** `{"video_count_points": [...], "total_minutes_points": [...]}` */
  datatype PointLists = PointLists(videoCountPoints: seq<Point>, totalMinutesPoints: seq<Point>)

  /** Days kept by the month view. */
  const MonthDays := 28

  function VideoPoints(data: seq<DailyPoint>): seq<Point>
  {
    seq(|data|, i requires 0 <= i < |data| => Point(data[i].date, data[i].videoCount))
  }

  function MinutePoints(data: seq<DailyPoint>): seq<Point>
  {
    seq(|data|, i requires 0 <= i < |data| => Point(data[i].date, data[i].totalMinutes))
  }

  /** The slice `ps[-k:]` for a positive k: the last k points, or all of them when there are fewer. (At k == 0 Python's `ps[-0:]` is all of ps; only 28 is ever passed.) */
  function LastPoints(ps: seq<Point>, k: nat): (r: seq<Point>)
    requires k > 0
    ensures |r| == Min(k, |ps|)
    ensures r == ps[|ps| - |r|..]
  {
    if |ps| <= k then ps else ps[|ps| - k..]
  }

  /** The y values of a point list, `[pt["y"] for pt in points]`. */
  function Ys(ps: seq<Point>): (ys: seq<int>)
    ensures |ys| == |ps|
    ensures forall i :: 0 <= i < |ps| ==> ys[i] == ps[i].y
  {
    seq(|ps|, i requires 0 <= i < |ps| => ps[i].y)
  }

  /** The full view and the month view of a series, as parse_data returns them. */
  datatype Views = Views(full: PointLists, month: PointLists)

  function ParseData(data: seq<DailyPoint>): (v: Views)
    ensures |v.full.videoCountPoints| == |v.full.totalMinutesPoints| == |data|
    ensures forall i :: 0 <= i < |data| ==>
              v.full.videoCountPoints[i] == Point(data[i].date, data[i].videoCount)
              && v.full.totalMinutesPoints[i] == Point(data[i].date, data[i].totalMinutes)
    ensures |v.month.videoCountPoints| == |v.month.totalMinutesPoints| == Min(MonthDays, |data|)
    ensures v.month.videoCountPoints == v.full.videoCountPoints[|data| - Min(MonthDays, |data|)..]
    ensures v.month.totalMinutesPoints == v.full.totalMinutesPoints[|data| - Min(MonthDays, |data|)..]
  {
    var videoPoints := VideoPoints(data);
    var minutePoints := MinutePoints(data);
    Views(PointLists(videoPoints, minutePoints),
          PointLists(LastPoints(videoPoints, MonthDays), LastPoints(minutePoints, MonthDays)))
  }

  /** A series of at most 28 days is its own month view. */
  lemma ShortSeriesMonthIsFull(data: seq<DailyPoint>)
    requires |data| <= MonthDays
    ensures ParseData(data).month == ParseData(data).full
  {
  }

  /** The month view holds the last 28 days, oldest first: its k-th point is day n-28+k of the input. */
  lemma MonthViewIsLastDays(data: seq<DailyPoint>, k: nat)
    requires MonthDays < |data| && k < MonthDays
    ensures ParseData(data).month.videoCountPoints[k] == Point(data[|data| - MonthDays + k].date, data[|data| - MonthDays + k].videoCount)
    ensures ParseData(data).month.totalMinutesPoints[k] == Point(data[|data| - MonthDays + k].date, data[|data| - MonthDays + k].totalMinutes)
  {
  }

  /** The y values read back from the full view are the stored values, in input order. */
  lemma FullViewValues(data: seq<DailyPoint>)
    ensures Ys(ParseData(data).full.videoCountPoints) == seq(|data|, i requires 0 <= i < |data| => data[i].videoCount)
    ensures Ys(ParseData(data).full.totalMinutesPoints) == seq(|data|, i requires 0 <= i < |data| => data[i].totalMinutes)
  {
  }
}
