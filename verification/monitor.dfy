/** The doctor's live-monitor chart (monitor.js): a line chart whose data
    values and time labels are two parallel sequences, refilled from the
    reading history and then extended one live reading at a time within a
    fixed window. Chart.js and the DOM are abstracted to those sequences;
    the locale-formatted time labels are parameters. */
module Monitor {
  import opened Outcomes
  import opened Strings

  /** The most points the chart keeps. */
  const MaxPoints := 30

  /** The chart's dataset values and the x-axis labels, index by index. */
  datatype Series<T> = Series(data: seq<T>, labels: seq<string>)

  /** The last `MaxPoints` elements of `s`, or all of `s` when it is shorter:
      what a window of that size over the whole reading history shows. */
  function Window<T>(s: seq<T>): seq<T> {
    if |s| <= MaxPoints then s else s[|s| - MaxPoints..]
  }

  // ---------------------------------------------------------------------
  // Live points
  // ---------------------------------------------------------------------

  /** `addChartPoint(value)`: push the value and its time label, then drop
      the oldest of each when the data exceed the window. */
  function AddChartPoint<T>(c: Series<T>, v: T, stamp: string): (r: Series<T>)
    ensures |r.data| > 0 && r.data[|r.data| - 1] == v
    ensures |c.data| == |c.labels| ==> |r.data| == |r.labels| && r.labels[|r.labels| - 1] == stamp
    ensures |c.data| <= MaxPoints ==> |r.data| <= MaxPoints
    ensures |c.data| < MaxPoints ==> r.data == c.data + [v] && r.labels == c.labels + [stamp]
    ensures |c.data| >= MaxPoints ==> r.data == c.data[1..] + [v] && r.labels == (c.labels + [stamp])[1..]
    ensures |c.data| > MaxPoints ==> |r.data| == |c.data|
  {
    var data := c.data + [v];
    var labels := c.labels + [stamp];
    if |data| > MaxPoints then Series(data[1..], labels[1..]) else Series(data, labels)
  }

  /** Successive live readings, each added by `AddChartPoint`. */
  function Feed<T>(c: Series<T>, points: seq<(T, string)>): Series<T>
    decreases |points|
  {
    if |points| == 0 then c
    else Feed(AddChartPoint(c, points[0].0, points[0].1), points[1..])
  }

  function Values<T>(points: seq<(T, string)>): (vs: seq<T>)
    ensures |vs| == |points|
    ensures forall i :: 0 <= i < |points| ==> vs[i] == points[i].0
  {
    seq(|points|, i requires 0 <= i < |points| => points[i].0)
  }

  /** Windowing twice is windowing once over the whole history. */
  lemma WindowAbsorbs<T>(s: seq<T>, t: seq<T>)
    ensures Window(Window(s) + t) == Window(s + t)
  {
    if |s| > MaxPoints {
      var w := s[|s| - MaxPoints..];
      var n := |s + t| - MaxPoints;
      assert (w + t)[|w + t| - MaxPoints..] == (s + t)[n..];
    }
  }

  /** One live point on a chart within the window keeps exactly the last
      `MaxPoints` values of the history extended by it. */
  lemma AddChartPointIsWindow<T>(c: Series<T>, v: T, stamp: string)
    requires |c.data| <= MaxPoints
    ensures AddChartPoint(c, v, stamp).data == Window(c.data + [v])
  {
  }

  /** The values of a non-empty list of points: the first, then the rest. */
  lemma ValuesCons<T>(points: seq<(T, string)>)
    requires |points| > 0
    ensures Values(points) == [points[0].0] + Values(points[1..])
  {
  }

  /** One more value followed by the rest: windowing after the first value
      and again after the rest is windowing the whole history once. */
  lemma WindowStep<T>(d: seq<T>, v: T, rest: seq<T>, vs: seq<T>)
    requires vs == [v] + rest
    ensures Window(Window(d + [v]) + rest) == Window(d + vs)
  {
    WindowAbsorbs(d + [v], rest);
    assert (d + [v]) + rest == d + vs;
  }

  /** However many live readings arrive, a chart that starts within the
      window shows exactly the last `MaxPoints` values of its whole history,
      in arrival order. */
  lemma {:induction false} FeedShowsLastWindow<T>(c: Series<T>, points: seq<(T, string)>)
    requires |c.data| <= MaxPoints
    ensures Feed(c, points).data == Window(c.data + Values(points))
    decreases |points|
  {
    if |points| == 0 {
      assert c.data + Values(points) == c.data;
    } else {
      var v := points[0].0;
      var c' := AddChartPoint(c, v, points[0].1);
      assert Feed(c, points) == Feed(c', points[1..]);
      AddChartPointIsWindow(c, v, points[0].1);
      FeedShowsLastWindow(c', points[1..]);
      ValuesCons(points);
      WindowStep(c.data, v, Values(points[1..]), Values(points));
    }
  }

  // ---------------------------------------------------------------------
  // History
  // ---------------------------------------------------------------------

  /** The reply to the history request: the request or JSON parsing failed,
      or a body whose `history` member (a list of [value, time] pairs) may
      be missing. */
  datatype HistoryReply<T> = FetchFailed | Fetched(history: Option<seq<(T, int)>>)

  /** The `forEach` in `loadHistory`: each pair pushes its value and the
      label of its time. */
  function PushAll<T>(c: Series<T>, h: seq<(T, int)>, timeLabel: int -> string): (r: Series<T>)
    ensures |r.data| == |c.data| + |h| && |r.labels| == |c.labels| + |h|
    ensures r.data[..|c.data|] == c.data && r.labels[..|c.labels|] == c.labels
    ensures forall i :: 0 <= i < |h| ==>
      r.data[|c.data| + i] == h[i].0 && r.labels[|c.labels| + i] == timeLabel(h[i].1)
    decreases |h|
  {
    if |h| == 0 then c
    else
      var r := PushAll(Series(c.data + [h[0].0], c.labels + [timeLabel(h[0].1)]), h[1..], timeLabel);
      assert forall i :: 0 < i < |h| ==> h[i] == h[1..][i - 1];
      r
  }

  /** `loadHistory`: a failed request leaves the chart as it was; otherwise
      both sequences are emptied and refilled from the history in its order
      (and stay empty when the body has no history). */
  function LoadHistory<T>(c: Series<T>, reply: HistoryReply<T>, timeLabel: int -> string): (r: Series<T>)
    ensures reply.FetchFailed? ==> r == c
    ensures reply.Fetched? && reply.history.None? ==> r.data == [] && r.labels == []
    ensures reply.Fetched? && reply.history.Some? ==>
      var h := reply.history.value;
      && |r.data| == |h| && |r.labels| == |h|
      && forall i :: 0 <= i < |h| ==> r.data[i] == h[i].0 && r.labels[i] == timeLabel(h[i].1)
  {
    match reply
    case FetchFailed => c
    case Fetched(None) => Series([], [])
    case Fetched(Some(h)) => PushAll(Series([], []), h, timeLabel)
  }

  /** A history of at most `MaxPoints` readings followed by live readings
      shows the last `MaxPoints` values of history and live readings
      together. */
  lemma HistoryThenLive<T>(c: Series<T>, h: seq<(T, int)>, timeLabel: int -> string, points: seq<(T, string)>)
    requires |h| <= MaxPoints
    ensures var loaded := LoadHistory(c, Fetched(Some(h)), timeLabel);
      Feed(loaded, points).data == Window(loaded.data + Values(points))
  {
    FeedShowsLastWindow(LoadHistory(c, Fetched(Some(h)), timeLabel), points);
  }

  // ---------------------------------------------------------------------
  // Chart set-up
  // ---------------------------------------------------------------------

  /** The y-axis title for a statistic. */
  function AxisUnit(stat: string): (u: string)
    ensures stat == "heart_rate" ==> u == "BPM"
    ensures stat == "o2" ==> u == "%"
    ensures stat != "heart_rate" && stat != "o2" ==> u == "\U{B0}C"
  {
    if stat == "heart_rate" then "BPM" else if stat == "o2" then "%" else "\U{B0}C"
  }

  /** The dataset label: the statistic's name with its first '_' turned into
      a space, upper-cased. */
  function DatasetLabel(stat: string): (l: string)
    ensures |l| == |stat|
    ensures forall i :: 0 <= i < |stat| ==>
      l[i] == UpperChar(if IsFirstOccurrence(stat, "_", i) then ' ' else stat[i])
  {
    var spaced := ReplaceFirst(stat, "_", " ");
    SingleCharReplace(stat, '_', ' ');
    UpperAscii(spaced)
  }

  /** Replacing the first occurrence of a one-character pattern by one
      character changes exactly that position. */
  lemma SingleCharReplace(s: string, pat: char, rep: char)
    ensures var r := ReplaceFirst(s, [pat], [rep]);
      && |r| == |s|
      && forall i :: 0 <= i < |s| ==>
           r[i] == if IsFirstOccurrence(s, [pat], i) then rep else s[i]
  {
    var r := ReplaceFirst(s, [pat], [rep]);
    match IndexOf(s, [pat])
    case None =>
    case Some(k) =>
      assert r == s[..k] + [rep] + s[k + 1..];
      forall i | 0 <= i < |s| ensures r[i] == if IsFirstOccurrence(s, [pat], i) then rep else s[i] {
        if i < k {
          assert !OccursAt(s, [pat], i);
        } else if i > k {
          assert OccursAt(s, [pat], k);
        }
      }
  }

  /** The set-up of a chart for a statistic: its dataset label, its axis title, and
      empty data and labels. */
  datatype ChartConfig<T> = ChartConfig(title: string, unit: string, series: Series<T>)

  /** `initChart(stat)`: any previous chart is discarded. */
  function InitChart<T>(stat: string): (c: ChartConfig<T>)
    ensures c.series.data == [] && c.series.labels == []
    ensures c.title == DatasetLabel(stat) && c.unit == AxisUnit(stat)
  {
    ChartConfig(DatasetLabel(stat), AxisUnit(stat), Series([], []))
  }

  /** Starting the monitor (the start button, or the restored session on
      page load): a fresh chart, the history refill, then live readings.
      Whatever the history reply, as long as a history holds at most
      `MaxPoints` readings, the chart shows the last `MaxPoints` values of
      what was loaded followed by the live readings. */
  lemma StartShowsWindow<T>(stat: string, reply: HistoryReply<T>, timeLabel: int -> string,
                            points: seq<(T, string)>)
    requires reply.Fetched? && reply.history.Some? ==> |reply.history.value| <= MaxPoints
    ensures var loaded := LoadHistory(InitChart<T>(stat).series, reply, timeLabel);
      Feed(loaded, points).data == Window(loaded.data + Values(points))
  {
    FeedShowsLastWindow(LoadHistory(InitChart<T>(stat).series, reply, timeLabel), points);
  }

  /** Only the first underscore of a statistic's name becomes a space: every
      later one stays in the label. */
  lemma LaterUnderscoresKept(stat: string, k: int, j: int)
    requires IsFirstOccurrence(stat, "_", k)
    requires k < j < |stat| && stat[j] == '_'
    ensures DatasetLabel(stat)[k] == ' ' && DatasetLabel(stat)[j] == '_'
  {
    assert !IsFirstOccurrence(stat, "_", j);
  }
}
