/** The chart panel's data handling (TelemetryCharts): a sliding buffer of
    recent points in live mode, a window of the log centred on the cursor
    in playback, and the per-panel chart selection. */
module Charts {
  import opened Telemetry

  /** The most points the live buffer keeps. */
  const MaxDataPoints: nat := 100

  /** The chart selection of each panel when the component mounts. */
  const DefaultSelection: seq<string> := ["euler", "velocity", "linearAccel", "angularAccel"]

  /** One chart point; every series is present exactly when the record has
      a LoRa sample. */
  datatype ChartPoint = ChartPoint(
    timestamp: int,
    eulerX: Option<real>, eulerY: Option<real>, eulerZ: Option<real>,
    velocityX: Option<real>, velocityY: Option<real>, velocityZ: Option<real>,
    linearAccelX: Option<real>, linearAccelY: Option<real>, linearAccelZ: Option<real>,
    angularAccelX: Option<real>, angularAccelY: Option<real>, angularAccelZ: Option<real>,
    servoAngle: Option<real>)

  predicate NoSeries(p: ChartPoint)
  {
    && p.eulerX.None? && p.eulerY.None? && p.eulerZ.None?
    && p.velocityX.None? && p.velocityY.None? && p.velocityZ.None?
    && p.linearAccelX.None? && p.linearAccelY.None? && p.linearAccelZ.None?
    && p.angularAccelX.None? && p.angularAccelY.None? && p.angularAccelZ.None?
    && p.servoAngle.None?
  }

  /** The series of a point match the sample's vectors component by
      component. */
  predicate CarriesSample(p: ChartPoint, l: RocketTelemetry)
  {
    && p.eulerX == Some(l.eulerAngles.x) && p.eulerY == Some(l.eulerAngles.y)
    && p.eulerZ == Some(l.eulerAngles.z)
    && p.velocityX == Some(l.velocity.x) && p.velocityY == Some(l.velocity.y)
    && p.velocityZ == Some(l.velocity.z)
    && p.linearAccelX == Some(l.linearAcceleration.x) && p.linearAccelY == Some(l.linearAcceleration.y)
    && p.linearAccelZ == Some(l.linearAcceleration.z)
    && p.angularAccelX == Some(l.angularAcceleration.x) && p.angularAccelY == Some(l.angularAcceleration.y)
    && p.angularAccelZ == Some(l.angularAcceleration.z)
    && p.servoAngle == Some(l.servoMotorAngle)
  }

  /** A record as a chart point: the timestamp always, the LoRa series only
      when the record has a LoRa sample (RTK data is not charted). */
  function ConvertToChartPoint(r: CombinedRecord): (p: ChartPoint)
    ensures p.timestamp == r.timestamp
    ensures r.lora.None? <==> NoSeries(p)
    ensures r.lora.Some? ==> CarriesSample(p, r.lora.value)
  {
    match r.lora
    case None =>
      ChartPoint(r.timestamp, None, None, None, None, None, None, None, None, None, None, None, None, None)
    case Some(l) =>
      ChartPoint(r.timestamp,
        Some(l.eulerAngles.x), Some(l.eulerAngles.y), Some(l.eulerAngles.z),
        Some(l.velocity.x), Some(l.velocity.y), Some(l.velocity.z),
        Some(l.linearAcceleration.x), Some(l.linearAcceleration.y), Some(l.linearAcceleration.z),
        Some(l.angularAcceleration.x), Some(l.angularAcceleration.y), Some(l.angularAcceleration.z),
        Some(l.servoMotorAngle))
  }

  /** The most recent `MaxDataPoints` points, oldest first. */
  function KeepRecent(points: seq<ChartPoint>): (r: seq<ChartPoint>)
    ensures |r| == if |points| > MaxDataPoints then MaxDataPoints else |points|
    ensures r == points[|points| - |r|..]
  {
    if |points| > MaxDataPoints then points[|points| - MaxDataPoints..] else points
  }

  /** Appending to the live buffer keeps the new point last, keeps the
      points before it in arrival order, and drops only the oldest ones. */
  lemma AppendKeepsNewest(prev: seq<ChartPoint>, p: ChartPoint)
    requires |prev| <= MaxDataPoints + 1
    ensures var r := KeepRecent(prev + [p]);
      && 1 <= |r| <= MaxDataPoints
      && r[|r| - 1] == p
      && (|prev| < MaxDataPoints ==> r == prev + [p])
      && (|prev| >= MaxDataPoints ==> r == prev[|prev| - (MaxDataPoints - 1)..] + [p])
  {
    var s := prev + [p];
    if |prev| >= MaxDataPoints {
      assert s[|s| - MaxDataPoints..] == prev[|prev| - (MaxDataPoints - 1)..] + [p];
    }
  }

  /** An inclusive range of log indices. */
  datatype Window = Window(startIdx: int, endIdx: int)
  {
    function Size(): int { endIdx - startIdx + 1 }
  }

  function Min(a: int, b: int): int { if a <= b then a else b }
  function Max(a: int, b: int): int { if a >= b then a else b }

  /** The first guess: half a window on each side of the cursor, cut at
      the ends of the log. */
  function CentredWindow(n: int, cur: int): Window
  {
    var halfWindow := MaxDataPoints / 2;
    Window(Max(0, cur - halfWindow), Min(n - 1, cur + halfWindow))
  }

  /** The playback window for a log of `n` records and cursor `cur`: when
      the centred window is short of `MaxDataPoints`, it is refilled from
      the other side. It always lies inside the log, contains the cursor
      when the cursor is inside the log, and has at most 101 points: exactly
      101 (one more than `MaxDataPoints`) when the cursor is at least 50 from
      both ends. */
  function PlaybackWindow(n: int, cur: int): (w: Window)
    requires n >= 1 && cur >= 0
    ensures 0 <= w.startIdx <= w.endIdx <= n - 1
    ensures cur < n ==> w.startIdx <= cur <= w.endIdx
    ensures w.Size() <= MaxDataPoints + 1
    ensures w.Size() == MaxDataPoints + 1 <==> 50 <= cur && cur + 50 <= n - 1
    ensures n <= MaxDataPoints && cur < n ==> w == Window(0, n - 1)
    ensures n >= MaxDataPoints && cur < n ==> w.Size() >= MaxDataPoints
  {
    var c := CentredWindow(n, cur);
    if c.Size() < MaxDataPoints then
      if c.startIdx == 0 then Window(0, Min(n - 1, c.startIdx + MaxDataPoints - 1))
      else if c.endIdx == n - 1 then Window(Max(0, c.endIdx - MaxDataPoints + 1), c.endIdx)
      else c
    else c
  }

  /** The two refill rules: a short window anchored at the start is
      extended to `min(n-1, 99)`; one anchored only at the end is extended
      back to `max(0, n-100)`. */
  lemma WindowRefill(n: int, cur: int)
    requires n >= 1 && 0 <= cur
    ensures var c := CentredWindow(n, cur);
      && (c.Size() < MaxDataPoints && c.startIdx == 0 ==>
            PlaybackWindow(n, cur) == Window(0, Min(n - 1, MaxDataPoints - 1)))
      && (c.Size() < MaxDataPoints && c.startIdx != 0 && c.endIdx == n - 1 ==>
            PlaybackWindow(n, cur) == Window(Max(0, n - MaxDataPoints), n - 1))
      && (c.Size() >= MaxDataPoints ==> PlaybackWindow(n, cur) == c)
  {
  }

  /** The chart points shown in playback: the window's records, in log
      order. */
  function VisibleDataForPlayback(logData: seq<CombinedRecord>, cur: int): (r: seq<ChartPoint>)
    requires |logData| >= 1 && cur >= 0
    ensures var w := PlaybackWindow(|logData|, cur);
      && |r| == w.Size()
      && forall i :: 0 <= i < |r| ==> r[i] == ConvertToChartPoint(logData[w.startIdx + i])
    ensures cur < |logData| ==> ConvertToChartPoint(logData[cur]) in r
  {
    var w := PlaybackWindow(|logData|, cur);
    var visible := logData[w.startIdx..w.endIdx + 1];
    var r := seq(|visible|, i requires 0 <= i < |visible| => ConvertToChartPoint(visible[i]));
    assert cur < |logData| ==> 0 <= cur - w.startIdx < |visible| && visible[cur - w.startIdx] == logData[cur];
    assert cur < |logData| ==> r[cur - w.startIdx] == ConvertToChartPoint(visible[cur - w.startIdx]);
    r
  }

  class TelemetryCharts {
    var chartData: seq<ChartPoint>
    var selectedCharts: seq<string>

    /** The buffer never holds more than one playback window. */
    ghost predicate Valid()
      reads this
    {
      |chartData| <= MaxDataPoints + 1 && |selectedCharts| == |DefaultSelection|
    }

    constructor ()
      ensures Valid() && chartData == [] && selectedCharts == DefaultSelection
    {
      chartData := [];
      selectedCharts := DefaultSelection;
    }

    /** Live mode: append the record's point and keep the newest ones. */
    method AppendDataPoint(data: CombinedRecord)
      requires Valid()
      modifies this`chartData
      ensures Valid()
      ensures chartData == KeepRecent(old(chartData) + [ConvertToChartPoint(data)])
      ensures 1 <= |chartData| <= MaxDataPoints && chartData[|chartData| - 1] == ConvertToChartPoint(data)
    {
      var newPoint := ConvertToChartPoint(data);
      var newData := chartData + [newPoint];
      AppendKeepsNewest(chartData, newPoint);
      if |newData| > MaxDataPoints {
        chartData := newData[|newData| - MaxDataPoints..];
        return;
      }
      chartData := newData;
    }

    /** A panel's chart choice: an empty value (a toggle that was switched
        off) is ignored; otherwise only that panel's slot changes. */
    method HandleChartTypeChange(index: nat, value: string)
      requires Valid() && index < |selectedCharts|
      modifies this`selectedCharts
      ensures Valid()
      ensures value == "" ==> selectedCharts == old(selectedCharts)
      ensures value != "" ==> selectedCharts[index] == value
      ensures forall i :: 0 <= i < |selectedCharts| && i != index ==> selectedCharts[i] == old(selectedCharts)[i]
    {
      if value == "" {
        return;
      }
      var newSelections := selectedCharts;
      newSelections := newSelections[index := value];
      selectedCharts := newSelections;
    }

    /** The update on every change of the latest record, the mode, the log
        or the cursor: nothing without a record; in live mode the record is
        appended; in playback the buffer is rebuilt from the log window,
        but only when the log is non-empty. */
    method OnTelemetryChange(latestData: Option<CombinedRecord>, isLiveMode: bool,
                             logData: seq<CombinedRecord>, currentLogIndex: nat)
      requires Valid()
      modifies this`chartData
      ensures Valid()
      ensures latestData.None? ==> chartData == old(chartData)
      ensures latestData.Some? && isLiveMode ==>
                chartData == KeepRecent(old(chartData) + [ConvertToChartPoint(latestData.value)])
      ensures latestData.Some? && !isLiveMode && |logData| > 0 ==>
                chartData == VisibleDataForPlayback(logData, currentLogIndex)
      ensures latestData.Some? && !isLiveMode && |logData| == 0 ==> chartData == old(chartData)
    {
      if latestData.Some? {
        if isLiveMode {
          AppendDataPoint(latestData.value);
        } else if |logData| > 0 {
          chartData := VisibleDataForPlayback(logData, currentLogIndex);
        }
      }
    }
  }
}
