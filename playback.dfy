/** The telemetry provider: the mode controller and playback scheduler that
    the dashboard reads its single "latest record" from. Its state cells
    become fields; each handler, together with the effects its state change
    triggers, becomes one method. */
module Playback {
  import opened Telemetry
  import opened SourceAdapter
  import opened Recording
  import opened Fusion

  /** The identity of the provider's subscription on the coordinator. */
  const ProviderSubscriber: ListenerId := 2

  /** A digit character. */
  function Digit(d: nat): (c: char)
    requires d < 10
    ensures '0' <= c <= '9' && c as int - '0' as int == d
  {
    ('0' as int + d) as char
  }

  /** The value a string of decimal digits denotes. */
  function DigitsValue(s: string): nat
    requires forall i :: 0 <= i < |s| ==> '0' <= s[i] <= '9'
  {
    if s == [] then 0
    else DigitsValue(s[..|s| - 1]) * 10 + (s[|s| - 1] as int - '0' as int)
  }

  /** A natural number in decimal: the shortest digit string denoting it. */
  function NatText(n: nat): (s: string)
    ensures |s| > 0
    ensures forall i :: 0 <= i < |s| ==> '0' <= s[i] <= '9'
    ensures DigitsValue(s) == n
    ensures |s| > 1 ==> s[0] != '0'
  {
    if n < 10 then [Digit(n)]
    else
      var high := NatText(n / 10);
      assert (high + [Digit(n % 10)])[..|high|] == high;
      high + [Digit(n % 10)]
  }

  /** `n.toString()` for an integer-valued number: an optional minus sign
      followed by the digits of the magnitude. Never the empty string, so
      `toString() || null` is never null. */
  function DecimalText(n: int): (s: string)
    ensures |s| > 0
    ensures s[0] == '-' <==> n < 0
    ensures forall i :: 0 < i < |s| ==> '0' <= s[i] <= '9'
    ensures n >= 0 ==> '0' <= s[0] <= '9'
    ensures n >= 0 ==> DigitsValue(s) == n
    ensures n < 0 ==> |s| > 1 && DigitsValue(s[1..]) == -n
  {
    if n < 0 then
      var mag := NatText(-n);
      assert ("-" + mag)[1..] == mag;
      "-" + mag
    else NatText(n)
  }

  /** The mount effect's service setup: a coordinator with both mock
      adapters, their sample handlers and the provider's subscription
      registered, both adapters connected and both streams started. */
  method MountServices()
    returns (m: TelemetryManagerService, l: Adapter<RocketTelemetry>, r: Adapter<RtkData>)
    ensures fresh(m) && fresh(l) && fresh(r) && m.logger != null && fresh(m.logger)
    ensures m.lora == l && m.rtk == r && m.dataUpdateCallbacks == [ProviderSubscriber]
    ensures m.latestLora == None && m.latestRtk == None
    ensures !m.logger.isCurrentlyLogging && m.logger.logData == [] && m.logger.logFilePath == None
    ensures l.dataListeners == [LoRaHandler] && l.latestData == None && l.emitted == []
    ensures r.dataListeners == [RtkHandler] && r.latestData == None && r.emitted == []
    ensures l.connected && l.intervalId.Some? && r.connected && r.intervalId.Some?
  {
    m := new TelemetryManagerService();
    l := new Adapter<RocketTelemetry>();
    r := new Adapter<RtkData>();
    m.SetLoRaService(l);
    m.SetRtkService(r);
    m.OnDataUpdated(ProviderSubscriber);
    ghost var loraFeed, rtkFeed := l.Feed(), r.Feed();
    assert l.dataListeners == [LoRaHandler] && l.latestData == None && l.emitted == [];
    assert r.dataListeners == [RtkHandler] && r.latestData == None && r.emitted == [];
    var loraUp := m.ConnectLoRa("COM3");
    var rtkUp := m.ConnectRtk("COM4");
    m.StartDataStreams();
    assert l.Feed() == loraFeed && r.Feed() == rtkFeed;
  }

  class TelemetryProvider {
    const manager: TelemetryManagerService
    const lora: Adapter<RocketTelemetry>
    const rtk: Adapter<RtkData>
    const logger: FileLoggingService
    var latestData: Option<CombinedRecord>
    var isLiveMode: bool
    var isLogging: bool
    var logFilePath: Option<string>
    var logData: seq<CombinedRecord>
    var currentLogIndex: nat
    var isPlaying: bool

    ghost predicate Valid()
      reads this, manager, lora, rtk, logger
    {
      // the wiring made when the provider is mounted
      && manager.lora == lora && manager.rtk == rtk && manager.logger == logger
      && lora.dataListeners == [LoRaHandler] && rtk.dataListeners == [RtkHandler]
      && manager.dataUpdateCallbacks == [ProviderSubscriber]
      && lora.Valid() && rtk.Valid()
      // the coordinator's slots hold the adapters' latest samples
      && manager.latestLora == lora.latestData && manager.latestRtk == rtk.latestData
      // the adapters stream exactly while the mode is live
      && (isLiveMode <==> lora.intervalId.Some?) && (isLiveMode <==> rtk.intervalId.Some?)
      // the logging flag mirrors the recording store
      && isLogging == logger.isCurrentlyLogging
      // in playback the published record is the one under the cursor
      && (!isLiveMode && currentLogIndex < |logData| ==> latestData == Some(logData[currentLogIndex]))
    }

    /** The condition under which the playback timer exists and ticks. */
    predicate PlaybackTimerRunning()
      reads this
    {
      isPlaying && !isLiveMode && |logData| > 0
    }

    /** Mounting: a coordinator with both mock adapters, the provider's
        subscription, both adapters connected and streaming, live mode. */
    constructor ()
      ensures Valid()
      ensures isLiveMode && latestData == None && !isLogging && logFilePath == None
      ensures logData == [] && currentLogIndex == 0 && !isPlaying
      ensures lora.connected && rtk.connected
      ensures lora.emitted == [] && rtk.emitted == [] && logger.logData == []
      ensures fresh(manager) && fresh(lora) && fresh(rtk) && fresh(logger)
    {
      var m, l, r := MountServices();
      manager := m;
      lora := l;
      rtk := r;
      logger := m.logger;
      latestData := None;
      isLiveMode := true;
      isLogging := false;
      logFilePath := None;
      logData := [];
      currentLogIndex := 0;
      isPlaying := false;
    }

    /** The subscription registered with the coordinator. It captured the
        mode of the first render, which is live, so it forwards every record
        whatever the current mode. */
    method OnManagerUpdate(data: CombinedRecord)
      modifies this`latestData
      ensures latestData == Some(data)
    {
      latestData := Some(data);
    }

    /** One firing of the LoRa stream timer, through the coordinator to this
        provider. Timers exist only in live mode, so no live record reaches
        the display during playback. */
    method LoRaStreamTick(sample: RocketTelemetry)
      requires Valid() && lora.intervalId.Some?
      modifies this`latestData, lora`latestData, lora`emitted, manager`latestLora, logger
      ensures Valid() && isLiveMode
      ensures lora.emitted == old(lora.emitted) + [sample]
      ensures manager.latestLora == Some(sample) && manager.latestRtk == old(manager.latestRtk)
      ensures latestData == CombineLatest(Some(sample), manager.latestRtk)
      ensures logger.logData == Captured(old(logger.logData), isLogging, latestData.value)
      ensures logger.isCurrentlyLogging == old(logger.isCurrentlyLogging)
      ensures logger.logFilePath == old(logger.logFilePath)
    {
      var calls := lora.Tick(sample);
      FanoutCallsEachOnceInOrder(lora.dataListeners, sample);
      assert calls == [Call(LoRaHandler, sample)];
      var effects := manager.OnLoRaData(calls[0].data);
      var rec := CombineLatest(Some(sample), manager.latestRtk).value;
      PublishOrder(rec, logger.isCurrentlyLogging, manager.dataUpdateCallbacks);
      var delivered := effects[|effects| - 1].call;
      assert delivered == Call(ProviderSubscriber, rec);
      OnManagerUpdate(delivered.data);
    }

    /** One firing of the RTK stream timer, through the coordinator to this
        provider. */
    method RtkStreamTick(sample: RtkData)
      requires Valid() && rtk.intervalId.Some?
      modifies this`latestData, rtk`latestData, rtk`emitted, manager`latestRtk, logger
      ensures Valid() && isLiveMode
      ensures rtk.emitted == old(rtk.emitted) + [sample]
      ensures manager.latestRtk == Some(sample) && manager.latestLora == old(manager.latestLora)
      ensures latestData == CombineLatest(manager.latestLora, Some(sample))
      ensures logger.logData == Captured(old(logger.logData), isLogging, latestData.value)
      ensures logger.isCurrentlyLogging == old(logger.isCurrentlyLogging)
      ensures logger.logFilePath == old(logger.logFilePath)
    {
      var calls := rtk.Tick(sample);
      FanoutCallsEachOnceInOrder(rtk.dataListeners, sample);
      assert calls == [Call(RtkHandler, sample)];
      var effects := manager.OnRtkData(calls[0].data);
      var rec := CombineLatest(manager.latestLora, Some(sample)).value;
      PublishOrder(rec, logger.isCurrentlyLogging, manager.dataUpdateCallbacks);
      var delivered := effects[|effects| - 1].call;
      assert delivered == Call(ProviderSubscriber, rec);
      OnManagerUpdate(delivered.data);
    }

    /** Switching mode starts (live) or stops (playback) the adapters'
        streams; entering playback publishes the record under the cursor
        when there is one, and otherwise keeps the last live record. The
        playing flag is left alone: leaving playback only stops the ticks.
        Setting the current mode again changes nothing. */
    method SetLiveMode(live: bool)
      requires Valid()
      modifies this`isLiveMode, this`latestData, lora, rtk
      ensures Valid()
      ensures isLiveMode == live && isPlaying == old(isPlaying)
      ensures live ==> lora.intervalId.Some? && rtk.intervalId.Some?
      ensures !live ==> lora.intervalId == None && rtk.intervalId == None
      ensures lora.connected == old(lora.connected) && rtk.connected == old(rtk.connected)
      ensures lora.Feed() == old(lora.Feed()) && rtk.Feed() == old(rtk.Feed())
      ensures !live && old(isLiveMode) && currentLogIndex < |logData| ==>
                latestData == Some(logData[currentLogIndex])
      ensures !(!live && old(isLiveMode) && currentLogIndex < |logData|) ==>
                latestData == old(latestData)
    {
      if live == isLiveMode {
        return;
      }
      isLiveMode := live;
      if live {
        manager.StartDataStreams();
      } else {
        manager.StopDataStreams();
      }
      if !isLiveMode && |logData| > 0 && currentLogIndex < |logData| {
        latestData := Some(logData[currentLogIndex]);
      }
    }

    /** Replaces the log with what the coordinator loads for `filePath`. A
        non-empty log rewinds the cursor and publishes its first record; an
        empty one leaves the cursor and the published record as they were. */
    method LoadLogFile(filePath: string)
      requires Valid()
      modifies this`logData, this`logFilePath, this`currentLogIndex, this`latestData
      ensures Valid()
      ensures logData == logger.LoadLogFile(filePath) && logFilePath == Some(filePath)
      ensures |logData| > 0 ==> currentLogIndex == 0 && latestData == Some(logData[0])
      ensures |logData| == 0 ==>
                currentLogIndex == old(currentLogIndex) && latestData == old(latestData)
    {
      var loaded := manager.LoadLogFile(filePath);
      logData := loaded;
      logFilePath := Some(filePath);
      if |loaded| > 0 {
        currentLogIndex := 0;
        latestData := Some(loaded[0]);
      }
      if !isLiveMode && |logData| > 0 && currentLogIndex < |logData| {
        latestData := Some(logData[currentLogIndex]);
      }
    }

    /** Only playback mode with a non-empty log can start playing. */
    method PlayLog()
      requires Valid()
      modifies this`isPlaying
      ensures Valid()
      ensures isPlaying == (old(isPlaying) || (!isLiveMode && |logData| > 0))
      ensures !isLiveMode && |logData| > 0 ==> PlaybackTimerRunning()
    {
      if !isLiveMode && |logData| > 0 {
        isPlaying := true;
      }
    }

    /** Always stops playing; the cursor stays where it is. */
    method PauseLog()
      requires Valid()
      modifies this`isPlaying
      ensures Valid()
      ensures !isPlaying && !PlaybackTimerRunning()
    {
      isPlaying := false;
    }

    /** Seeking: the index is taken as given (no clamping); the record is
        published only in playback mode and only when the index is inside
        the log. */
    method SetCurrentLogIndex(index: nat)
      requires Valid()
      modifies this`currentLogIndex, this`latestData
      ensures Valid()
      ensures currentLogIndex == index
      ensures !isLiveMode && index < |logData| ==> latestData == Some(logData[index])
      ensures !(!isLiveMode && index < |logData|) ==> latestData == old(latestData)
    {
      currentLogIndex := index;
      if !isLiveMode && |logData| > 0 && currentLogIndex < |logData| {
        latestData := Some(logData[currentLogIndex]);
      }
    }

    /** One firing of the playback timer. It advances and publishes while
        a next record exists; on the tick after the last record it only
        clears the playing flag, keeping the cursor. */
    method PlaybackTick()
      requires Valid() && PlaybackTimerRunning()
      modifies this`currentLogIndex, this`latestData, this`isPlaying
      ensures Valid()
      ensures old(currentLogIndex) + 1 < |logData| ==>
                currentLogIndex == old(currentLogIndex) + 1
                && latestData == Some(logData[currentLogIndex]) && isPlaying
      ensures old(currentLogIndex) + 1 >= |logData| ==>
                currentLogIndex == old(currentLogIndex) && !isPlaying
                && latestData == old(latestData)
      ensures old(currentLogIndex) < |logData| ==> currentLogIndex < |logData|
    {
      var nextIndex := currentLogIndex + 1;
      if nextIndex >= |logData| {
        isPlaying := false;
        return;
      }
      latestData := Some(logData[nextIndex]);
      currentLogIndex := nextIndex;
    }

    /** Playing from the cursor to the end: every later record is published
        once, in log order, and the playback stops on the tick after the
        last one, so it takes one tick more than there are records left. */
    method PlayToEnd() returns (published: seq<CombinedRecord>, ticks: nat)
      requires Valid() && PlaybackTimerRunning() && currentLogIndex < |logData|
      modifies this`currentLogIndex, this`latestData, this`isPlaying
      ensures Valid() && !isPlaying
      ensures currentLogIndex == |logData| - 1 && latestData == Some(logData[|logData| - 1])
      ensures published == logData[old(currentLogIndex) + 1..]
      ensures ticks == |logData| - old(currentLogIndex)
    {
      published := [];
      ticks := 0;
      while isPlaying
        invariant Valid() && !isLiveMode && |logData| > 0
        invariant old(currentLogIndex) <= currentLogIndex < |logData|
        invariant published == logData[old(currentLogIndex) + 1..currentLogIndex + 1]
        invariant isPlaying ==> ticks == currentLogIndex - old(currentLogIndex)
        invariant !isPlaying ==>
                    ticks == currentLogIndex - old(currentLogIndex) + 1
                    && currentLogIndex == |logData| - 1
        decreases 2 * (|logData| - currentLogIndex) + (if isPlaying then 1 else 0)
      {
        var before := currentLogIndex;
        PlaybackTick();
        if currentLogIndex != before {
          assert logData[old(currentLogIndex) + 1..currentLogIndex + 1]
              == logData[old(currentLogIndex) + 1..before + 1] + [logData[currentLogIndex]];
          published := published + [latestData.value];
        }
        ticks := ticks + 1;
      }
    }

    /** Arms the recording store and shows the logging state; the displayed
        path is the current combined record's timestamp as text, or none
        when there is no combined record yet. */
    method StartLogging(freshPath: string)
      requires Valid()
      modifies this`isLogging, this`logFilePath, logger
      ensures Valid()
      ensures isLogging && logger.isCurrentlyLogging
      ensures old(logger.isCurrentlyLogging) ==>
                logger.logData == old(logger.logData) && logger.logFilePath == old(logger.logFilePath)
      ensures !old(logger.isCurrentlyLogging) ==>
                logger.logData == [] && logger.logFilePath == Some(freshPath)
      ensures manager.GetLatestCombinedData().None? ==> logFilePath == None
      ensures manager.GetLatestCombinedData().Some? ==>
                logFilePath == Some(DecimalText(manager.GetLatestCombinedData().value.timestamp))
    {
      manager.StartLogging(freshPath);
      isLogging := true;
      var combined := manager.GetLatestCombinedData();
      logFilePath := if combined.Some? then Some(DecimalText(combined.value.timestamp)) else None;
    }

    /** Disarms the recording store; what it captured is kept. */
    method StopLogging()
      requires Valid()
      modifies this`isLogging, logger
      ensures Valid()
      ensures !isLogging && !logger.isCurrentlyLogging
      ensures logger.logData == old(logger.logData) && logger.logFilePath == old(logger.logFilePath)
    {
      manager.StopLogging();
      isLogging := false;
    }
  }

  /** The recording half of a session: start logging under `path`, let
      one LoRa and then one RTK sample arrive, stop logging. The store holds
      the two fused records, stamped, in arrival order. */
  method RecordTwoSamples(p: TelemetryProvider, sample: RocketTelemetry, fix: RtkData, path: string)
    requires p.Valid() && p.isLiveMode && !p.isLogging && p.manager.latestRtk.None?
    modifies p, p.manager, p.lora, p.rtk, p.logger
    ensures p.Valid() && p.isLiveMode && !p.isLogging
    ensures var rec1 := CombineLatest(Some(sample), None).value;
            var rec2 := CombineLatest(Some(sample), Some(fix)).value;
            p.logger.logData == [LogEntry(rec1.timestamp, rec1), LogEntry(rec2.timestamp, rec2)]
    ensures p.logger.logFilePath == Some(path)
  {
    p.StartLogging(path);
    p.LoRaStreamTick(sample);
    p.RtkStreamTick(fix);
    p.StopLogging();
  }

  /** Switching to playback and reloading a recording by its path: the
      reloaded log is the recording, rewound, with its first record shown. */
  method OpenForPlayback(p: TelemetryProvider, path: string)
    returns (log: seq<CombinedRecord>, shownOnLoad: Option<CombinedRecord>)
    requires p.Valid() && |p.logger.LoadLogFile(path)| > 0
    modifies p, p.lora, p.rtk
    ensures p.Valid() && !p.isLiveMode
    ensures log == p.logger.LoadLogFile(path) && p.logData == log && p.currentLogIndex == 0
    ensures shownOnLoad == Some(log[0]) && p.latestData == shownOnLoad
  {
    ghost var recorded := p.logger.LoadLogFile(path);
    p.SetLiveMode(false);
    assert p.logger.LoadLogFile(path) == recorded;
    p.LoadLogFile(path);
    log := p.logData;
    shownOnLoad := p.latestData;
  }

  /** The playback half of a session: switch to playback, reload the
      recording by its path and play it to the end. The first record is
      shown on loading and every later one is published once, in order. */
  method ReplayRecording(p: TelemetryProvider, path: string)
    returns (log: seq<CombinedRecord>, shownOnLoad: Option<CombinedRecord>,
             published: seq<CombinedRecord>, ticks: nat)
    requires p.Valid() && |p.logger.LoadLogFile(path)| > 0
    modifies p, p.lora, p.rtk
    ensures log == p.logger.LoadLogFile(path)
    ensures shownOnLoad == Some(log[0]) && published == log[1..] && ticks == |log|
  {
    log, shownOnLoad := OpenForPlayback(p, path);
    p.PlayLog();
    assert p.logData == log && p.currentLogIndex == 0 && p.PlaybackTimerRunning();
    published, ticks := p.PlayToEnd();
    assert p.logData == log;
  }

  /** The recording workflow on a freshly mounted provider: start logging
      under `path`, let one LoRa and then one RTK sample arrive, stop
      logging, switch to playback, reload the recording by its path and play
      it to the end. Both fused records come back in arrival order; the
      first is shown on loading and the second is the one playback
      publishes, after one tick more than the records left. */
  method RecordAndReplay(sample: RocketTelemetry, fix: RtkData, path: string)
    returns (log: seq<CombinedRecord>, shownOnLoad: Option<CombinedRecord>,
             published: seq<CombinedRecord>, ticks: nat)
    ensures log == [CombineLatest(Some(sample), None).value, CombineLatest(Some(sample), Some(fix)).value]
    ensures shownOnLoad == Some(log[0])
    ensures published == [log[1]] && ticks == 2
  {
    var p := new TelemetryProvider();
    RecordTwoSamples(p, sample, fix, path);
    assert |p.logger.LoadLogFile(path)| == 2;
    log, shownOnLoad, published, ticks := ReplayRecording(p, path);
  }
}
