/** The fusion coordinator (TelemetryManagerService): two overwrite-only
    sample slots, a combined record recomputed on every incoming sample,
    capture into the recording store while it is armed, and publication to
    the subscribers in registration order. */
module Fusion {
  import opened Telemetry
  import opened SourceAdapter
  import opened Recording

  /** The identities of the two sample handlers the coordinator registers
      on its adapters. */
  const LoRaHandler: ListenerId := 0
  const RtkHandler: ListenerId := 1

  /** The combined record for the two slots: none when both are empty;
      otherwise it carries the held samples unchanged and is stamped with
      the larger of their timestamps, an empty slot counting as 0. */
  function CombineLatest(lora: Option<RocketTelemetry>, rtk: Option<RtkData>): (r: Option<CombinedRecord>)
    ensures r.None? <==> lora.None? && rtk.None?
    ensures r.Some? ==> r.value.lora == lora && r.value.rtk == rtk
    ensures r.Some? && (lora.None? || rtk.None?) ==> r.value.timestamp >= 0
    ensures r.Some? && lora.Some? ==> r.value.timestamp >= lora.value.timestamp
    ensures r.Some? && rtk.Some? ==> r.value.timestamp >= rtk.value.timestamp
    ensures r.Some? ==> r.value.timestamp == 0
                        || (lora.Some? && r.value.timestamp == lora.value.timestamp)
                        || (rtk.Some? && r.value.timestamp == rtk.value.timestamp)
    ensures r.Some? && lora.Some? && rtk.Some? ==>
              r.value.timestamp == lora.value.timestamp || r.value.timestamp == rtk.value.timestamp
  {
    if lora.None? && rtk.None? then None
    else
      var loraTs := if lora.Some? then lora.value.timestamp else 0;
      var rtkTs := if rtk.Some? then rtk.value.timestamp else 0;
      Some(CombinedRecord(if loraTs >= rtkTs then loraTs else rtkTs, lora, rtk))
  }

  /** With non-negative clocks the stamp is the newest held timestamp: the
      only one when one slot is empty, the maximum when both are held. */
  lemma CombinedStampIsNewest(lora: Option<RocketTelemetry>, rtk: Option<RtkData>)
    requires lora.Some? ==> lora.value.timestamp >= 0
    requires rtk.Some? ==> rtk.value.timestamp >= 0
    ensures lora.Some? && rtk.None? ==> CombineLatest(lora, rtk).value.timestamp == lora.value.timestamp
    ensures lora.None? && rtk.Some? ==> CombineLatest(lora, rtk).value.timestamp == rtk.value.timestamp
    ensures lora.Some? && rtk.Some? ==>
              CombineLatest(lora, rtk).value.timestamp
              == if lora.value.timestamp >= rtk.value.timestamp then lora.value.timestamp else rtk.value.timestamp
  {
  }

  /** A negative timestamp never wins: the absent slot's 0 is larger. */
  lemma NegativeStampLosesToAbsentSlot(l: RocketTelemetry)
    requires l.timestamp < 0
    ensures CombineLatest(Some(l), None).value.timestamp == 0
  {
  }

  /** What one notification does, in order. */
  datatype Effect = Appended(entry: LogEntry) | Delivered(call: Call<CombinedRecord>)

  function Deliveries(calls: seq<Call<CombinedRecord>>): (effects: seq<Effect>)
  {
    if calls == [] then [] else Deliveries(calls[..|calls| - 1]) + [Delivered(calls[|calls| - 1])]
  }

  /** One publication of `rec`: the capture into the recording when it is
      armed, then every subscriber in registration order. */
  function PublishEffects(rec: CombinedRecord, armed: bool, callbacks: seq<ListenerId>): seq<Effect>
  {
    (if armed then [Appended(LogEntry(rec.timestamp, rec))] else []) + Deliveries(Fanout(callbacks, rec))
  }

  lemma {:induction false} DeliveriesSpec(calls: seq<Call<CombinedRecord>>)
    ensures |Deliveries(calls)| == |calls|
    ensures forall i :: 0 <= i < |calls| ==> Deliveries(calls)[i] == Delivered(calls[i])
  {
    if calls != [] {
      DeliveriesSpec(calls[..|calls| - 1]);
    }
  }

  /** A publication captures the record before any subscriber runs, iff the
      recording is armed, and then calls every subscriber exactly once, in
      registration order, with that same record. */
  lemma PublishOrder(rec: CombinedRecord, armed: bool, callbacks: seq<ListenerId>)
    ensures var e := PublishEffects(rec, armed, callbacks);
      var k := if armed then 1 else 0;
      && |e| == k + |callbacks|
      && (armed ==> e[0] == Appended(LogEntry(rec.timestamp, rec)))
      && (forall i :: k <= i < |e| ==> e[i] == Delivered(Call(callbacks[i - k], rec)))
  {
    FanoutCallsEachOnceInOrder(callbacks, rec);
    DeliveriesSpec(Fanout(callbacks, rec));
  }

  /** The recording after `rec` was offered to it. */
  function Captured(log: seq<LogEntry>, armed: bool, rec: CombinedRecord): seq<LogEntry>
  {
    if armed then log + [LogEntry(rec.timestamp, rec)] else log
  }

  class TelemetryManagerService {
    var lora: Adapter?<RocketTelemetry>
    var rtk: Adapter?<RtkData>
    var logger: FileLoggingService?
    var latestLora: Option<RocketTelemetry>
    var latestRtk: Option<RtkData>
    var dataUpdateCallbacks: seq<ListenerId>

    /** Starts with a fresh, idle recording store and no adapters. */
    constructor ()
      ensures lora == null && rtk == null
      ensures latestLora == None && latestRtk == None && dataUpdateCallbacks == []
      ensures logger != null && fresh(logger)
      ensures !logger.isCurrentlyLogging && logger.logData == [] && logger.logFilePath == None
    {
      lora := null;
      rtk := null;
      latestLora := None;
      latestRtk := None;
      dataUpdateCallbacks := [];
      logger := new FileLoggingService();
    }

    /** Adopts the adapter and registers the LoRa sample handler on it. */
    method SetLoRaService(service: Adapter<RocketTelemetry>)
      modifies this`lora, service`dataListeners
      ensures lora == service
      ensures service.dataListeners == old(service.dataListeners) + [LoRaHandler]
    {
      lora := service;
      service.OnDataReceived(LoRaHandler);
    }

    method SetRtkService(service: Adapter<RtkData>)
      modifies this`rtk, service`dataListeners
      ensures rtk == service
      ensures service.dataListeners == old(service.dataListeners) + [RtkHandler]
    {
      rtk := service;
      service.OnDataReceived(RtkHandler);
    }

    method SetLoggingService(service: FileLoggingService)
      modifies this`logger
      ensures logger == service
    {
      logger := service;
    }

    /** Fails, changing nothing, when no adapter is set; otherwise the
        adapter's own answer. */
    method ConnectLoRa(port: string) returns (ok: bool)
      modifies lora
      ensures lora == null ==> !ok
      ensures lora != null ==> ok && lora.connected
      ensures lora != null ==> lora.intervalId == old(lora.intervalId) && lora.Feed() == old(lora.Feed())
    {
      if lora == null {
        return false;
      }
      ok := lora.Connect(port);
    }

    method ConnectRtk(port: string) returns (ok: bool)
      modifies rtk
      ensures rtk == null ==> !ok
      ensures rtk != null ==> ok && rtk.connected
      ensures rtk != null ==> rtk.intervalId == old(rtk.intervalId) && rtk.Feed() == old(rtk.Feed())
    {
      if rtk == null {
        return false;
      }
      ok := rtk.Connect(port);
    }

    method DisconnectLoRa() returns (ok: bool)
      modifies lora
      ensures lora == null ==> !ok
      ensures lora != null ==> ok && !lora.connected && lora.intervalId == None
      ensures lora != null ==> lora.Feed() == old(lora.Feed())
    {
      if lora == null {
        return false;
      }
      ok := lora.Disconnect();
    }

    method DisconnectRtk() returns (ok: bool)
      modifies rtk
      ensures rtk == null ==> !ok
      ensures rtk != null ==> ok && !rtk.connected && rtk.intervalId == None
      ensures rtk != null ==> rtk.Feed() == old(rtk.Feed())
    {
      if rtk == null {
        return false;
      }
      ok := rtk.Disconnect();
    }

    /** Starts whichever adapters are set; a running stream is kept. */
    method StartDataStreams()
      modifies lora, rtk
      ensures lora != null ==> lora.intervalId.Some? && lora.connected == old(lora.connected)
      ensures lora != null && old(lora.intervalId).Some? ==> lora.intervalId == old(lora.intervalId)
      ensures lora != null ==> lora.Feed() == old(lora.Feed())
      ensures rtk != null ==> rtk.intervalId.Some? && rtk.connected == old(rtk.connected)
      ensures rtk != null && old(rtk.intervalId).Some? ==> rtk.intervalId == old(rtk.intervalId)
      ensures rtk != null ==> rtk.Feed() == old(rtk.Feed())
    {
      if lora != null {
        lora.StartDataStream();
      }
      if rtk != null {
        rtk.StartDataStream();
      }
    }

    method StopDataStreams()
      modifies lora, rtk
      ensures lora != null ==> lora.intervalId == None && lora.connected == old(lora.connected)
      ensures lora != null ==> lora.Feed() == old(lora.Feed())
      ensures rtk != null ==> rtk.intervalId == None && rtk.connected == old(rtk.connected)
      ensures rtk != null ==> rtk.Feed() == old(rtk.Feed())
    {
      if lora != null {
        lora.StopDataStream();
      }
      if rtk != null {
        rtk.StopDataStream();
      }
    }

    /** The combined record of the current slots: none before the first
        sample, otherwise both held samples as they are. */
    function GetLatestCombinedData(): (r: Option<CombinedRecord>)
      reads this
      ensures r.None? <==> latestLora.None? && latestRtk.None?
      ensures r.Some? ==> r.value.lora == latestLora && r.value.rtk == latestRtk
    {
      CombineLatest(latestLora, latestRtk)
    }

    method OnDataUpdated(callback: ListenerId)
      modifies this`dataUpdateCallbacks
      ensures dataUpdateCallbacks == old(dataUpdateCallbacks) + [callback]
    {
      dataUpdateCallbacks := dataUpdateCallbacks + [callback];
    }

    /** Delegates to the recording store; without one, does nothing. */
    method StartLogging(freshPath: string)
      modifies logger
      ensures logger != null ==> logger.isCurrentlyLogging
      ensures logger != null && old(logger.isCurrentlyLogging) ==> unchanged(logger)
      ensures logger != null && !old(logger.isCurrentlyLogging) ==>
                logger.logData == [] && logger.logFilePath == Some(freshPath)
    {
      if logger == null {
        return;
      }
      logger.StartLogging(freshPath);
    }

    method StopLogging()
      modifies logger
      ensures logger != null ==> !logger.isCurrentlyLogging
      ensures logger != null ==>
                logger.logData == old(logger.logData) && logger.logFilePath == old(logger.logFilePath)
    {
      if logger == null {
        return;
      }
      logger.StopLogging();
    }

    /** `loggingService?.isLogging() || false`. */
    function IsLogging(): (r: bool)
      reads this, logger
      ensures logger == null ==> !r
      ensures logger != null ==> r == logger.isCurrentlyLogging
    {
      logger != null && logger.isCurrentlyLogging
    }

    /** Without a recording store the loaded log is empty. */
    function LoadLogFile(filePath: string): (r: seq<CombinedRecord>)
      reads this, logger
      ensures logger == null ==> r == []
      ensures logger != null ==> r == logger.LoadLogFile(filePath)
    {
      if logger == null then [] else logger.LoadLogFile(filePath)
    }

    /** The handler registered on the LoRa adapter: overwrite the LoRa slot
        only, then publish. */
    method OnLoRaData(data: RocketTelemetry) returns (effects: seq<Effect>)
      modifies this`latestLora, logger
      ensures latestLora == Some(data)
      ensures var rec := CombineLatest(Some(data), latestRtk).value;
        && (logger != null ==> logger.logData == Captured(old(logger.logData), logger.isCurrentlyLogging, rec))
        && effects == PublishEffects(rec, logger != null && logger.isCurrentlyLogging, dataUpdateCallbacks)
      ensures logger != null ==>
                logger.isCurrentlyLogging == old(logger.isCurrentlyLogging)
                && logger.logFilePath == old(logger.logFilePath)
    {
      latestLora := Some(data);
      effects := NotifyDataUpdated();
    }

    /** The handler registered on the RTK adapter: overwrite the RTK slot
        only, then publish. */
    method OnRtkData(data: RtkData) returns (effects: seq<Effect>)
      modifies this`latestRtk, logger
      ensures latestRtk == Some(data)
      ensures var rec := CombineLatest(latestLora, Some(data)).value;
        && (logger != null ==> logger.logData == Captured(old(logger.logData), logger.isCurrentlyLogging, rec))
        && effects == PublishEffects(rec, logger != null && logger.isCurrentlyLogging, dataUpdateCallbacks)
      ensures logger != null ==>
                logger.isCurrentlyLogging == old(logger.isCurrentlyLogging)
                && logger.logFilePath == old(logger.logFilePath)
    {
      latestRtk := Some(data);
      effects := NotifyDataUpdated();
    }

    /** The subscriber walk of a publication: one delivery of `rec` per
        subscriber, in registration order. */
    method DeliverToSubscribers(rec: CombinedRecord) returns (deliveries: seq<Effect>)
      ensures deliveries == Deliveries(Fanout(dataUpdateCallbacks, rec))
      ensures |deliveries| == |dataUpdateCallbacks|
      ensures forall i :: 0 <= i < |deliveries| ==> deliveries[i] == Delivered(Call(dataUpdateCallbacks[i], rec))
    {
      deliveries := [];
      var i := 0;
      while i < |dataUpdateCallbacks|
        invariant 0 <= i <= |dataUpdateCallbacks|
        invariant deliveries == Deliveries(Fanout(dataUpdateCallbacks[..i], rec))
      {
        ghost var done := Fanout(dataUpdateCallbacks[..i], rec);
        assert dataUpdateCallbacks[..i + 1][..i] == dataUpdateCallbacks[..i];
        assert Fanout(dataUpdateCallbacks[..i + 1], rec) == done + [Call(dataUpdateCallbacks[i], rec)];
        assert (done + [Call(dataUpdateCallbacks[i], rec)])[..|done|] == done;
        deliveries := deliveries + [Delivered(Call(dataUpdateCallbacks[i], rec))];
        i := i + 1;
      }
      assert dataUpdateCallbacks[..i] == dataUpdateCallbacks;
      FanoutCallsEachOnceInOrder(dataUpdateCallbacks, rec);
      DeliveriesSpec(Fanout(dataUpdateCallbacks, rec));
    }

    /** Recomputes the combined record; if there is one, captures it while
        the recording store is armed and then calls every subscriber. */
    method NotifyDataUpdated() returns (effects: seq<Effect>)
      modifies logger
      ensures GetLatestCombinedData().None? ==> effects == []
      ensures GetLatestCombinedData().None? && logger != null ==> logger.logData == old(logger.logData)
      ensures GetLatestCombinedData().Some? ==>
                var rec := GetLatestCombinedData().value;
                && (logger != null ==> logger.logData == Captured(old(logger.logData), logger.isCurrentlyLogging, rec))
                && effects == PublishEffects(rec, logger != null && logger.isCurrentlyLogging, dataUpdateCallbacks)
      ensures logger != null ==>
                logger.isCurrentlyLogging == old(logger.isCurrentlyLogging)
                && logger.logFilePath == old(logger.logFilePath)
    {
      var combined := GetLatestCombinedData();
      if combined.None? {
        return [];
      }
      var rec := combined.value;
      var armed := IsLogging();
      effects := [];
      if armed {
        logger.AddLogEntry(rec);
        effects := [Appended(LogEntry(rec.timestamp, rec))];
      }
      var deliveries := DeliverToSubscribers(rec);
      effects := effects + deliveries;
    }
  }
}
