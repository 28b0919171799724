/** The mock source adapters: MockLoRaService and MockRtkService share one
    lifecycle (connect flag, at most one stream timer, a latest-sample slot
    and an append-only listener list), so one class, generic in the sample
    type, models both. */
module SourceAdapter {
  import opened Telemetry

  /** A mock adapter emits one sample per second. */
  const SamplePeriodMs: nat := 1000

  /** The periodic timer a running stream holds. */
  datatype StreamTimer = Interval(periodMs: nat)

  class Adapter<S> {
    var connected: bool
    var dataListeners: seq<ListenerId>
    var intervalId: Option<StreamTimer>
    var latestData: Option<S>
    /** Every sample the stream has emitted so far, oldest first. */
    ghost var emitted: seq<S>

    /** The latest-sample slot is empty before the first tick and holds the
        last emitted sample afterwards. */
    ghost predicate Valid()
      reads this
    {
      latestData == if emitted == [] then None else Some(emitted[|emitted| - 1])
    }

    /** The part of the state that connecting and streaming leave alone. */
    ghost function Feed(): (seq<ListenerId>, Option<S>, seq<S>)
      reads this
    {
      (dataListeners, latestData, emitted)
    }

    constructor ()
      ensures Valid()
      ensures !connected && dataListeners == [] && intervalId == None
      ensures latestData == None && emitted == []
    {
      connected := false;
      dataListeners := [];
      intervalId := None;
      latestData := None;
      emitted := [];
    }

    /** Connecting cannot fail in the mock; the port is only reported. */
    method Connect(port: string) returns (ok: bool)
      modifies this`connected
      ensures connected && ok
    {
      connected := true;
      ok := true;
    }

    /** Disconnecting stops the stream first, then clears the flag. */
    method Disconnect() returns (ok: bool)
      modifies this`connected, this`intervalId
      ensures !connected && intervalId == None && ok
    {
      StopDataStream();
      connected := false;
      ok := true;
    }

    function GetLatestData(): (r: Option<S>)
      requires Valid()
      reads this
      ensures r.None? <==> emitted == []
      ensures r.Some? ==> r.value == emitted[|emitted| - 1]
    {
      latestData
    }

    /** Starts the sampling timer unless one is already running; the
        connection flag is not consulted. */
    method StartDataStream()
      modifies this`intervalId
      ensures old(intervalId).Some? ==> intervalId == old(intervalId)
      ensures old(intervalId).None? ==> intervalId == Some(Interval(SamplePeriodMs))
      ensures connected == old(connected)
    {
      if intervalId.Some? {
        return;
      }
      intervalId := Some(Interval(SamplePeriodMs));
    }

    /** Cancels the timer if there is one; calling it again changes nothing. */
    method StopDataStream()
      modifies this`intervalId
      ensures intervalId == None
    {
      if intervalId.Some? {
        intervalId := None;
      }
    }

    method OnDataReceived(listener: ListenerId)
      modifies this`dataListeners
      ensures dataListeners == old(dataListeners) + [listener]
    {
      dataListeners := dataListeners + [listener];
    }

    /** One firing of the stream timer: the sample (generated by the mock from
        the clock and a random source) is stored in the slot, then every
        listener is called with it. A timer fires only while it exists. */
    method Tick(sample: S) returns (calls: seq<Call<S>>)
      requires Valid() && intervalId.Some?
      modifies this`latestData, this`emitted
      ensures Valid()
      ensures emitted == old(emitted) + [sample] && latestData == Some(sample)
      ensures calls == Fanout(dataListeners, sample)
    {
      latestData := Some(sample);
      emitted := emitted + [sample];
      calls := NotifyListeners(sample);
    }

    /** Walks the listener list once, in registration order. */
    method NotifyListeners(data: S) returns (calls: seq<Call<S>>)
      ensures |calls| == |dataListeners|
      ensures forall i :: 0 <= i < |calls| ==> calls[i] == Call(dataListeners[i], data)
      ensures calls == Fanout(dataListeners, data)
    {
      calls := [];
      var i := 0;
      while i < |dataListeners|
        invariant 0 <= i <= |dataListeners|
        invariant calls == Fanout(dataListeners[..i], data)
      {
        assert dataListeners[..i + 1][..i] == dataListeners[..i];
        calls := calls + [Call(dataListeners[i], data)];
        i := i + 1;
      }
      assert dataListeners[..i] == dataListeners;
      FanoutCallsEachOnceInOrder(dataListeners, data);
    }
  }

  /** The mock LoRa counter `Math.floor(now / 1000) % 10000`: floor division
      (Dafny's `/` by a positive divisor), then JavaScript's `%`, whose result
      takes the sign of the dividend. */
  function EulerCounter(now: int): (c: int)
    ensures now >= 0 ==> 0 <= c <= 9999
    ensures now < 0 ==> -9999 <= c <= 0
    ensures -9999 <= c <= 9999
    ensures (c - now / 1000) % 10000 == 0
  {
    var seconds := now / 1000;
    if seconds >= 0 then seconds % 10000 else -((-seconds) % 10000)
  }

  /** One sampling period later the counter has advanced by one, wrapping
      from 9999 back to 0. */
  lemma EulerCounterAdvancesPerPeriod(now: int)
    requires now >= 0
    ensures EulerCounter(now + SamplePeriodMs) == (EulerCounter(now) + 1) % 10000
  {
    assert (now + 1000) / 1000 == now / 1000 + 1;
  }
}
