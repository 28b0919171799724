/** Record shapes shared by every component of the ground station, and the
    calling discipline of its listener lists. */
module Telemetry {

  datatype Option<+T> = None | Some(value: T)

  /** Three scalar components. JavaScript numbers are doubles; they are
      modelled as reals, which have no NaN and no rounding. */
  datatype Vector3 = Vector3(x: real, y: real, z: real)

  /** One sample of the LoRa (attitude) feed. */
  datatype RocketTelemetry = RocketTelemetry(
    timestamp: int,
    eulerCounter: int,
    eulerAngles: Vector3,
    velocity: Vector3,
    gravity: Vector3,
    angularAcceleration: Vector3,
    linearAcceleration: Vector3,
    freeHeapSize: int,
    servoMotorAngle: real)

  /** One sample of the RTK GPS (position) feed. */
  datatype RtkData = RtkData(timestamp: int, position: Vector3, orientation: Vector3)

  /** The fused record: either side may be absent. */
  datatype CombinedRecord = CombinedRecord(
    timestamp: int,
    lora: Option<RocketTelemetry>,
    rtk: Option<RtkData>)

  /** An entry of a recording: the record and its timestamp. */
  datatype LogEntry = LogEntry(timestamp: int, data: CombinedRecord)

  /** A registered callback is known to the model only by its identity. */
  type ListenerId = nat

  /** One invocation of a callback with its argument. */
  datatype Call<D> = Call(listener: ListenerId, data: D)

  /** The invocations a notify loop makes when it walks `listeners` in
      order, handing each the same `data`. */
  function Fanout<D>(listeners: seq<ListenerId>, data: D): seq<Call<D>>
  {
    if listeners == [] then []
    else Fanout(listeners[..|listeners| - 1], data) + [Call(listeners[|listeners| - 1], data)]
  }

  /** A notification reaches every registered listener exactly once, in
      registration order, and every listener gets the same data. */
  lemma {:induction false} FanoutCallsEachOnceInOrder<D>(listeners: seq<ListenerId>, data: D)
    ensures |Fanout(listeners, data)| == |listeners|
    ensures forall i :: 0 <= i < |listeners| ==> Fanout(listeners, data)[i] == Call(listeners[i], data)
  {
    if listeners != [] {
      FanoutCallsEachOnceInOrder(listeners[..|listeners| - 1], data);
    }
  }

  /** A listener registered later is called after all earlier ones: the calls
      for a longer list extend the calls for its prefix. */
  lemma {:induction false} FanoutExtends<D>(listeners: seq<ListenerId>, later: seq<ListenerId>, data: D)
    ensures Fanout(listeners + later, data) == Fanout(listeners, data) + Fanout(later, data)
    decreases |later|
  {
    if later == [] {
      assert listeners + later == listeners;
    } else {
      var front := later[..|later| - 1];
      assert (listeners + later)[..|listeners + later| - 1] == listeners + front;
      FanoutExtends(listeners, front, data);
    }
  }
}
