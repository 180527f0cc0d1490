/**
 * The Python side (python/main.py): reading the sensor over the bridge,
 * building `distance_update` messages, and the send throttle on the global
 * `last_update_time`.
 *
 * The bridge calls, the clock (`time.time()`) and the ISO timestamp are
 * inputs; `ui.send_message("distance_update", …)` appends to `sent`.
 */
module Backend {
  import opened Wrappers

  /** `UPDATE_INTERVAL`, in seconds. */
  const UpdateInterval: real := 0.1

  /**
   * What one `Bridge.call(…)` produces: a finite number, `None`, an exception
   * (a timeout or any other), or a value that is not `None` but that `int(…)`
   * or `float(…)` rejects (NaN or an infinity for `int`, a non-numeric string).
   */
  datatype BridgeReply = Returned(value: real) | ReturnedNone | Raised | Unconvertible

  /** The dictionary `get_sensor_data` returns. */
  datatype Sample = Sample(duration: int, distanceMm: real)

  /** A `distance_update` message. */
  datatype Message = Message(
    distance: real,     // cm
    duration: int,      // echo time, µs
    distanceMm: real,
    timestamp: string,
    unit: string,
    valid: bool)

  /** Python's `int(x)` on a float: truncation toward zero. */
  function Truncate(x: real): (n: int)
    ensures 0.0 <= x ==> n as real <= x < n as real + 1.0
    ensures x < 0.0 ==> n as real - 1.0 < x <= n as real
  {
    if x >= 0.0 then x.Floor else -((-x).Floor)
  }

  /**
   * `get_sensor_data()`, given what the two bridge calls produce; `int(…)`
   * and `float(…)` are applied to them inside the `try`, so a reply they
   * reject ends in the `except Exception` branch.
   */
  function GetSensorData(duration: BridgeReply, distanceMm: BridgeReply): (r: Option<Sample>)
    ensures r.Some? <==> duration.Returned? && distanceMm.Returned?
    ensures r.Some? ==> r.value.distanceMm == distanceMm.value && r.value.duration == Truncate(duration.value)
  {
    if duration.Raised? then None                 // the second call is never made
    else if distanceMm.Raised? then None
    else if duration.ReturnedNone? || distanceMm.ReturnedNone? then None
    else if duration.Unconvertible? || distanceMm.Unconvertible? then None   // int()/float() raise
    else Some(Sample(Truncate(duration.value), distanceMm.value))
  }

  /** The message sent when the sensor could not be read. */
  function FailureMessage(stamp: string): (m: Message)
    ensures m.distance == -1.0 && m.duration == -1 && m.distanceMm == -1.0 && !m.valid
  {
    Message(-1.0, -1, -1.0, stamp, "cm", false)
  }

  /** What every message built here satisfies. */
  predicate WellFormed(m: Message)
  {
    && m.unit == "cm"
    && (m.valid <==> m.distance > 0.0 && m.duration > 0)
  }

  /** The message `send_distance_update` and `on_client_connected` build from one sensor result. */
  function BuildMessage(sample: Option<Sample>, stamp: string): (m: Message)
    ensures WellFormed(m) && m.timestamp == stamp
    ensures sample.None? ==> m == FailureMessage(stamp)
    ensures sample.Some? ==>
              && m.distance == sample.value.distanceMm / 10.0
              && m.distanceMm == sample.value.distanceMm
              && m.duration == sample.value.duration
              && (m.valid <==> sample.value.distanceMm > 0.0 && sample.value.duration > 0)
  {
    match sample
    case None => FailureMessage(stamp)
    case Some(data) =>
      var distanceCm := data.distanceMm / 10.0;
      Message(distanceCm, data.duration, data.distanceMm, stamp, "cm", distanceCm > 0.0 && data.duration > 0)
  }

  /** The module-level state: `last_update_time` and the messages sent so far. */
  datatype ServerState = ServerState(lastUpdateTime: real, sent: seq<Message>)

  /** `send_distance_update()` at time `now`. */
  function SendStep(st: ServerState, now: real, duration: BridgeReply, distanceMm: BridgeReply, stamp: string)
    : (r: ServerState)
    // throttled: nothing is read, nothing is sent, nothing changes
    ensures now - st.lastUpdateTime < UpdateInterval ==> r == st
    // otherwise exactly one message goes out, failed read or not
    ensures now - st.lastUpdateTime >= UpdateInterval ==>
              && r.lastUpdateTime == now
              && |r.sent| == |st.sent| + 1 && r.sent[..|st.sent|] == st.sent
              && r.sent[|st.sent|] == BuildMessage(GetSensorData(duration, distanceMm), stamp)
  {
    if now - st.lastUpdateTime >= UpdateInterval then
      var message := BuildMessage(GetSensorData(duration, distanceMm), stamp);
      ServerState(now, st.sent + [message])
    else
      st
  }

  /** `on_client_connected(client_id, data)`: always one message, never throttled. */
  function ClientConnectedStep(st: ServerState, duration: BridgeReply, distanceMm: BridgeReply, stamp: string)
    : (r: ServerState)
    ensures r.lastUpdateTime == st.lastUpdateTime
    ensures |r.sent| == |st.sent| + 1 && r.sent[..|st.sent|] == st.sent
    ensures r.sent[|st.sent|] == BuildMessage(GetSensorData(duration, distanceMm), stamp)
  {
    st.(sent := st.sent + [BuildMessage(GetSensorData(duration, distanceMm), stamp)])
  }

  // ---------------------------------------------------------------------
  // The rate limit over many calls

  /** One call of `send_distance_update` from the main loop, with what it would observe. */
  datatype Tick = Tick(now: real, duration: BridgeReply, distanceMm: BridgeReply, stamp: string)

  /** The state after the calls, in order. */
  function Loop(st: ServerState, ticks: seq<Tick>): ServerState
    decreases ticks
  {
    if ticks == [] then st
    else Loop(SendStep(st, ticks[0].now, ticks[0].duration, ticks[0].distanceMm, ticks[0].stamp), ticks[1..])
  }

  /** The times at which the calls got past the throttle. */
  function SendTimes(last: real, ticks: seq<Tick>): seq<real>
    decreases ticks
  {
    if ticks == [] then []
    else if ticks[0].now - last >= UpdateInterval then [ticks[0].now] + SendTimes(ticks[0].now, ticks[1..])
    else SendTimes(last, ticks[1..])
  }

  /**
   * Over any run of the main loop there is one message per send time, and
   * send times are at least UPDATE_INTERVAL apart (whatever the clock does).
   */
  lemma {:induction false} SendTimesSpaced(last: real, ticks: seq<Tick>)
    decreases ticks
    ensures var times := SendTimes(last, ticks);
            && (|times| > 0 ==> times[0] - last >= UpdateInterval)
            && forall i :: 0 < i < |times| ==> times[i] - times[i - 1] >= UpdateInterval
  {
    if ticks != [] {
      if ticks[0].now - last >= UpdateInterval {
        SendTimesSpaced(ticks[0].now, ticks[1..]);
      } else {
        SendTimesSpaced(last, ticks[1..]);
      }
    }
  }

  /**
   * The main loop sends one message per send time, keeps what was sent
   * before, and `last_update_time` ends as the latest send time.
   */
  lemma {:induction false} LoopSendsAtSendTimes(st: ServerState, ticks: seq<Tick>)
    decreases ticks
    ensures var times := SendTimes(st.lastUpdateTime, ticks);
            var r := Loop(st, ticks);
            && |r.sent| == |st.sent| + |times|
            && r.sent[..|st.sent|] == st.sent
            && r.lastUpdateTime == (if times == [] then st.lastUpdateTime else times[|times| - 1])
  {
    if ticks != [] {
      var t := ticks[0];
      var next := SendStep(st, t.now, t.duration, t.distanceMm, t.stamp);
      LoopSendsAtSendTimes(next, ticks[1..]);
    }
  }

  class Server {
    var lastUpdateTime: real
    var sent: seq<Message>

    function State(): ServerState
      reads this
    {
      ServerState(lastUpdateTime, sent)
    }

    ghost predicate Valid()
      reads this
    {
      forall i :: 0 <= i < |sent| ==> WellFormed(sent[i])
    }

    /** Module load: `last_update_time = 0.0`, nothing sent yet. */
    constructor ()
      ensures Valid()
      ensures State() == ServerState(0.0, [])
    {
      lastUpdateTime := 0.0;
      sent := [];
    }

    /** `send_distance_update()` with `time.time()` returning `now`. */
    method SendDistanceUpdate(now: real, duration: BridgeReply, distanceMm: BridgeReply, stamp: string)
      requires Valid()
      modifies this
      ensures Valid()
      ensures State() == SendStep(old(State()), now, duration, distanceMm, stamp)
    {
      var currentTime := now;
      if currentTime - lastUpdateTime >= UpdateInterval {
        var sensorData := GetSensorData(duration, distanceMm);
        var message := BuildMessage(sensorData, stamp);
        sent := sent + [message];
        lastUpdateTime := currentTime;
      }
    }

    method OnClientConnected(duration: BridgeReply, distanceMm: BridgeReply, stamp: string)
      requires Valid()
      modifies this
      ensures Valid()
      ensures State() == ClientConnectedStep(old(State()), duration, distanceMm, stamp)
    {
      var sensorData := GetSensorData(duration, distanceMm);
      var message := BuildMessage(sensorData, stamp);
      sent := sent + [message];
    }
  }
}
