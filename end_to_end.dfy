/**
 * How the dashboard (assets/app.js) reads what the Python side
 * (python/main.py) sends: the `distance`, `valid` and (absent) `ldr_value`
 * fields of a `distance_update` message, as the client sees them.
 */
module EndToEnd {
  import opened Wrappers
  import Backend
  import Dashboard

  /** The JSON payload a message becomes: the server never includes `ldr_value`. */
  function AsPayload(m: Backend.Message): (p: Dashboard.Payload)
    ensures p.valid == Some(m.valid) && p.distance == Some(m.distance) && p.ldrValue == None
  {
    Dashboard.Payload(Some(m.valid), Some(m.distance), None)
  }

  /** The client accepts a well-formed server message exactly when the server marked it valid. */
  lemma ClientAgreesWithServer(m: Backend.Message)
    requires Backend.WellFormed(m)
    ensures Dashboard.IsValidReading(AsPayload(m)) <==> m.valid
  {
  }

  /** The failure message is always rejected by the client. */
  lemma FailureMessageRejected(stamp: string)
    ensures !Dashboard.IsValidReading(AsPayload(Backend.FailureMessage(stamp)))
  {
  }

  /**
   * Whatever the sensor returns, a built message is accepted by the client
   * exactly when the distance in millimetres and the echo duration are both
   * positive, and then the page shows distance_mm / 10.
   */
  lemma ClientShowsBuiltMessage(s: Dashboard.Session, sample: Option<Backend.Sample>, stamp: string, now: int)
    ensures var m := Backend.BuildMessage(sample, stamp);
            var r := Dashboard.OnDistanceUpdate(s, Some(AsPayload(m)), now);
            && (Dashboard.IsValidReading(AsPayload(m)) <==> sample.Some? && sample.value.distanceMm > 0.0 && sample.value.duration > 0)
            && (Dashboard.IsValidReading(AsPayload(m)) ==> r.view.distance == Dashboard.Shows(sample.value.distanceMm / 10.0))
  {
    ClientAgreesWithServer(Backend.BuildMessage(sample, stamp));
  }

  /** No server message ever fills the light-level element: it always shows "--" marked invalid. */
  lemma ServerMessagesNeverShowLight(s: Dashboard.Session, m: Backend.Message, now: int)
    ensures Dashboard.OnDistanceUpdate(s, Some(AsPayload(m)), now).view.ldr == Dashboard.LdrPlaceholder
    ensures Dashboard.OnDistanceUpdate(s, Some(AsPayload(m)), now).view.ldrInvalid
  {
  }

  /** The `distance_update` events the page receives for the messages, at the given arrival times. */
  function Deliver(msgs: seq<Backend.Message>, arrivals: seq<int>): (events: seq<Dashboard.Event>)
    requires |arrivals| == |msgs|
    ensures |events| == |msgs|
    ensures forall k :: 0 <= k < |msgs| ==>
              events[k] == Dashboard.DistanceUpdateEvent(Some(AsPayload(msgs[k])), arrivals[k])
    // the page counts a delivered message as a valid reading exactly when the server marked it valid
    ensures forall k :: 0 <= k < |msgs| && Backend.WellFormed(msgs[k]) ==>
              (Dashboard.IsValidUpdate(events[k]) <==> msgs[k].valid)
  {
    seq(|msgs|, k requires 0 <= k < |msgs| => Dashboard.DistanceUpdateEvent(Some(AsPayload(msgs[k])), arrivals[k]))
  }

  /**
   * After a stream of server messages, the page's sticky distance is the
   * distance of the last message the server marked valid.
   */
  lemma ClientKeepsLastValidMessage(s: Dashboard.Session, msgs: seq<Backend.Message>, arrivals: seq<int>, i: nat)
    requires |arrivals| == |msgs|
    requires forall k :: 0 <= k < |msgs| ==> Backend.WellFormed(msgs[k])
    requires i < |msgs| && msgs[i].valid
    requires forall j :: i < j < |msgs| ==> !msgs[j].valid
    ensures Dashboard.Run(s, Deliver(msgs, arrivals)).lastValidDistance == Some(msgs[i].distance)
  {
    Dashboard.RunLastValidReading(s, Deliver(msgs, arrivals), i);
  }
}
