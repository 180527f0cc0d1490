/**
 * The browser dashboard (assets/app.js): three module-level variables
 * (`isConnected`, `lastUpdateTime`, `lastValidDistance`) and the page
 * elements the socket handlers rewrite.
 *
 * The page elements are an abstract View: a distance is shown as the number
 * it would be formatted from, status texts are an enumeration, and
 * `className`/`classList` edits are the indicator and the two `invalid`
 * flags. Each handler is first a function from Session to Session; the class
 * DisplayController holds the same state in fields and its methods are
 * proved to make exactly those transitions.
 */
module Dashboard {
  import opened Wrappers

  /** Age, in milliseconds, beyond which the staleness callback warns. */
  const StaleAfterMs: int := 2000

  /**
   * A `distance_update` payload: `valid` and `ldr_value` may be absent
   * (`undefined`), and so may `distance`, which `undefined > 0` then rejects.
   */
  datatype Payload = Payload(valid: Option<bool>, distance: Option<real>, ldrValue: Option<int>)

  /** `distanceValueEl.textContent`: a formatted distance, or "--". */
  datatype DistanceText = Placeholder | Shows(cm: real)
  /** `ldrValueEl.textContent`: the raw light reading, or "--". */
  datatype LdrText = LdrPlaceholder | LdrShows(reading: int)
  /** The `active` / `warning` / `error` class of `statusIndicatorEl`. */
  datatype Indicator = Active | Warning | Error
  /** The texts written into `statusTextEl`. */
  datatype StatusText =
    | Connected              // connection established
    | Disconnected           // connection lost
    | Measuring              // a valid reading is shown
    | MeasuringPrevious      // an invalid reading arrived; the previous value is shown
    | OutOfRange             // an invalid reading arrived and there is nothing to fall back on
    | AwaitingUpdatePrevious // stale, previous value shown
    | AwaitingUpdate         // stale, nothing shown
  /** `errorContainer`: hidden, or showing the canned disconnect text, or a server error. */
  datatype ErrorBox = Hidden | ConnectionLost | ServerError(detail: string)

  datatype View = View(
    distance: DistanceText,
    distanceInvalid: bool,   // `invalid` class on the distance element
    indicator: Indicator,
    status: StatusText,
    ldr: LdrText,
    ldrInvalid: bool,        // `invalid` class on the light-level element
    errorBox: ErrorBox)

  datatype Session = Session(
    connected: bool,                  // isConnected
    lastUpdateTime: Option<int>,      // lastUpdateTime, ms since the epoch
    lastValidDistance: Option<real>,  // lastValidDistance, cm
    view: View)

  /** `data.valid !== false && distance > 0` */
  predicate IsValidReading(p: Payload)
  {
    p.valid != Some(false) && p.distance.Some? && p.distance.value > 0.0
  }

  /** `data.ldr_value !== undefined && data.ldr_value >= 0` */
  predicate LdrAccepted(p: Payload)
  {
    p.ldrValue.Some? && p.ldrValue.value >= 0
  }

  /** The distance element shows the sticky value, or "--" marked invalid when there is none. */
  predicate ShowsFallback(v: View, lastValid: Option<real>)
  {
    match lastValid
    case Some(d) => v.distance == Shows(d) && !v.distanceInvalid
    case None => v.distance == Placeholder && v.distanceInvalid
  }

  /** The state every handler keeps: the sticky distance is positive, and it is what the page shows. */
  predicate Consistent(s: Session)
  {
    && (s.lastValidDistance.Some? ==> s.lastValidDistance.value > 0.0)
    && ShowsFallback(s.view, s.lastValidDistance)
  }

  /** `updateConnectionStatus(connected)` */
  function ConnectionStatus(v: View, connected: bool, lastValid: Option<real>): (r: View)
    ensures r.ldr == v.ldr && r.ldrInvalid == v.ldrInvalid && r.errorBox == v.errorBox
    ensures connected ==> r.indicator == Active && r.status == Connected
    ensures connected ==> r.distance == v.distance && r.distanceInvalid == v.distanceInvalid
    ensures !connected ==> r.indicator == Error && r.status == Disconnected && ShowsFallback(r, lastValid)
  {
    if connected then
      v.(indicator := Active, status := Connected)
    else
      var w := v.(indicator := Error, status := Disconnected);
      if lastValid.Some? then w.(distance := Shows(lastValid.value), distanceInvalid := false)
      else w.(distance := Placeholder, distanceInvalid := true)
  }

  /**
   * The page after `DOMContentLoaded`: the three variables at their initial
   * values and `updateConnectionStatus(false)` applied to the markup.
   */
  function PageLoad(markup: View): (s: Session)
    ensures Consistent(s)
    ensures !s.connected && s.lastUpdateTime == None && s.lastValidDistance == None
    ensures s.view.indicator == Error && s.view.distance == Placeholder
  {
    Session(false, None, None, ConnectionStatus(markup, false, None))
  }

  /** The `connect` handler. */
  function OnConnect(s: Session): (r: Session)
    ensures r.connected && r.view.indicator == Active && r.view.status == Connected
    ensures r.view.errorBox == Hidden
    ensures r.view.distance == s.view.distance && r.view.distanceInvalid == s.view.distanceInvalid
    ensures r.view.ldr == s.view.ldr && r.view.ldrInvalid == s.view.ldrInvalid
    ensures r.lastValidDistance == s.lastValidDistance && r.lastUpdateTime == s.lastUpdateTime
  {
    var v := ConnectionStatus(s.view, true, s.lastValidDistance);
    s.(connected := true, view := v.(errorBox := Hidden))
  }

  /** The `connect_error` handler: it leaves the error box alone. */
  function OnConnectError(s: Session): (r: Session)
    ensures !r.connected && r.view.indicator == Error && r.view.status == Disconnected
    ensures ShowsFallback(r.view, s.lastValidDistance)
    ensures r.view.errorBox == s.view.errorBox
    ensures r.view.ldr == s.view.ldr && r.view.ldrInvalid == s.view.ldrInvalid
    ensures r.lastValidDistance == s.lastValidDistance && r.lastUpdateTime == s.lastUpdateTime
  {
    s.(connected := false, view := ConnectionStatus(s.view, false, s.lastValidDistance))
  }

  /** The `disconnect` handler: as `connect_error`, and the error box shows the disconnect notice. */
  function OnDisconnect(s: Session): (r: Session)
    ensures !r.connected && r.view.indicator == Error && r.view.status == Disconnected
    ensures ShowsFallback(r.view, s.lastValidDistance)
    ensures r.view.errorBox == ConnectionLost
    ensures r.view.ldr == s.view.ldr && r.view.ldrInvalid == s.view.ldrInvalid
    ensures r.lastValidDistance == s.lastValidDistance && r.lastUpdateTime == s.lastUpdateTime
  {
    var v := ConnectionStatus(s.view, false, s.lastValidDistance);
    s.(connected := false, view := v.(errorBox := ConnectionLost))
  }

  /** The `error` handler: only the error box changes. */
  function OnServerError(s: Session, detail: string): (r: Session)
    ensures r.view.errorBox == ServerError(detail)
    ensures r == s.(view := r.view) && r.view == s.view.(errorBox := r.view.errorBox)
  {
    s.(view := s.view.(errorBox := ServerError(detail)))
  }

  /** The distance part of `updateDistanceDisplay` for a non-null payload. */
  function DistanceView(v: View, p: Payload, lastValid: Option<real>): View
  {
    if IsValidReading(p) then
      v.(distance := Shows(p.distance.value), distanceInvalid := false, indicator := Active, status := Measuring)
    else if lastValid.Some? then
      v.(distance := Shows(lastValid.value), distanceInvalid := false, indicator := Warning, status := MeasuringPrevious)
    else
      v.(distance := Placeholder, distanceInvalid := true, indicator := Error, status := OutOfRange)
  }

  /** The light-level part of `updateDistanceDisplay`: no fallback. */
  function LdrView(v: View, p: Payload): View
  {
    if LdrAccepted(p) then v.(ldr := LdrShows(p.ldrValue.value), ldrInvalid := false)
    else v.(ldr := LdrPlaceholder, ldrInvalid := true)
  }

  /** `updateDistanceDisplay(data)` received at time `now` (the value `Date.now()` returns). */
  function OnDistanceUpdate(s: Session, data: Option<Payload>, now: int): (r: Session)
    // a null or absent payload changes nothing
    ensures data.None? ==> r == s
    ensures data.Some? ==> r.lastUpdateTime == Some(now) && r.connected == s.connected
    ensures data.Some? ==> r.view.errorBox == s.view.errorBox
    // a valid reading becomes the sticky value and is shown as measuring
    ensures data.Some? && IsValidReading(data.value) ==>
              && r.lastValidDistance == data.value.distance
              && r.view.distance == Shows(data.value.distance.value) && !r.view.distanceInvalid
              && r.view.indicator == Active && r.view.status == Measuring
    // an invalid reading keeps the sticky value and falls back to it
    ensures data.Some? && !IsValidReading(data.value) ==>
              && r.lastValidDistance == s.lastValidDistance
              && ShowsFallback(r.view, s.lastValidDistance)
              && r.view.indicator == (if s.lastValidDistance.Some? then Warning else Error)
              && r.view.status == (if s.lastValidDistance.Some? then MeasuringPrevious else OutOfRange)
    // the light level is shown exactly when it is present and non-negative
    ensures data.Some? ==>
              && (LdrAccepted(data.value) <==> r.view.ldr.LdrShows?)
              && (r.view.ldrInvalid <==> !LdrAccepted(data.value))
              && (LdrAccepted(data.value) ==> r.view.ldr == LdrShows(data.value.ldrValue.value))
  {
    match data
    case None => s
    case Some(p) =>
      var lastValid := if IsValidReading(p) then p.distance else s.lastValidDistance;
      var v := LdrView(DistanceView(s.view, p, s.lastValidDistance), p);
      s.(lastValidDistance := lastValid, view := v, lastUpdateTime := Some(now))
  }

  /** `now - lastUpdateTime` as JavaScript computes it: `null` counts as 0. */
  function MillisSinceUpdate(s: Session, now: int): int
  {
    now - (if s.lastUpdateTime.Some? then s.lastUpdateTime.value else 0)
  }

  /** The `setTimeout` callback scheduled by each update, run at time `now`. */
  function StaleCheck(s: Session, now: int): (r: Session)
    ensures !(MillisSinceUpdate(s, now) > StaleAfterMs && s.connected) ==> r == s
    ensures MillisSinceUpdate(s, now) > StaleAfterMs && s.connected ==>
              && r.view.indicator == Warning
              && r.view.status == (if s.lastValidDistance.Some? then AwaitingUpdatePrevious else AwaitingUpdate)
    // only the status changes
    ensures r == s.(view := r.view)
    ensures r.view == s.view.(indicator := r.view.indicator, status := r.view.status)
  {
    if MillisSinceUpdate(s, now) > StaleAfterMs && s.connected then
      var text := if s.lastValidDistance.Some? then AwaitingUpdatePrevious else AwaitingUpdate;
      s.(view := s.view.(indicator := Warning, status := text))
    else
      s
  }

  // ---------------------------------------------------------------------
  // Sequences of events

  /** What the socket and the timers deliver to the page, one at a time. */
  datatype Event =
    | ConnectEvent
    | ConnectErrorEvent
    | DisconnectEvent
    | ErrorEvent(detail: string)
    | DistanceUpdateEvent(data: Option<Payload>, now: int)
    | StaleTimerEvent(now: int)

  function Step(s: Session, e: Event): (r: Session)
    ensures Consistent(s) ==> Consistent(r)
    // once there is a sticky distance there always is one
    ensures s.lastValidDistance.Some? ==> r.lastValidDistance.Some?
    // and only a valid reading replaces it
    ensures !IsValidUpdate(e) ==> r.lastValidDistance == s.lastValidDistance
    ensures IsValidUpdate(e) ==> r.lastValidDistance == e.data.value.distance
  {
    match e
    case ConnectEvent => OnConnect(s)
    case ConnectErrorEvent => OnConnectError(s)
    case DisconnectEvent => OnDisconnect(s)
    case ErrorEvent(detail) => OnServerError(s, detail)
    case DistanceUpdateEvent(data, now) => OnDistanceUpdate(s, data, now)
    case StaleTimerEvent(now) => StaleCheck(s, now)
  }

  predicate IsValidUpdate(e: Event)
  {
    e.DistanceUpdateEvent? && e.data.Some? && IsValidReading(e.data.value)
  }

  /** The session after the events, the last one handled last. */
  function Run(s: Session, events: seq<Event>): Session
  {
    if events == [] then s else Step(Run(s, events[..|events| - 1]), events[|events| - 1])
  }

  /** From page load on, the sticky distance is positive and is exactly what the distance element shows. */
  lemma {:induction false} RunKeepsConsistent(s: Session, events: seq<Event>)
    requires Consistent(s)
    ensures Consistent(Run(s, events))
    ensures s.lastValidDistance.Some? ==> Run(s, events).lastValidDistance.Some?
  {
    if events != [] {
      RunKeepsConsistent(s, events[..|events| - 1]);
    }
  }

  /** Without a valid reading among the events, the sticky distance stays what it was. */
  lemma {:induction false} RunWithoutValidReading(s: Session, events: seq<Event>)
    requires forall i :: 0 <= i < |events| ==> !IsValidUpdate(events[i])
    ensures Run(s, events).lastValidDistance == s.lastValidDistance
  {
    if events != [] {
      var prefix := events[..|events| - 1];
      assert forall i :: 0 <= i < |prefix| ==> prefix[i] == events[i];
      RunWithoutValidReading(s, prefix);
    }
  }

  /** The sticky distance is the distance of the last valid reading among the events. */
  lemma {:induction false} RunLastValidReading(s: Session, events: seq<Event>, i: nat)
    requires i < |events| && IsValidUpdate(events[i])
    requires forall j :: i < j < |events| ==> !IsValidUpdate(events[j])
    ensures Run(s, events).lastValidDistance == events[i].data.value.distance
  {
    var n := |events| - 1;
    if i < n {
      var prefix := events[..n];
      assert forall j :: i < j < n ==> prefix[j] == events[j];
      RunLastValidReading(s, prefix, i);
    }
  }

  /** Redundant staleness timers are harmless: a second check at the same time changes nothing. */
  lemma StaleCheckIdempotent(s: Session, now: int)
    ensures StaleCheck(StaleCheck(s, now), now) == StaleCheck(s, now)
  {
  }

  /** Staleness checks fired at different times give the same page in either order. */
  lemma StaleChecksCommute(s: Session, t1: int, t2: int)
    ensures StaleCheck(StaleCheck(s, t1), t2) == StaleCheck(StaleCheck(s, t2), t1)
  {
  }

  /** Repeating the same reading does not change what the page shows. */
  lemma RepeatedReadingSameView(s: Session, p: Payload, t1: int, t2: int)
    ensures OnDistanceUpdate(OnDistanceUpdate(s, Some(p), t1), Some(p), t2).view
            == OnDistanceUpdate(s, Some(p), t1).view
  {
  }

  /** The light-level element depends on the payload alone, never on earlier readings. */
  lemma LdrIgnoresHistory(s1: Session, s2: Session, p: Payload, t1: int, t2: int)
    ensures OnDistanceUpdate(s1, Some(p), t1).view.ldr == OnDistanceUpdate(s2, Some(p), t2).view.ldr
    ensures OnDistanceUpdate(s1, Some(p), t1).view.ldrInvalid == OnDistanceUpdate(s2, Some(p), t2).view.ldrInvalid
  {
  }

  // ---------------------------------------------------------------------
  // The page's variables and elements, updated in place

  class DisplayController {
    var isConnected: bool
    var lastUpdateTime: Option<int>
    var lastValidDistance: Option<real>
    var view: View

    function State(): Session
      reads this
    {
      Session(isConnected, lastUpdateTime, lastValidDistance, view)
    }

    ghost predicate Valid()
      reads this
    {
      Consistent(State())
    }

    /** Script start and the `DOMContentLoaded` listener, over the page's initial markup. */
    constructor (markup: View)
      ensures Valid()
      ensures State() == PageLoad(markup)
    {
      isConnected := false;
      lastUpdateTime := None;
      lastValidDistance := None;
      view := markup;
      new;
      UpdateConnectionStatus(false);
    }

    method UpdateConnectionStatus(connected: bool)
      modifies this
      ensures view == ConnectionStatus(old(view), connected, lastValidDistance)
      ensures isConnected == old(isConnected) && lastUpdateTime == old(lastUpdateTime)
      ensures lastValidDistance == old(lastValidDistance)
    {
      if connected {
        view := view.(indicator := Active, status := Connected);
      } else {
        view := view.(indicator := Error, status := Disconnected);
        if lastValidDistance.Some? {
          view := view.(distance := Shows(lastValidDistance.value), distanceInvalid := false);
        } else {
          view := view.(distance := Placeholder, distanceInvalid := true);
        }
      }
    }

    method Connect()
      requires Valid()
      modifies this
      ensures Valid()
      ensures State() == OnConnect(old(State()))
    {
      isConnected := true;
      UpdateConnectionStatus(true);
      view := view.(errorBox := Hidden);
    }

    method ConnectError()
      requires Valid()
      modifies this
      ensures Valid()
      ensures State() == OnConnectError(old(State()))
    {
      isConnected := false;
      UpdateConnectionStatus(false);
    }

    method Disconnect()
      requires Valid()
      modifies this
      ensures Valid()
      ensures State() == OnDisconnect(old(State()))
    {
      isConnected := false;
      UpdateConnectionStatus(false);
      view := view.(errorBox := ConnectionLost);
    }

    method ServerErrorReceived(detail: string)
      requires Valid()
      modifies this
      ensures Valid()
      ensures State() == OnServerError(old(State()), detail)
    {
      view := view.(errorBox := ServerError(detail));
    }

    /** `updateDistanceDisplay(data)` with `Date.now()` returning `now`. */
    method UpdateDistanceDisplay(data: Option<Payload>, now: int)
      requires Valid()
      modifies this
      ensures Valid()
      ensures State() == OnDistanceUpdate(old(State()), data, now)
    {
      if data.None? {
        return;
      }
      var p := data.value;
      if IsValidReading(p) {
        lastValidDistance := p.distance;
        view := view.(distance := Shows(p.distance.value), distanceInvalid := false);
        view := view.(indicator := Active, status := Measuring);
      } else if lastValidDistance.Some? {
        view := view.(distance := Shows(lastValidDistance.value), distanceInvalid := false);
        view := view.(indicator := Warning, status := MeasuringPrevious);
      } else {
        view := view.(distance := Placeholder, distanceInvalid := true);
        view := view.(indicator := Error, status := OutOfRange);
      }

      if LdrAccepted(p) {
        view := view.(ldr := LdrShows(p.ldrValue.value), ldrInvalid := false);
      } else {
        view := view.(ldr := LdrPlaceholder, ldrInvalid := true);
      }

      lastUpdateTime := Some(now);
    }

    /** The staleness callback, run at time `now`; the page may run it any number of times. */
    method CheckStale(now: int)
      requires Valid()
      modifies this
      ensures Valid()
      ensures State() == StaleCheck(old(State()), now)
    {
      var timeSinceUpdate := now - (if lastUpdateTime.Some? then lastUpdateTime.value else 0);
      if timeSinceUpdate > StaleAfterMs && isConnected {
        if lastValidDistance.Some? {
          view := view.(indicator := Warning, status := AwaitingUpdatePrevious);
        } else {
          view := view.(indicator := Warning, status := AwaitingUpdate);
        }
      }
    }
  }
}
