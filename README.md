# Black-ice detector: dashboard, backend and pulse timing, in Dafny

This project models the three pieces of logic of the black-ice detector
application that decide what a user sees:

- **the browser dashboard** (`assets/app.js`, module `Dashboard`): the session
  state `isConnected`, `lastUpdateTime` and `lastValidDistance`, and the page
  elements the Socket.IO handlers rewrite: the distance text, its `invalid`
  mark, the status indicator (`active`/`warning`/`error`), the status text,
  the light-level (LDR) text and mark, and the error box. Every handler is a
  function from `Session` to `Session`. Class `DisplayController` keeps the
  same state in fields, and each of its methods is proved to make exactly
  the matching transition. The proved rules are:
  - the validity rule `valid !== false && distance > 0`;
  - the sticky fallback to the last valid distance;
  - the LDR field, which has no fallback;
  - the staleness callback, which only rewrites the status.

  From page load on, the distance element always shows the sticky distance,
  or "--" marked invalid when there is none. That sticky distance is always
  positive and, once set, never goes away.
- **the Python backend** (`python/main.py`, module `Backend`):
  - `get_sensor_data` over the two bridge replies;
  - the `distance_update` message built from a sample, including the all
    `-1` failure message;
  - the `UPDATE_INTERVAL` throttle on `last_update_time`;
  - `on_client_connected`.

  Class `Server` holds `last_update_time` and the sequence of messages sent.
  Over any run of the main loop, sends are at least `UPDATE_INTERVAL` apart.
- **the sketch's pulse timing** (`sketch/pulseInCustom.cpp`, module `PulseIn`):
  - `safeMicrosDiff` is subtraction modulo 2^32 on `unsigned long`, computed
    without any intermediate value leaving the type's range.
  - `pulseInCustom` runs three polling loops with a per-phase budget and an
    overall budget. Here it reads `micros()` and `digitalRead(pin)` from two
    finite streams of readings.
  - A pulse is measured exactly when the pin readings show the pin out of
    `state`, then entering it, then leaving it, with every poll within both
    budgets.
  - A timed-out call returns 0.
- **the two ends together** (module `EndToEnd`):
  - the page accepts a server message exactly when the server marked it
    `valid`;
  - the failure message is always rejected;
  - after a stream of messages, the page's sticky distance is the distance of
    the last message marked valid;
  - the server never sends `ldr_value`, so on server messages the light-level
    element always shows "--" marked invalid.

Two details of the code that the model keeps:
- `connect` hides and clears the error box, `disconnect` shows the canned
  notice, `error` shows the server's error, and `connect_error`
  (assets/app.js:61-65) leaves it alone.
- The status indicator takes three classes: active, warning and error.

The spec functions `IsValidReading`, `LdrAccepted`, `DistanceView`, `LdrView`,
`MillisSinceUpdate` (assets/app.js:141, with `null` counted as 0), `Run`,
`Polling` (the loop conditions at sketch/pulseInCustom.cpp:25, 40 and 57),
`PollPhase`, `Measure`, `Loop`, `SendTimes` and `EndToEnd.AsPayload`
transcribe the code or
fold it over sequences. The members in the table state what they promise.

## Model

| member | source | states |
|---|---|---|
| `Dashboard.ConnectionStatus` | assets/app.js:155-171 | connected: indicator active, status "connected", distance view untouched; not connected: indicator error, distance falls back to the last valid distance or "--" marked invalid; LDR and error box untouched |
| `Dashboard.PageLoad` | assets/app.js:15-26 | after load the session is disconnected with no update time and no valid distance, shows "--" marked invalid with an error indicator, and is consistent |
| `Dashboard.OnConnect` | assets/app.js:47-59 | sets the connection flag, indicator active, hides the error box, and leaves the distance view, LDR view, sticky distance and update time unchanged |
| `Dashboard.OnConnectError` | assets/app.js:61-65 | clears the connection flag, indicator error, distance falls back to the sticky value or "--"; the error box is not touched |
| `Dashboard.OnDisconnect` | assets/app.js:67-75 | as connect_error, and the error box shows the connection-lost notice |
| `Dashboard.OnServerError` | assets/app.js:82-88 | only the error box changes, to the server's error |
| `Dashboard.OnDistanceUpdate` | assets/app.js:91-137 | a null payload changes nothing; a valid reading becomes the sticky value, is shown unmarked with an active indicator; an invalid one keeps the sticky value and shows it with a warning, or shows "--" marked invalid with an error when there is none; the LDR shows its value exactly when present and >= 0; the update time becomes now |
| `Dashboard.StaleCheck` | assets/app.js:140-152 | changes nothing unless more than 2000 ms passed since the last update (null counting as 0) while connected; then only the indicator (warning) and the status text change |
| `Dashboard.Step` | assets/app.js:99-104 | every event keeps the session consistent; a sticky distance never disappears; only a valid reading replaces it, and with its own distance |
| `Dashboard.RunKeepsConsistent` | assets/app.js:99-170 | over any sequence of events the sticky distance stays positive, stays set once set, and is what the distance element shows |
| `Dashboard.RunWithoutValidReading` | assets/app.js:111-118 | events without a valid reading never change the sticky distance |
| `Dashboard.RunLastValidReading` | assets/app.js:102-104 | after any sequence of events the sticky distance is that of the last valid reading |
| `Dashboard.StaleCheckIdempotent` | assets/app.js:140-152 | running the staleness callback twice at the same time equals running it once |
| `Dashboard.StaleChecksCommute` | assets/app.js:140-152 | staleness callbacks at different times give the same page in either order |
| `Dashboard.RepeatedReadingSameView` | assets/app.js:91-135 | repeating the same reading leaves the page as it was after the first |
| `Dashboard.LdrIgnoresHistory` | assets/app.js:129-135 | the LDR element depends only on the payload, never on earlier readings |
| `Dashboard.DisplayController.constructor` | assets/app.js:15-26 | initial variables plus `updateConnectionStatus(false)` on the markup equals PageLoad |
| `Dashboard.DisplayController.UpdateConnectionStatus` | assets/app.js:155-171 | rewrites the view exactly as ConnectionStatus; the variables are untouched |
| `Dashboard.DisplayController.Connect` | assets/app.js:47-59 | makes the OnConnect transition and keeps the invariant |
| `Dashboard.DisplayController.ConnectError` | assets/app.js:61-65 | makes the OnConnectError transition and keeps the invariant |
| `Dashboard.DisplayController.Disconnect` | assets/app.js:67-75 | makes the OnDisconnect transition and keeps the invariant |
| `Dashboard.DisplayController.ServerErrorReceived` | assets/app.js:82-88 | makes the OnServerError transition and keeps the invariant |
| `Dashboard.DisplayController.UpdateDistanceDisplay` | assets/app.js:91-137 | makes the OnDistanceUpdate transition and keeps the invariant |
| `Dashboard.DisplayController.CheckStale` | assets/app.js:140-152 | makes the StaleCheck transition and keeps the invariant |
| `Backend.Truncate` | python/main.py:29 | `int()` of a float truncates toward zero |
| `Backend.GetSensorData` | python/main.py:20-41 | a sample exactly when both bridge calls returned a value that `int()`/`float()` accept (no None, no exception, no unconvertible reply), holding `int(duration)` and `distance_mm` |
| `Backend.FailureMessage` | python/main.py:78-85 | the failure message has distance -1.0, duration -1, distance_mm -1.0 and valid false |
| `Backend.BuildMessage` | python/main.py:55-66 | with a sample: distance = distance_mm / 10, duration and distance_mm carried over, valid exactly when distance_mm > 0 and duration > 0; without: the failure message; always unit "cm" |
| `Backend.SendStep` | python/main.py:44-88 | within UPDATE_INTERVAL of the last send nothing changes; otherwise exactly one message, the one built from the sensor result, is appended and the send time becomes now |
| `Backend.ClientConnectedStep` | python/main.py:90-118 | always appends exactly one message built from the sensor result and leaves the send time alone |
| `Backend.SendTimesSpaced` | python/main.py:51-88 | send times are at least UPDATE_INTERVAL after the previous send time |
| `Backend.LoopSendsAtSendTimes` | python/main.py:124-135 | a run of the main loop sends one message per send time, keeps earlier messages, and ends with the last send time recorded |
| `Backend.Server.constructor` | python/main.py:14-15 | starts with last_update_time 0.0 and nothing sent |
| `Backend.Server.SendDistanceUpdate` | python/main.py:44-88 | makes the SendStep transition; every sent message stays well formed |
| `Backend.Server.OnClientConnected` | python/main.py:90-118 | makes the ClientConnectedStep transition; every sent message stays well formed |
| `PulseIn.SafeMicrosDiff` | sketch/pulseInCustom.cpp:8-15 | the result is (end - start) mod 2^32; end - start when end >= start; (ULONG_MAX - start) + end + 1 otherwise, with no intermediate value outside `unsigned long` |
| `PulseIn.DiffIsSubtractionModPow2` | sketch/pulseInCustom.cpp:8-15 | the result is (end - start) mod 2^Bits, with Bits = 32 the width of `unsigned long` |
| `PulseIn.DiffIsForwardDistance` | sketch/pulseInCustom.cpp:8-15 | the result is the unique d < 2^32 with start + d = end modulo 2^32 |
| `PulseIn.DiffSelf` | sketch/pulseInCustom.cpp:8-15 | the difference of a time with itself is 0 |
| `PulseIn.DiffRoundTrip` | sketch/pulseInCustom.cpp:8-15 | adding the difference to start gives end modulo 2^32 |
| `PulseIn.Outcome` | sketch/pulseInCustom.cpp:25-74 | a timed-out phase returns 0, a measured pulse returns safeMicrosDiff(pulseStart, pulseEnd), and a non-zero return means a pulse was measured |
| `PulseIn.Poll` | sketch/pulseInCustom.cpp:25-68 | one polling loop (the three loops differ only in their condition and start time) computes PollPhase |
| `PulseIn.PulseInCustom` | sketch/pulseInCustom.cpp:19-75 | returns the outcome of Measure: the three phases in order, with `waitStart` and `pulseStart` read after the previous phase ends |
| `PulseIn.PollPhaseLeftIff` | sketch/pulseInCustom.cpp:25-68 | a loop is left normally exactly when every reading but the last kept it polling, the last did not, and every clock reading was within both budgets |
| `PulseIn.MeasuredShowsPulse` | sketch/pulseInCustom.cpp:19-75 | a measured pulse means the pin was read out of state, then in state, then out of state, with every poll within budget; pulseStart is the clock reading right after phase 2 ended |
| `PulseIn.ObservedPulseIsMeasured` | sketch/pulseInCustom.cpp:19-75 | conversely, such readings always yield that measurement |
| `EndToEnd.ClientAgreesWithServer` | assets/app.js:98-99 | the page accepts a server message exactly when the server marked it valid |
| `EndToEnd.FailureMessageRejected` | python/main.py:78-86 | the page always rejects the failure message |
| `EndToEnd.ClientShowsBuiltMessage` | python/main.py:55-69 | the page accepts a built message exactly when distance_mm > 0 and duration > 0, and then shows distance_mm / 10 |
| `EndToEnd.ServerMessagesNeverShowLight` | assets/app.js:129-135 | on any server message the light-level element shows "--" marked invalid |
| `EndToEnd.Deliver` | assets/app.js:77-80 | each message becomes one `distance_update` event at its arrival time, and for a well-formed message the page treats that event as a valid reading exactly when the server marked the message valid |
| `EndToEnd.ClientKeepsLastValidMessage` | assets/app.js:99-104 | after a stream of server messages the sticky distance is that of the last message marked valid |

## Left out

- DOM lookups, console logging, and the `if (errorContainer)` and missing-element checks (assets/app.js:6-13, 23-41): the model assumes every element exists.
- The exact Korean status texts and error-box text: presentation only. Status texts are an enumeration, and the error box is hidden, the disconnect notice, or a server error.
- `toFixed(2)` formatting: a shown distance is the number it is formatted from.
- The Socket.IO transport, handler registration, and the `client_connected` emit: the handlers are methods called in arrival order.
- JavaScript coercions of payload fields that are not numbers or absent (null, strings, booleans, NaN). For example, `ldr_value: null` passes `>= 0` in JavaScript. Payload fields are numbers or absent.
- Real timers, `Date.now` and `setTimeout`: time is an integer `now` argument. The staleness callback is a method that the environment may call any number of times, and the model does not track which timers are pending.
- `Bridge.call`, `WebUI`, `App.run`, `print`, and the main loop's `time.sleep` and exception handler: foreign calls and I/O. Bridge replies and the clock are inputs. The loop is a finite sequence of ticks.
- `datetime.now(UTC).isoformat()`: the timestamp is a string input.
- Float rounding of `distance_mm / 10.0` and of the throttle subtraction: reals are used.
- The event name `"distance_update"`: every message sent has that name, so `sent` holds only the messages.
- `micros()` and `digitalRead(pin)`: replaced by two finite streams of readings, and the `pin` argument is dropped. Running out of a stream gives `TraceExhausted`, which has no hardware counterpart.
- The default argument `timeout = 1000000` of the header: callers pass the timeout explicitly.
- The platform width of `unsigned long`: it is fixed at 32 bits.
