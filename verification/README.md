# Stroke screening capture and collection, modelled in Dafny

This project models the stateful core of a browser-based stroke screening
app. The app runs three self-administered checks (face symmetry from a
camera frame, a voice recording, device tilt from motion events) and sends
results to a small in-memory collector service. The model covers:

- **Collector service** (`collector.dfy`). This is the module-level
  `sessions` table of `server.js` and the handlers that update it in place:
  create a session, append data (lenient: it auto-creates unknown sessions),
  complete (strict: 404 for an unknown id), and the health probe. Pure
  functions `Created`, `Appended` and `Completed` give each handler's effect.
  The class `CollectorService` holds the table as a `map` field, and each
  method's `ensures` ties the new table to one of those functions.
  `Run` replays a sequence of requests, which gives the multi-request
  properties: arrival order, sessions never deleted, completion is final,
  completion succeeds after any write.
- **Client calls** (`api.js`). `StartSession` and `SubmitData` are total
  functions over an abstract fetch outcome. The offline fallback id is
  `offline-` followed by the decimal clock reading. It is proved distinct
  across clock readings and never equal to a server-generated base-36 id.
- **Capture components**. There is one class per component, with its React
  state and refs as fields and one method per handler: `CameraModule.jsx`,
  `VoiceModule.jsx`, `MotionModule.jsx` and the `LoginGate.jsx` entry gate.
  - Device streams are `Devices.MediaStream` objects, with an array of
    track-live flags. `StopTracks` is the `forEach(track => track.stop())`
    loop.
  - Each handler runs to completion before the next event, so React state
    updates take effect at once.
  - Browser callbacks are separate events: the camera's two-second timer, and
    the recorder's `dataavailable` and `stop` events.
  - Three handlers require the JSX condition under which their button is
    rendered: `Camera.CameraModule.StartCamera` (the camera placeholder,
    `src/components/CameraModule.jsx:142`), `Voice.VoiceModule.StartRun`
    (the Start button, shown while not recording) and
    `Motion.MotionModule.RequestPermission` (the Start button, shown while
    not tracking). Every other handler is modelled in every valid state of
    its component, whether or not its button is on screen.

Device acquisition (`getUserMedia`, `DeviceMotionEvent.requestPermission`),
frame capture, object URLs, ids and clock readings all become parameters.

Notable behaviours of the code that the model keeps:

- The record auto-created by an append has no `completed` field at all, so
  `completed` is not simply "false until completed".
- Face results are submitted under the fixed id `'temp-session'`.
- The voice component has no unmount cleanup. A microphone in use stays live
  when the component goes away.
- Motion capture has no analysis step.
- `reset` neither releases nor reacquires the camera, and it keeps `error`.
- A face result whose timer fires after unmount is still submitted.

## Model

| member | source | states |
|---|---|---|
| `Collector.Created` | server.js:23-31 | creating adds exactly the new id, whose record has a start time, `completed` false, no end time and empty data; every other session is unchanged |
| `Collector.Appended` | server.js:34-50 | an unknown id first gets a record with no start time, completion flag or end time; the list for the type grows by exactly one entry, placed last, carrying the payload and arrival time; other types and other sessions are unchanged; a known record's other fields are kept |
| `Collector.Completed` | server.js:56-64 | an unknown id answers 404 `Session not found` and leaves the table as it was; a known id answers success, sets `completed` true and `endTime` to the call time, keeps start time and data, and touches no other session |
| `Collector.RunAppendsInArrivalOrder` | server.js:43-49 | over any run of requests that does not re-create the session, each per-type list is the old list followed by the submitted entries in arrival order |
| `Collector.CreatedSessionCollectsArrivals` | server.js:23-49 | a freshly created session's list for a type is exactly the entries later submitted to it for that type, in arrival order |
| `Collector.RunKeepsSessions` | server.js:15-64 | no request ever removes a session |
| `Collector.CompletionIsFinal` | server.js:61 | once completed, a session stays completed under any later requests that do not re-create it |
| `Collector.CompleteSucceedsAfterWrite` | server.js:36-60 | completing succeeds for any id that some earlier request created or appended to, including a session auto-created by an append |
| `Collector.CompleteTwiceOverwritesEndTime` | server.js:58-63 | a second completion still succeeds, leaves `completed` true, sets `endTime` to the second call's time and leaves the data alone |
| `Collector.CollectorService.constructor` | server.js:15 | the table starts empty |
| `Collector.CollectorService.Health` | server.js:18-20 | the health probe answers 200 with status `ok` and the clock reading, changing nothing |
| `Collector.CollectorService.CreateSession` | server.js:23-31 | the table becomes `Created` of the old table, and the answer carries the new id |
| `Collector.CollectorService.SubmitData` | server.js:34-53 | the table becomes `Appended` of the old table, and the answer is always `{ success: true }` |
| `Collector.CollectorService.Complete` | server.js:56-64 | table and answer are exactly those of `Completed` on the old table |
| `Api.DecimalString` | src/api.js:11 | the printed clock reading is a non-empty string of decimal digits with no leading zero |
| `Api.DecimalRoundTrip` | src/api.js:11 | reading the printed clock reading back as a decimal gives the reading |
| `Api.OfflineId` | src/api.js:11 | the fallback id starts with `offline-` and continues with digits only |
| `Api.OfflineIdsDistinct` | src/api.js:11 | fallbacks made at different clock readings get different ids |
| `Api.OfflineIdIsNotGenerated` | server.js:5 | no fallback id equals a server id, which consists of base-36 digits only |
| `Api.StartSession` | src/api.js:3-13 | the server's parsed body is returned exactly when the answer is ok and its body parses; a non-ok answer, an unparsable body or a thrown fetch yields the offline id |
| `Api.SubmitData` | src/api.js:15-27 | posts exactly `{ sessionId, type, payload }`; reports failure exactly when the server answered with a non-ok status, and a thrown fetch reports success |
| `Devices.MediaStream.StopTracks` | src/components/CameraModule.jsx:60 | after the loop every track of the stream is stopped |
| `Camera.MockResult` | src/components/CameraModule.jsx:106-111 | the canned analysis is `Normal` with symmetry and confidence scores in [0, 1] |
| `Camera.FaceSubmission` | src/components/CameraModule.jsx:116-119 | the submitted request is for session `temp-session`, type `face`, and carries the mock result's fields together with the captured image |
| `Camera.CameraModule.constructor` | src/components/CameraModule.jsx:8-14 | no stream, camera inactive, not analysing, no result, error or image, no timer pending |
| `Camera.CameraModule.StartCamera` | src/components/CameraModule.jsx:16-35 | success stores the acquired stream, activates the camera, clears the error and returns true; failure sets the permission message, returns false and holds no stream; the invariant "a stream is held exactly while active" is kept |
| `Camera.CameraModule.StopCamera` | src/components/CameraModule.jsx:58-69 | a held stream has every track stopped and is dropped; the camera is inactive afterwards, also when no stream was held |
| `Camera.CameraModule.AnalyzeFace` | src/components/CameraModule.jsx:94-103 | inactive camera or no frame: nothing changes, and a held stream's tracks stay as they were; otherwise the frame is kept, the stream released, analysis begins and exactly one timer is scheduled; no stream is held while analysing |
| `Camera.CameraModule.AnalysisTimerFires` | src/components/CameraModule.jsx:105-121 | the earliest timer posts the mock result with its image under `temp-session`; while mounted it shows the result and ends the analysis, after unmount the state is left alone |
| `Camera.CameraModule.Reset` | src/components/CameraModule.jsx:124-128 | result, analysis flag and image are cleared; camera, stream and error are untouched |
| `Camera.CameraModule.Unmount` | src/components/CameraModule.jsx:130-134 | a held stream is released whatever the state; pending timers stay scheduled |
| `Camera.CaptureTwiceSchedulesOnce` | src/components/CameraModule.jsx:95-103 | two captures on one live feed schedule exactly one analysis and leave the feed stopped; after the first, the Capture button is no longer enabled |
| `Camera.EmptyCaptureKeepsFeed` | src/components/CameraModule.jsx:94-98 | a capture that yields no frame leaves the feed live, the Capture button enabled and no analysis scheduled |
| `Voice.Concat` | src/components/VoiceModule.jsx:20 | the blob starts with the first chunk's bytes, and is empty exactly when every chunk is empty |
| `Voice.ConcatAppend` | src/components/VoiceModule.jsx:15-20 | a chunk appended to the buffer appends its bytes to the end of the blob |
| `Voice.Kept` | src/components/VoiceModule.jsx:15-17 | the buffer built from data events holds only non-empty chunks, never more than there were events |
| `Voice.KeptPreservesRecording` | src/components/VoiceModule.jsx:15-20 | dropping empty chunks loses no byte: the blob of the kept chunks equals the blob of all chunks |
| `Voice.VoiceModule.constructor` | src/components/VoiceModule.jsx:5-8 | not recording, no URL, no recorder, empty buffer |
| `Voice.VoiceModule.StartRun` | src/components/VoiceModule.jsx:10-32 | a granted stream gets a new recorder on that stream, started, with `isRecording` true; a denial alerts and leaves recording off and the recorder as it was |
| `Voice.VoiceModule.DataAvailable` | src/components/VoiceModule.jsx:15-17 | a non-empty chunk is appended last, an empty one dropped |
| `Voice.VoiceModule.RecorderStopped` | src/components/VoiceModule.jsx:19-24 | one blob of all buffered chunks in order is built, its URL becomes `audioUrl`, and the buffer is emptied |
| `Voice.VoiceModule.StopRun` | src/components/VoiceModule.jsx:34-41 | with a recording recorder: it is stopped, `isRecording` cleared and every microphone track stopped; otherwise nothing changes |
| `Voice.RecordOnce` | src/components/VoiceModule.jsx:10-41 | a complete recording yields a blob of exactly the recorded bytes and sets the audio URL |
| `Motion.Clamp` | src/components/MotionModule.jsx:33-34 | the offset never exceeds 80 in magnitude, is the input inside [-80, 80], and saturates outside |
| `Motion.Readings` | src/components/MotionModule.jsx:17-25 | a missing axis component reads as 0, a present one as itself |
| `Motion.BallOffset` | src/components/MotionModule.jsx:28-36 | both ball offsets lie within ±80; inside the range they are ten times the tilt, the vertical one negated |
| `Motion.MotionModule.constructor` | src/components/MotionModule.jsx:5-8 | not tracking, coordinates and ball at the origin, no listener registered; the handler is per render as written, or stable when corrected |
| `Motion.MotionModule.HandleMotion` | src/components/MotionModule.jsx:10-37 | an event is ignored unless tracking and unless it carries an acceleration; otherwise coordinates and ball follow the reading |
| `Motion.MotionModule.StartTracking` | src/components/MotionModule.jsx:56-60 | state and ref become true and the handler the current render holds is registered; with a stable handler, exactly one listener is registered while tracking |
| `Motion.MotionModule.RequestPermission` | src/components/MotionModule.jsx:39-54 | tracking starts exactly on an ungated platform or on `'granted'`; any other answer alerts, a rejected request is logged, and neither starts tracking |
| `Motion.MotionModule.StopTracking` | src/components/MotionModule.jsx:62-68 | state and ref become false, coordinates and ball return to the origin, and only the current render's handler is removed; as written, in every state, this removes nothing that is registered; with a stable handler, no listener is left |
| `Motion.MotionModule.Unmount` | src/components/MotionModule.jsx:70-75 | the first render's handler is removed and the ref cleared; with a stable handler, no listener outlives the component |
| `Motion.StopLeavesListener` | src/components/MotionModule.jsx:56-68 | after Start then Stop, the handler registered at Start is still on the window (though inert) |
| `Motion.UnmountLeavesListener` | src/components/MotionModule.jsx:56-75 | after Start, Stop, Start and unmount, the second Start's handler outlives the component |
| `Motion.StableHandlerReleasesListener` | src/components/MotionModule.jsx:56-75 | with a stable handler, Start then Stop leaves no listener, and Start again then unmount leaves none either |
| `Login.TrimStart` | src/components/LoginGate.jsx:16 | the result is a suffix of the input whose dropped prefix is all whitespace and which does not start with whitespace |
| `Login.TrimEnd` | src/components/LoginGate.jsx:16 | the result is a prefix of the input whose dropped suffix is all whitespace and which does not end with whitespace |
| `Login.Trim` | src/components/LoginGate.jsx:16 | a non-empty trimmed string neither starts nor ends with whitespace |
| `Login.TrimEmptyIffBlank` | src/components/LoginGate.jsx:16 | `s.trim()` is empty exactly when every character of `s` is whitespace |
| `Login.Accepts` | src/components/LoginGate.jsx:16 | login is accepted exactly when both email and password contain a non-whitespace character |
| `Login.LoginGate.constructor` | src/components/LoginGate.jsx:4-12 | logged in exactly when the stored flag is the string `'true'`; form hidden, fields empty |
| `Login.LoginGate.OpenForm` | src/components/LoginGate.jsx:85 | the form is shown, nothing else changes |
| `Login.LoginGate.EditEmail` | src/components/LoginGate.jsx:94 | the email field takes the typed value |
| `Login.LoginGate.EditPassword` | src/components/LoginGate.jsx:102 | the password field takes the typed value |
| `Login.LoginGate.HandleLogin` | src/components/LoginGate.jsx:14-21 | accepted input stores `'true'`, logs in and hides the form; otherwise nothing changes |
| `Login.LoginGate.HandleLogout` | src/components/LoginGate.jsx:23-28 | the stored flag is removed, the user logged out and both fields cleared; `showForm` is untouched |

## Findings

| source | as written | input that shows it | evidently intended | confidence | as-written member | corrected member |
|---|---|---|---|---|---|---|
| src/components/MotionModule.jsx:59-65 | `handleMotion` is re-created on every render. `startTracking` registers one render's function, and `stopTracking`, run from the Stop button of a later render, removes a different function. The unmount cleanup (line 72) removes only the first render's function. | Press Start, then Stop: the first listener stays registered. Start, Stop, Start, then leave the page: the second listener outlives the component. Each leftover listener is inert only because it checks `isTrackingRef`, and after a restart every event runs the handler once per leftover listener. | Stopping and unmounting remove the listener that was registered, for example by keeping `handleMotion` stable across renders. The model builds such a component with `stable` set: Stop and unmount then leave no listener, from every valid state. | high (reasoned from the source, not executed) | `Motion.StopLeavesListener` | `Motion.MotionModule.StopTracking` |

## Left out

- Ids and time: `generateId` (clock plus `Math.random`), `new Date()` and `Date.now()` are parameters. A create with an id already in the table replaces that record, as the handler does.
- HTTP, JSON, express and cors set-up, `app.listen` and console logging are not modelled. Request bodies are taken as already parsed, with a string `sessionId` and `type`. JavaScript's inherited object keys (a session id or type such as `constructor`) are treated as ordinary map keys.
- `fetch` is modelled only as its outcome: answered (with `ok` and the parsed body) or thrown.
- Browser APIs are abstracted. `getUserMedia` becomes an optional stream. Canvas drawing and `toDataURL` become an optional frame. `Blob` and `URL.createObjectURL` become byte concatenation and a URL parameter. `DeviceMotionEvent.requestPermission` becomes an answer, `alert` a returned message, and `localStorage` a field.
- The camera's video wiring (`srcObject`, `play`, lines 37-56) and all rendering, text, styles and `toFixed` formatting are not modelled. So is the static "Clarity 96%" text of the voice component.
- Asynchrony: each handler is atomic, and the two-second delay is a separate event, not elapsed time. Overlapping clicks while `getUserMedia` is pending, and a stream that resolves after unmount, are not modelled.
- Camera.CameraModule.StartCamera: requires the placeholder to be shown, so it does not describe a second `startCamera` while a stream is held. That call would drop the old stream without stopping it.
- Voice.VoiceModule.StartRun: treats `getUserMedia` as the only failure point. If `new MediaRecorder` or `start()` throws after the stream was granted, that stream stays live; this is not modelled.
- Voice has no unmount method because the component has no cleanup.
- Motion: readings are exact reals. Floating point and `NaN` axis values are not modelled.
- Motion's `render` counter moves on every handler that sets state. React's bail-out when a setter gets an unchanged value is not modelled, because only the identity of the registered handler matters here.
- `src/components/LandingPage.jsx`, `src/App.jsx`, `src/components/Layout.jsx` and `src/components/Disclaimer.jsx` (presentation, routing and animation) are not part of this model.
