# Frame-submission coordinator of the face-recognition front end

The application watches a camera and runs a face detector on each frame.
Whenever a face is detected it grabs a still frame, posts it to a
recognition service and shows the returned name and similarity. The part
modelled here is the coordinator inside `App` (`src/App.jsx`). It holds a
lock (`backendLockRef.current`) so that only one frame is out at a time. It
drops detections while the lock is held. It keeps a status line and the last
result, and it frees the lock 500 ms after each round trip ends.

The model has four modules:

- `Reply` (`reply.dfy`): the parsed JSON reply. It covers JavaScript property
  access and truthiness, the error reply `{ name: "Error", similarity: "-" }`,
  and the view's colour rule: red exactly when `name === "Unknown"`.
- `Coordinator` (`coordinator.dfy`): the state machine. `State` holds the
  three cells of the source (lock, status, result). It also holds what the
  runtime keeps for them: sends awaiting the network, scheduled cooldown
  timers, a send that died while capturing, and counts of sends started and
  timers fired. There is one transition function per handler (`Detect`,
  `Resolve`, `Fire`), plus `Step` and `Run` over event sequences, and the
  invariant `Inv`. Lemmas cover single flight, drop-don't-queue, the rate
  bound, persistence of the result and the stuck capture path.
- `App` (`app.dfy`): the class `SubmissionCoordinator`. Its fields are the
  source's cells. Its methods `OnDetection`, `OnResolve` and `OnTimer` update
  them in place. Each method is proved to perform exactly the matching
  transition and to keep `Inv`.
- `Scenarios` (`scenarios.dfy`): end-to-end runs from the initial state: a
  known face, an unknown face, a network error, a burst of detections, the
  cooldown gate and a failed capture.

Each handler runs as one atomic step. JavaScript runs one handler at a time,
and there is no `await` between the lock check (src/App.jsx:31) and the lock
write (src/App.jsx:33). Detector results, capture success, the network
outcome and timer expiry are inputs: the events `Detected(detections,
capture)`, `Settled(outcome)` and `TimerFired`.

Two behaviours of the code are modelled as written, although they are
probably not what was intended:

- Capturing the frame (src/App.jsx:54-65) happens before the `try`. If it
  throws, the send is lost and the cooldown is never scheduled, so the lock
  stays held and the status stays "⏳ Sending frame to backend..." forever
  (`StuckForever`, `Scenarios.CaptureFailureNeverRecovers`). A capture
  failure is not routed into the cooldown and is not reported as a backend
  error.
- The HTTP status code is never checked (src/App.jsx:71-81). Any reply whose
  body parses as JSON is stored and reported as processed
  (`StatusCodeIgnored`). A non-2xx reply is not treated as a failure.

## Model

| member | source | states |
|---|---|---|
| `Reply.Property` | src/App.jsx:122-133 | `serverResponse.name` / `.similarity` is defined exactly when the stored value is an object with that key, and is then that key's value |
| `Reply.NameColour` | src/App.jsx:122 | the name is red exactly when it is the string "Unknown" (strict equality); missing, non-string or any other name is green |
| `Reply.ResultPanel` | src/App.jsx:115-135 | a panel is shown exactly when a result is stored and is truthy; it shows that result's name and similarity, and the colour is red iff the name is "Unknown" |
| `Reply.ErrorReplyShownGreen` | src/App.jsx:84 | the stored error reply is shown with name "Error", similarity "-", in green |
| `Coordinator.Init` | src/App.jsx:7-10 | the initial state: lock free, status "🟢 Detecting faces", no result, nothing started; it satisfies the invariant |
| `Coordinator.Detect` | src/App.jsx:28-37 | missing or empty detections, and any detection while the lock is held, leave the whole state unchanged; otherwise the lock is taken, status becomes "⏳ Sending frame to backend...", the result is untouched and exactly one send starts (in flight, or stuck if capture threw); preserves the invariant |
| `Coordinator.Resolve` | src/App.jsx:70-92 | a settled send stores exactly the parsed body with status "✅ Backend processed frame", or the error reply with "❌ Backend error" when fetch/parsing threw; the send leaves flight, exactly one timer is scheduled, the lock stays held; preserves the invariant |
| `Coordinator.Fire` | src/App.jsx:89-92 | the timer frees the lock, resets the status to "🟢 Detecting faces", keeps the result, and retires exactly one pending timer; preserves the invariant |
| `Coordinator.Step` | src/App.jsx:28-92 | every event preserves the invariant; only the timer frees the lock; only an accepted detection takes it, starting one send; detections while locked change nothing; only a settled send changes the result |
| `Coordinator.RunKeepsInv` | src/App.jsx:28-92 | every run of events from a state satisfying the invariant ends in one that satisfies it |
| `Coordinator.SingleFlight` | src/App.jsx:31-33 | from the initial state, after any events: at most one send in flight or timer pending in all; lock free implies no send, no timer and nothing stuck; status is "Detecting" exactly when the lock is free |
| `Coordinator.BurstWhileLockedDropped` | src/App.jsx:31 | any sequence of detections arriving while the lock is held leaves the whole state unchanged (dropped, not queued) |
| `Coordinator.StuckForever` | src/App.jsx:54-70 | once a send has thrown during capture, no later event changes the state: the lock is never released |
| `Coordinator.CooledAtMostFires` | src/App.jsx:89-92 | a run fires no more cooldown timers than it has timer events |
| `Coordinator.RateBound` | src/App.jsx:31-92 | over any window of events starting from any state satisfying the invariant, the sends started in the window are at most the timer expiries in it, plus one if the lock is free when the window opens, regardless of how many faces are detected |
| `Coordinator.RateBoundFromMount` | src/App.jsx:7-92 | from the initial state, the number of sends started is at most the number of timer expiries plus one |
| `Coordinator.ResultPersists` | src/App.jsx:89-92 | a run without a settled send keeps the stored result unchanged, so the result survives the cooldown until the next resolution |
| `Coordinator.StatusCodeIgnored` | src/App.jsx:71-81 | two replies with the same body and different HTTP status codes have the same effect, and both report "processed" |
| `App.SubmissionCoordinator.constructor` | src/App.jsx:7-10 | a new coordinator is in the initial state and satisfies the invariant |
| `App.SubmissionCoordinator.OnDetection` | src/App.jsx:28-37 | performs exactly `Detect` on the object's state and keeps the invariant; a dropped detection leaves the object unchanged |
| `App.SubmissionCoordinator.StartSend` | src/App.jsx:54-65 | the synchronous start of `sendFrameToBackend`: one send in flight if capture succeeded, the stuck flag set if it threw, nothing else changed |
| `App.SubmissionCoordinator.OnResolve` | src/App.jsx:70-92 | performs exactly `Resolve` on the object's state and keeps the invariant |
| `App.SubmissionCoordinator.OnTimer` | src/App.jsx:89-92 | performs exactly `Fire` on the object's state, keeps the invariant and the stored result |
| `Scenarios.IdentifiedShownGreen` | src/App.jsx:76-81 | reply `{name:"23001", similarity:0.87}` is stored as is, status "processed", name shown green |
| `Scenarios.UnknownShownRed` | src/App.jsx:122 | reply `{name:"Unknown", similarity:0.41}` is shown red with status "processed" |
| `Scenarios.NetworkErrorShown` | src/App.jsx:82-85 | a throwing request stores the error reply with status "backend error" |
| `Scenarios.ThreeDetectionsOneSend` | src/App.jsx:31-36 | three detections in a row start exactly one send |
| `Scenarios.CooldownGatesNextSend` | src/App.jsx:88-92 | a detection before the timer fires is dropped; one after it starts the second send |
| `Scenarios.CaptureFailureNeverRecovers` | src/App.jsx:56-65 | after a detection whose capture throws, whatever follows, the lock stays held, status stays "Sending" and no result is ever stored |

## Left out

- Real time: the 500 ms cooldown (src/App.jsx:92) is the event `TimerFired`, so its length does not appear in the model. The comment at src/App.jsx:88 says 5 seconds, but the value passed is 500. A bound on sends per window of milliseconds is stated per timer expiries instead (`RateBound`).
- MediaPipe `FaceDetection` loading, options and the missing-library guard (src/App.jsx:13-26): foreign library. Only its result enters the model: `detections` missing, or a count of faces.
- `Camera` start/stop and the per-frame `faceDetection.send` (src/App.jsx:39-49): device I/O.
- Canvas drawing and JPEG encoding (src/App.jsx:56-65): browser graphics. Only whether they throw is modelled (`Capture`). A null blob from a zero-size canvas does not throw, so it counts as `Captured`.
- `FormData`, `fetch` and JSON parsing (src/App.jsx:67-76): network I/O. Each is an `Outcome`: a status code with a parsed body, or a throw. A request that never settles is a run with no `Settled` event.
- JSON object keys other than `name` and `similarity` are kept in the model's `Object` map but are never read. Numbers are exact reals, not IEEE doubles.
- React state batching, re-rendering and the JSX markup (src/App.jsx:95-140), except the colour rule and panel visibility. So is the render error React raises when `name` or `similarity` is an object (src/App.jsx:126, 133).
- Console logging (src/App.jsx:14, 77, 83).
- Unmount while a send is in flight: the source has no liveness flag and promises nothing about late updates.
