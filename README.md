# Pizza / blister detection line — verified model

This project models the decision core of a camera-based quality station.
A YOLO detector reports bounding boxes on each video frame. A fixed green
zone is computed from the frame size. Boxes fully inside the zone raise a
`pizza` or a `blister` flag. Each frame falls into one of three categories:
nothing, pizza without blister (red dot), or pizza with blister (green dot).
A rising edge into either pizza category sends a pulse (write True, then
False) to an OPC-UA node of the PLC and bumps the statistics counters.
The OPC-UA client keeps one persistent connection. It rate-limits its
connection attempts, fails fast on writes, and runs a reconnection loop
with capped backoff. The Flask `/status` endpoint of `run.py` reports the
last detection dictionary, the counters with their percentages, the two
PLC bits and the connection state.

Modules, one per file:

- `records.dfy` (`Records`): `Option` and the dictionary value type, with
  Python truthiness and `dict.get`.
- `geometry.dfy` (`Geometry`): the zone (`draw_green_box`) and the
  containment test (`is_inside_area`).
- `classification.dfy` (`Classification`): the box loop as a method,
  specified by a left fold `Classified`.
- `statistics.dfy` (`Statistics`): the counter globals as a `Registry`
  class, the percentages, and `reset_counters`.
- `edge_detection.dfy` (`EdgeDetection`): the per-frame step over
  `previous_red` / `previous_green`, counters and dispatched pulses. It is
  a pure `Step`, with its run over a frame sequence and an independent
  rising-edge reference.
- `opcua_client.dfy` (`OpcUa`): the `OPCUAClient` class (connect,
  disconnect, write_value, check_connection, one reconnection iteration and
  the loop over iterations, pulses) and the lock finding.
- `status.dfy` (`StatusApi`): `SharedState`, `start_detection`,
  `stop_detection` and the `/status` response.
- `detection_loop.dfy` (`DetectionLoop`): the background detection loop as
  a class whose state is proved to follow `EdgeDetection.Run`, plus
  `get_detection_flags`.

Clock readings, capture results, detector output and every outcome of the
OPC-UA library are parameters of the model. A ghost `log` records the
transport operations a client makes, `writes` records its node writes, and
`dispatched` records the pulses handed to the worker pool.

Facts about the code that the model keeps:

- A flag's confidence is that of the last qualifying box in detector
  order.
- The zone spans 260 px left and 160 px right of the frame centre, so its
  horizontal midpoint is 50 px left of centre.
- A rising edge bumps the counters only when an OPC-UA client object
  exists. Without one, edges are neither pulsed nor counted.
- The background loop publishes to the shared state through the reference
  stored on the camera object (`self.shared_state`). In the model that
  reference is `BackgroundDetection.shared`. It may be null, and it is
  fixed when the loop object is built.

## Model

| member | source | states |
|---|---|---|
| Geometry.GreenBoxArea | app/camera.py:519-523 | the zone is always 420 × 330 px, strictly contains the frame centre (floor halves), is vertically centred and its horizontal midpoint is 50 px left of centre |
| Geometry.IsInsideArea | app/camera.py:529-535 | a box accepted by the containment test is no wider and no taller than the area, and a non-inverted accepted box has its centre inside the area |
| Geometry.AreaIsInsideItself | app/camera.py:529-535 | the containment test accepts a box whose edges coincide with the zone's (inclusive bounds) |
| Geometry.InsideWiderArea | app/camera.py:529-535 | containment is monotone: a box inside an area is inside every area that extends it on all sides |
| Geometry.InsideGreenBoxFits | app/camera.py:519-535 | a box accepted by the zone is at most 420 × 330 and lies between 260 px left and 160 px right of the centre column |
| Classification.Absorb | app/camera.py:387-393 | one box raises the pizza flag exactly when it is inside with the pizza class, and the blister flag exactly when it is inside with the blister class and not the pizza class (elif); a raising box overwrites that flag's confidence, everything else is kept |
| Classification.ClassifiedPizza | app/camera.py:378-390 | after the loop, `pizza` is true iff some box inside the zone has the pizza class; otherwise `conf_pizza` keeps its initial 0.0 |
| Classification.ClassifiedPizzaLast | app/camera.py:381-390 | a raised `pizza` flag carries the confidence of the last qualifying box in detector order |
| Classification.ClassifiedBlister | app/camera.py:378-393 | after the loop, `blister` is true iff some box inside the zone has the blister class and not the pizza class; otherwise `conf_blister` stays 0.0 |
| Classification.ClassifiedBlisterLast | app/camera.py:381-393 | a raised `blister` flag carries the confidence of the last qualifying box |
| Classification.Classify | app/camera.py:378-393 | the in-order loop over the boxes computes the fold `Classified`, so both flag iff-properties hold of its result |
| Statistics.AddSinBlister | app/camera.py:407-409 | one pizza-without-blister pulse bumps that counter and the total, keeping total = sum of the two |
| Statistics.AddConBlister | app/camera.py:425-427 | one pizza-with-blister pulse bumps that counter and the total, keeping total = sum of the two |
| Statistics.Percentage | app/camera.py:450-452 | `count / max(total,1) * 100`: a zero total divides by 1, and a count within a positive total gives a value in [0, 100] |
| Statistics.PercentagesSplit | run.py:74-77 | for consistent counters both percentages are 0 when nothing was counted, and otherwise they add up to exactly 100 |
| Statistics.Registry.constructor | app/camera.py:38-40 | the three counter globals start at zero |
| Statistics.Registry.RecordSinBlister | app/camera.py:407-409 | bumps the sin-blister counter and the total under the counter lock, as `AddSinBlister`, keeping the sum invariant |
| Statistics.Registry.RecordConBlister | app/camera.py:425-427 | bumps the con-blister counter and the total, as `AddConBlister`, keeping the sum invariant |
| Statistics.Registry.Reset | app/camera.py:675-688 | `reset_counters` zeroes all three counters and returns True |
| EdgeDetection.Step | app/camera.py:396-436 | after any frame the two edge flags are never both set |
| EdgeDetection.StepRemembersCategory | app/camera.py:396-436 | after a frame, `previous_red` holds iff pizza and not blister, and `previous_green` iff pizza and blister |
| EdgeDetection.StepPulsesOnRisingEdge | app/camera.py:401-427 | a frame dispatches one pulse, and bumps the matching counter and the total, exactly on a rising edge into its category while the client exists; otherwise pulses and counters are unchanged |
| EdgeDetection.SustainedCategoryIsSilent | app/camera.py:396-436 | a frame in the category already remembered changes nothing, so sustained presence never re-triggers |
| EdgeDetection.RunEmitsRisingEdges | app/camera.py:355-436 | over any frame sequence with the client present, the dispatched pulses are exactly the rising edges of the category sequence (the reference `RisingEdges`), and the flags remember the last category |
| EdgeDetection.RunWithoutClientIsSilent | app/camera.py:402-427 | with no client object no pulse is dispatched and no counter moves, whatever the frames |
| EdgeDetection.RunCountsMatchPulses | app/camera.py:402-427 | pulses are only appended, and each counter grows by exactly the number of pulses of its kind (the total by all pulses) over any run |
| EdgeDetection.RunKeepsCountsConsistent | app/camera.py:402-427 | total = sin + con is preserved by every run, and no counter ever decreases |
| EdgeDetection.ExampleStream | app/camera.py:396-436 | frames none, pizza, pizza, pizza+blister, none, pizza give pulses red, green, red, counters 2/1/3 and final flags (true, false) |
| OpcUa.WaitTime | app/camera.py:125 | the backoff wait is never above 30 s, is non-negative for a non-negative interval, and equals `interval * (1 + failures * 0.2)` while that is below the cap |
| OpcUa.WaitTimeMonotone | app/camera.py:125 | the wait never shrinks as consecutive failures grow |
| OpcUa.AttemptOpsShape | app/camera.py:164-199 | each real connection attempt opens exactly one session |
| OpcUa.OpcUaClient.constructor | app/camera.py:54-71 | URL and both node ids come from the configuration with their defaults; the client starts disconnected, with no nodes and last attempt 0 |
| OpcUa.OpcUaClient.Connect | app/camera.py:152-199 | connected and not forced: true with nothing done; unforced within 5 s of the last attempt: returns the (false) state without trying; otherwise records the attempt time, closes, reopens, and is connected iff the session and both node lookups succeed |
| OpcUa.OpcUaClient.Disconnect | app/camera.py:201-211 | afterwards never connected; a session is closed only when one was open |
| OpcUa.OpcUaClient.WriteValue | app/camera.py:213-229 | when disconnected, an unforced connect is tried first and a still-failed connect returns False with nothing written; otherwise exactly one node write is made to the given node; a write failure drops the connection; the result always equals the connection state afterwards; the node handles are those the connect found, or unchanged without an attempt |
| OpcUa.OpcUaClient.CheckConnection | app/camera.py:132-150 | the probe succeeds iff a session exists and the namespace read succeeds; a failed probe marks the client disconnected |
| OpcUa.OpcUaClient.ReconnectIteration | app/camera.py:95-126 | disconnected: after more than 10 failures the client is recreated and the count restarts, then a forced connect records the attempt time, sets the node handles it found and resets or increments the count; connected: only the namespace probe is logged, the attempt time and node handles are kept, and the probe resets or increments the count; the wait follows `WaitTime`; no node is written; the new connection state is `ConnectedAfter` and the new count is `FailuresAfter` |
| OpcUa.OpcUaClient.ReconnectLoop | app/camera.py:90-126 | starting from no failures, every iteration follows `ReconnectIteration`: the returned ghost trace gives the connection state before the first iteration and after each one (`ConnectedAfter`) and the count after each (`FollowsRule`), each wait is `WaitTime` of that count, and the count returned is the last one; so the count never exceeds 11, is 0 whenever connected, and every wait is in [0, 16] s |
| OpcUa.FollowsRuleBounded | app/camera.py:95-125 | along any trace of the failure-count rule started from 0, the count stays at most 11 and is 0 whenever the client is connected, so every wait is in [0, 16] s |
| OpcUa.OpcUaClient.GeneratePulse | app/camera.py:239-245 | the pulse is handed to the pool and True is returned at once |
| OpcUa.OpcUaClient.ExecutePulse | app/camera.py:247-265 | when disconnected, one forced connect is made first and is the only connection attempt; the writes are exactly none (still disconnected), a failed True write, or a successful True write followed by the False write, all to the signal's configured node; the client ends connected iff the connect (if needed) and both writes succeeded; attempt time and node handles follow the forced connect |
| OpcUa.TwoConnectsWithinInterval | app/camera.py:159-164 | two unforced connects less than 5 s apart open at most one session between them |
| OpcUa.WriteValueDeadlocksWhenDisconnected | app/camera.py:213-217 | as written, a write while disconnected re-acquires the non-reentrant lock and blocks forever holding it, so every later `connect` blocks too |
| OpcUa.WriteValueCorrectedCompletes | app/camera.py:152-154 | with the connect made under the already-held lock, every write returns and leaves the lock free |
| OpcUa.WriteValueLockingAsWritten | app/camera.py:213-217 | the lock behaviour of `write_value` as written: it blocks exactly when the client is disconnected, and then leaves the lock held |
| StatusApi.SharedState.constructor | run.py:17-22 | detection is enabled from the start and the last detection is `{pizza: False, blister: False, timestamp: None}` |
| StatusApi.SharedState.StartDetection | run.py:47-52 | enables detection and reports success, touching nothing else |
| StatusApi.SharedState.StopDetection | run.py:54-59 | disables detection and reports success, touching nothing else |
| StatusApi.StatusSignals | run.py:86-89 | the two PLC bits are never both set; with boolean entries they are pizza∧¬blister and pizza∧blister; a missing `pizza` entry gives both false |
| StatusApi.StatusCounters | run.py:64-77 | the response's counter entries always equal the counter globals, every other entry of the last detection is kept, and the percentages are 0/0 for no detections and otherwise sum to 100 |
| StatusApi.StatusHealth | run.py:79-91 | `system_status` is "active" iff the camera object exists, `opcua_connected` iff a client exists and is connected, and `detection_enabled` is passed through |
| StatusApi.Status | run.py:61-92 | the response passes `detection_enabled` through, holds every key of the last detection plus the three counter and two percentage keys, never sets both PLC bits, reports a connection only for an existing connected client, and `system_status` is "active" or "initializing" |
| DetectionLoop.FailedCaptureAddsNothing | app/camera.py:362-368 | a failed capture adds no classification, so it neither pulses nor counts |
| DetectionLoop.FailuresThenFrame | app/camera.py:362-368 | any number of failed captures before a good frame leave the loop exactly as if they had not happened: the loop acts on the good frame alone |
| DetectionLoop.DefaultConfigExample | app/camera.py:378-393 | with the configured class identifiers (pizza 1, blister 0), a 640 × 480 frame with a pizza box and a blister box inside the zone raises both flags with their confidences, and a blister box crossing the zone edge is ignored |
| DetectionLoop.StatusMirrorsEdgeState | app/camera.py:461-474 | after a frame, the PLC bits that `/status` derives from the published dictionary equal `previous_red` and `previous_green` |
| DetectionLoop.IterateRuns | app/camera.py:355-474 | the iterations of the loop over any captures leave the edge state, counters and pulses equal to `Run` over the classifications of the captured frames |
| DetectionLoop.IterateExtends | app/camera.py:402-427 | the iterations only append pulses, and every appended pulse is handed to the client in order |
| DetectionLoop.IterateShowsLast | app/camera.py:438-474 | after the iterations the latest detections and the published dictionary are those of the last captured frame, or unchanged when none was captured |
| DetectionLoop.GetDetectionFlags | app/camera.py:537-572 | the per-viewer loop yields the same flags as `Classified` and publishes pizza, blister, confidences, connection state and timestamp when a shared state is given |
| DetectionLoop.BackgroundDetection.constructor | app/camera.py:355-357 | the loop starts with both edge flags false and no pulses |
| DetectionLoop.BackgroundDetection.Act | app/camera.py:396-436 | the loop's edge branch follows `Step`, and every pulse it records is the one handed to the client |
| DetectionLoop.BackgroundDetection.ProcessFrame | app/camera.py:360-474 | one iteration is `Next`: a failed capture changes nothing; a captured frame is classified over its zone, stepped, stored as latest detections, the 11-key dictionary (counters after the step) is published, and the step's pulse is handed to the client |
| DetectionLoop.BackgroundDetection.RunLoop | app/camera.py:355-489 | over any sequence of captures the loop's state equals `Run` over the classifications of the captured frames, so every `Run` lemma holds of it; pulses are only appended and all reach the client; the latest detections and the published dictionary are those of the last captured frame (counters as they stand at the end), or unchanged when no frame was captured |

## Left out

- Detector, camera and drawing: YOLO inference, OpenCV capture, rectangles, dots and JPEG encoding are not modelled. Boxes and frame sizes are inputs.
- `round(conf * 100, 1)`: the confidence percentage is an input per box. The rounding and the float conversion are not modelled, and floats are modelled as exact reals.
- Threads, locks (other than the finding), the worker pool, the background threads' start-up and every `time.sleep` are not modelled. Each method runs alone, so interleavings of pulse threads, the reconnect loop and the detection loop are not covered.
- OpcUa.OpcUaClient.ReconnectLoop: the bound of 11 failures and 16 s assumes no other thread changes `connected` between iterations and that no iteration raises. The exception handler at app/camera.py:127-130 increments the count even while connected, so "0 whenever connected" does not hold on that path. Over the whole loop it states the connection states, the counts, the waits and that no node is written or pulse dispatched; the log, the client recreations, the attempt times and the node handles are stated per iteration by `ReconnectIteration` but not accumulated over the loop.
- OpcUa.OpcUaClient.ExecutePulse: the same clock reading serves every connect within one pulse, and the 0.1 s pause is not modelled.
- Exceptions: the model assumes no exception is raised where the code catches one. The handler of the reconnection loop (app/camera.py:127-130) increments the failure count and sleeps `reconnect_interval`. The handler of the detection loop (app/camera.py:487-489) abandons the rest of the iteration, so whatever of the edge step, the stored detections and the publication had not yet run is skipped, and sleeps 1 s. The outer handlers of the pulse threads only log. None of these paths is modelled.
- The `OPCUA_AVAILABLE` path without the library, `start_reconnect_thread`, `cleanup` and `_reconnect_loop`'s stop flag are not modelled. The loops are modelled over finite sequences of iterations.
- `initialize_model`, `get_frame`, `generate_frames`, the Flask routes other than the three above, JSON encoding, `utils.py`, `plc_client.py`, `detector.py` and `routes.py` are not part of this model.
- StatusApi.StatusSignals: Python's `and` yields one of its operands, not a bool. The model states the bits as booleans through truthiness.
- The timestamp comes from `datetime.now()`. It is an input string.
- DetectionLoop.BackgroundDetection.RunLoop: the shared-state reference is fixed when the loop object is built. In the code the loop re-reads `self.shared_state` on every iteration (app/camera.py:461), and each `get_frame` call replaces it (app/camera.py:579), so a viewer can redirect or drop the publication while the loop runs.

## Findings

| source | as written | input that shows it | evidently intended | confidence | as-written member | corrected member |
|---|---|---|---|---|---|---|
| app/camera.py:69, 154, 215-217 | `write_value` holds the client's non-reentrant `threading.Lock` while calling `connect`, which takes the same lock again | a pulse while the PLC is unreachable: the forced reconnect fails, then `write_value` is entered with `connected` false | the connect inside `write_value` runs under the lock already held (or the lock is an `RLock`), so the call returns False | not executed | OpcUa.WriteValueDeadlocksWhenDisconnected | OpcUa.WriteValueCorrectedCompletes |
