# Plant-disease spray controller — Dafny model

This project models the spray-decision core of a plant-disease sprayer.

A laptop server classifies the centre of each camera frame. Its two classifiers decide plant or no plant, then the severity: healthy, low, medium or high. It smooths those verdicts over the last 20 frames, with an exponential moving average of the confidence and a majority vote over the labels. A hysteresis counter lets a visible plant survive a few low-confidence frames.

Sprays are decided in two places:

- **The local trigger.** The processing loop starts a timed spray when these all hold:
  - the stable severity is in the table `low 2 s`, `medium 3 s`, `high 5 s`;
  - the soil is dry;
  - humidity and temperature are reported and below their limits;
  - the motor is off.
- **The remote poll.** A Raspberry Pi node posts its soil moisture to `/process` and gets `RUN`/`STOP` with a duration back:
  - a pending force-spray request wins and is consumed;
  - otherwise the same gate decides, without the motor check.

The Pi converts its raw ADC reading into a clamped percentage. It drives the pump relay from the reply and always ends an iteration with the relay off.

`main3.py` and `main.py` contain the same algorithms with two different constants. The model is one parameterised server:

| | confidence threshold | plant threshold |
|---|---|---|
| `SprayPolicy.Main3Config` (main3.py) | 45.0 | 0.6 |
| `SprayPolicy.MainConfig` (main.py) | 35.0 | 0.99 |

Modules:

- **`Options`**: optional values. A sensor that never reported, or a JSON field that is missing.
- **`Deques`**: `collections.deque(maxlen=n).append` as a function on sequences. Used for:
  - the 20-entry history;
  - the 50-entry activity log;
  - the one-slot frame buffers.
- **`Labels`**:
  - the severity classes;
  - the label strings `"<class> (<conf>%)"` and `"No Plant Detected"`;
  - the severity token (the first space-separated word).
- **`Stabiliser`**:
  - the EMA, computed by a loop method and specified by a recursive function;
  - the majority vote;
  - the hysteresis decision of one call;
  - replays of many calls, which state the hysteresis window.
- **`SprayPolicy`**:
  - the constants and the duration table;
  - the environmental gate, the local trigger and the remote gate;
  - the poll decision;
  - the centre crop;
  - the history entry built from the classifiers' output.
- **`Server`**: the class `PlantServer`, whose fields are the server's globals. Each handler, each loop body and each half of a spray session is one atomic method.
- **`PiClient`**:
  - the moisture conversion;
  - the relay actions of one exchange;
  - the class `PiNode` with the sensor-and-motor loop. The loop is proved to leave a well-formed relay history: every switch-on is followed by a positive hold and a switch-off.
- **`Scenarios`**: short runs of a fresh server under either configuration, with their outcomes stated.

Each classifier, the HTTP exchange and the relay hardware is a parameter:

- the classifiers are a function from frame and crop to a `Classification`;
- the exchange is a function from the iteration number and the moisture sent to an optional reply, so the server may answer the same moisture differently in different iterations;
- the relay is a ghost log of actions.

## Model

| member | source | states |
|---|---|---|
| Deques.Append | main.py:129-137 | A bounded append keeps at most `maxLen` elements. It grows by one until full. It is always the newest elements of `s + [x]`. |
| Deques.AppendKeepsOrder | main.py:114-137 | The new entry is last. Below capacity the old entries are kept unchanged. At capacity the oldest is dropped and the rest keep their order. |
| Deques.SlotKeepsLatest | main.py:117-118 | A one-slot buffer written with `a` and then `b` holds exactly `b`, and a `popleft` after that leaves it empty. |
| Labels.ClassName | main3.py:40 | Every class name is non-empty and has no space, so it survives `split(" ")[0]` intact. |
| Labels.FirstToken | main3.py:301 | The first token is a space-free prefix of the string, ended by a space or by the end of the string. |
| Labels.LabelText | main3.py:275-278 | The text of a history label: `"<class> (<conf>%)"`, or "No Plant Detected". `Labels.LabelTextInjective` shows that distinct labels give distinct texts. |
| Labels.Severity | main3.py:301 | The severity token of a label: the class name, or `"No"` for the sentinel. `Labels.SeverityIsFirstToken` shows that this is `split(" ")[0]` of the label text. |
| Labels.FirstTokenOfJoin | main3.py:275 | For a space-free `a`, the first token of `a + " " + b` is `a`. |
| Labels.SeverityIsFirstToken | main3.py:301 | The severity of a label is the first token of its text: `"No"` for "No Plant Detected", else the class name. |
| Labels.ClassNameInjective | main3.py:40 | Distinct classes have distinct names. |
| Labels.LabelTextInjective | main3.py:275 | Distinct labels have distinct texts, so voting on labels is voting on the strings. |
| Stabiliser.Ema | main3.py:128-130 | The EMA defined over the history: the first confidence, then `0.1 * c + 0.9 * previous` for each later entry. It is bounded by `Stabiliser.EmaBetweenExtremes` and computed by `Stabiliser.SmoothedConfidence`. |
| Stabiliser.SmoothedConfidence | main3.py:128-130 | The smoothing loop computes the EMA of the history: start at the first confidence, then `0.1 * c + 0.9 * previous`. |
| Stabiliser.EmaBetweenExtremes | main.py:151-156 | The smoothed confidence lies between the smallest and the largest confidence in the history. |
| Stabiliser.EmaWithin | main.py:151-156 | If every confidence lies within `[lo, hi]`, so does the smoothed value. |
| Stabiliser.ValidLabels | main3.py:131 | The valid labels hold each real label exactly as often as it occurs in the history, and never the sentinel. |
| Stabiliser.Majority | main3.py:131-132 | The majority label: the most common label among the non-sentinel entries, or the sentinel when there are none. `Stabiliser.MajorityIsSentinelIff` and `Stabiliser.MajorityIsMostVoted` state both halves. |
| Stabiliser.MostCommonAmong | main3.py:132 | The chosen label is one of the candidates, and no candidate occurs more often. |
| Stabiliser.SingleEntry | main3.py:128-132 | A one-entry history smooths to its confidence and votes for its label. |
| Stabiliser.MajorityIsSentinelIff | main3.py:131-132 | The majority is "No Plant Detected" exactly when every entry is the sentinel. |
| Stabiliser.MajorityIsMostVoted | main3.py:131-132 | A real majority occurs in the history, and no real label occurs more often. |
| Stabiliser.UniformHistoryMajority | main3.py:131-132 | A history whose entries all carry one real label votes for that label. |
| Stabiliser.Decide | main3.py:133-144 | The decision of one call on a non-empty history. A confident smoothed value shows the majority and resets the state. Otherwise a visible plant whose incremented counter stays below 5 keeps the majority in green; else the reading is "No Plant Detected" in red and the state is reset. |
| Stabiliser.Step | main3.py:126-144 | One call of the stabiliser: an empty history reports the sentinel and leaves the state alone, otherwise `Decide` on the history's EMA and majority. The `Step` lemmas below state its properties. |
| Stabiliser.EmptyHistoryStep | main3.py:126-127 | An empty history reports ("No Plant Detected", red, 0.0) and leaves the visibility state unchanged. |
| Stabiliser.StepSettles | main3.py:137-144 | After any call on a non-empty history, the counter is below 5, and it is 0 whenever the plant is not visible. |
| Stabiliser.ConfidentStep | main3.py:133-136 | A smoothed confidence at or above the threshold shows the majority in green, sets the plant visible and resets the counter. |
| Stabiliser.UniformHistoryShown | main3.py:137-140 | A visible plant whose counter has room keeps showing the label of a uniform history, in green. |
| Stabiliser.NoPlantHistory | main3.py:126-144 | A history of sentinel entries only always reports "No Plant Detected" with confidence 0.0, whatever the state. The colour is green exactly when the history is non-empty and the hysteresis still holds (plant visible, incremented counter below 5), and red otherwise. |
| Stabiliser.LowFramesStayHidden | main3.py:137-144 | From the invisible state, a run of low-confidence frames reports "No Plant Detected" every time and stays invisible. |
| Stabiliser.HysteresisState | main3.py:138-144 | From a visible plant that has missed `k` frames, `n` more low frames leave the counter at `k + n` while below 5, and invisible with 0 otherwise. |
| Stabiliser.HysteresisWindow | main3.py:138-144 | From a visible plant that has missed `k` frames, the `i`-th further low frame shows its majority while `k + i + 1 < 5`, and "No Plant Detected" from then on. |
| Stabiliser.FifthLowFrameFlips | main.py:165-177 | From a freshly visible plant, four low frames still show the majority. The fifth shows "No Plant Detected" and resets both fields. |
| Stabiliser.SingleMissDoesNotFlip | main3.py:133-140 | A single low frame inside a confident run does not flip the display, and the next confident frame resets the counter. |
| SprayPolicy.EnvironmentAllows | main3.py:303-305 | The environmental part of both gates: moisture below 40, humidity reported and below 70, temperature reported and below 30. |
| SprayPolicy.LocalTrigger | main3.py:301-307 | The local auto-trigger: the severity is in the table, the environment allows it, and the motor is off. `SprayPolicy.LocalTriggerIff` spells it out per label. |
| SprayPolicy.RemoteGate | main3.py:345-348 | The gate of `/process`: the severity is in the table, it is not the sentinel, and the environment allows it. There is no motor check (`SprayPolicy.RemoteGateIsLocalWithoutMotor`). |
| SprayPolicy.SeverityInTableIff | main3.py:59-63 | A label's severity is in the duration table exactly for low, medium and high, with durations 2, 3 and 5. |
| SprayPolicy.LocalTriggerIff | main3.py:301-307 | The local trigger fires exactly when all of these hold: the label is low, medium or high; moisture < 40; humidity is present and < 70; temperature is present and < 30; the motor is off. A missing reading, a healthy plant or no plant never triggers. |
| SprayPolicy.RemoteGateIsLocalWithoutMotor | main3.py:345-348 | The `/process` gate is the local trigger with the motor check left out. |
| SprayPolicy.PollDecision | main3.py:337-355 | A pending force gives RUN/3. Otherwise the reply is RUN exactly when the gate holds, with the table duration. Every reply has duration 0, 2, 3 or 5, and RUN exactly when that duration is positive. |
| SprayPolicy.PollWithoutForce | main.py:391-397 | Without a force request, the poll answers RUN for a label exactly when the local trigger would fire with the motor off. |
| SprayPolicy.CentreCrop | main3.py:255-258 | The crop is 300 by 300 and centred, with at most one pixel of asymmetry. For frames of at least 300 pixels it lies inside the frame. |
| SprayPolicy.HistoryEntry | main3.py:270-278 | A plant probability at or below the threshold gives ("No Plant Detected", 0.0). Otherwise the entry carries the predicted class and its confidence. |
| Server.PlantServer.constructor | main.py:83-126 | The start-up state: empty history, invisible plant, motor off, STOP/0, moisture 0.0, no temperature or humidity, "No Plant Detected"/0.0, no force request, empty log and buffers. The start-up log entries are written next by `StartMain3` or `StartMain`. |
| Server.PlantServer.StartMain3 | main3.py:1546-1550 | From the empty start-up log, main3.py's three start-up entries are logged in order: camera resolution, start message, analysis zone of 300. |
| Server.PlantServer.StartMain | main.py:1261 | From the empty start-up log, main.py's single start-up entry is logged. |
| Server.PlantServer.AddLog | main3.py:97-106 | Appends one entry to the 50-entry log, dropping the oldest when full. |
| Server.PlantServer.StablePrediction | main.py:140-177 | The returned reading and the new visibility state are one step of the stabiliser on the history from the old state. |
| Server.PlantServer.Capture | main3.py:1506-1511 | A frame that was read overwrites the raw-frame slot; a failed read leaves it alone. |
| Server.PlantServer.ProcessFrame | main3.py:245-309 | With no frame, nothing changes. Otherwise the frame is consumed, and its classification is appended to the 20-entry history. The stabiliser step updates the visibility state and gives the latest plant and the rendered output. A spray is launched with the severity exactly when the local trigger holds. |
| Server.PlantServer.Publish | main.py:327-344 | The reading becomes the latest plant and the newest rendered frame. A launch happens exactly when the local trigger holds for its severity. |
| Server.PlantServer.LatestRendered | main.py:354-355 | The stream sees the newest rendered frame, if any, without removing it. |
| Server.PlantServer.StartSpray | main.py:188-198 | An unknown severity changes nothing. A known one turns the motor on for the table duration, records the start time and logs the start. |
| Server.PlantServer.FinishSpray | main3.py:160-166 | Turns the motor off, clears the in-progress, freeze and prompt fields, and logs the stop with the session duration. |
| Server.PlantServer.Process | main.py:368-407 | Stores the posted moisture (0.0 when absent) and answers with the poll decision on the latest plant's severity. The force flag is consumed, and the command and duration are recorded. A forced or automatic RUN is logged. |
| Server.PlantServer.Dht22 | main3.py:360-367 | The latest temperature and humidity are the posted ones, missing fields included. |
| Server.PlantServer.Force | main.py:442-448 | Sets the force flag, logs the request and changes nothing else. |
| Server.PlantServer.Status | main.py:429-439 | The motor reads "ON" exactly while it runs, and "OFF" otherwise. The other fields are the latest plant text, confidence, moisture, temperature and humidity. |
| PiClient.Clamp | pi_client.py:61 | The result lies in `[0, 100]`. It equals the input inside that range and the nearer bound outside it. |
| PiClient.SoilMoisture | pi_client.py:58-61 | The moisture percentage always lies in `[0, 100]`. |
| PiClient.SoilMoistureExtremes | pi_client.py:56-61 | A raw reading of 0 or less gives 100 %. A reading at or above 26000 gives 0 %. In between the value is `100 - raw / 26000 * 100`. |
| PiClient.SoilMoistureAntitone | pi_client.py:56-61 | A higher (drier) raw reading never gives a higher percentage. |
| PiClient.RelayActions | pi_client.py:119-140 | Every exchange ends with the relay off. The relay is switched on exactly when the reply says "RUN" with a positive duration, and a missing duration counts as 0. A run is on, hold for the duration, off. |
| PiClient.Bracketed | pi_client.py:128-140 | A well-formed relay history: blocks of a switch-on, a positive hold and a switch-off, and lone switch-offs. The relay is therefore off at the end. |
| PiClient.BracketedAppend | pi_client.py:114-142 | Two well-formed relay histories in a row are well formed. |
| PiClient.RelayActionsBracketed | pi_client.py:128-140 | The relay actions of every exchange, failed ones included, form a well-formed history. |
| PiClient.SwitchOnIsFollowedByOff | pi_client.py:128-133 | In a well-formed history every switch-on is followed by a positive hold and then a switch-off. |
| PiClient.LoopActions | pi_client.py:114-142 | The relay actions of a run of loop iterations. Each iteration posts the converted reading and applies the actions of that iteration's reply. |
| PiClient.LoopActionsBracketed | pi_client.py:114-142 | Whatever each iteration's reply is, any number of loop iterations leaves a well-formed relay history, so the pump is never left on. |
| PiClient.ForcedRunThenStop | pi_client.py:114-142 | At a steady reading, a forced RUN for 3 s followed by a STOP pumps once and then only switches the relay off. |
| PiClient.PumpFollowsServer | pi_client.py:123-129 | For every reply the server can send, the node switches the pump on exactly for RUN and holds it for the server's duration. STOP only switches it off. |
| PiClient.PiNode.constructor | pi_client.py:30-45 | The node starts with moisture 0.0, the relay off and no relay actions. |
| PiClient.PiNode.ReadSoilMoisture | pi_client.py:48-61 | The shared moisture becomes the converted, clamped reading. |
| PiClient.PiNode.ApplyReply | pi_client.py:119-140 | Appends exactly the relay actions of the reply, keeps the relay history well formed and leaves the relay off. |
| PiClient.PiNode.Iterate | pi_client.py:115-140 | Iteration `i` reads the sensor, exchanges the new moisture and applies that reply's relay actions. |
| PiClient.PiNode.Loop | pi_client.py:114-142 | After a run of iterations the relay history is extended by exactly their actions, in order, and stays well formed with the relay off. The moisture is that of the last reading. |
| Scenarios.HighSeveritySprays | main3.py:149-166 | Dry soil, 50 % humidity, 22 °C and a "high" plant launch a spray. It runs for 5 s and ends with the motor off. |
| Scenarios.HumidAirBlocksSpray | main3.py:302-306 | The same with 75 % humidity launches nothing, and the motor stays off. |
| Scenarios.ForceIsConsumedOnce | main3.py:337-356 | A healthy plant with a force request gets RUN/3 once. The flag is then clear, and the next poll gets STOP/0 from the gate. |
| Scenarios.PollWhileSpraying | main3.py:343-352 | A poll while the motor runs still answers RUN/5 for a "high" plant: the handler does not look at the motor. |
| Scenarios.LaunchesCanOverlap | main3.py:302-307 | Two frames processed before the first spray starts both launch a spray: the motor check and the start are separate steps. |
| Scenarios.LatestFrameWins | main.py:279-283 | Of two frames captured before the processing loop runs, only the newer one is processed and shown. |

## Left out

- The two classifiers are not modelled; their output is an input (`Classification`), and the image pre-processing is left out with them. Both are foreign TensorFlow and OpenCV calls.
- All drawing is left out: the targeting overlay, the text on the frame and the JPEG encoding. The rendered output records the reading and the original frame.
- Flask routing, JSON parsing and the MJPEG stream are left out. Handlers take the parsed fields as `Option` values.
- `Server.PlantServer.Process`: a JSON `null` moisture is treated like a missing key and becomes 0.0. The source stores `None`. Once the severity is in the table, comparing `None` raises: in `/process` (main3.py:345-346), and in the processing loop's trigger (main3.py:302-303), which ends that thread.
- Threads, locks and `time.sleep` are left out:
  - Each handler and each loop body is one atomic step.
  - A spray session is two steps, `StartSpray` and `FinishSpray`, so there is no no-overlap claim. The local check of the motor and its start happen in different steps (`Scenarios.LaunchesCanOverlap`), and `/process` never looks at the motor.
- The infinite loops are modelled over a finite sequence of inputs (`PiNode.Loop`) or as single passes (`ProcessFrame`, `Capture`).
- Floating-point arithmetic is modelled with exact reals.
- Label formatting (`f"{conf:.1f}%"`) is an opaque text carried by the label.
- Log messages are an `Event` value; their wording and the `datetime` timestamps are left out.
- The majority tie-break in the source depends on set iteration order. `Stabiliser.Majority` takes the first maximum in history order. The lemmas promise only "some label of maximal count".
- The freeze-mode, spray-in-progress and on-screen prompt fields are only ever cleared in the modelled code. They are kept as fields, but nothing sets them.
- The frozen frame (`frozen_frame` in main3.py, `saved_frame` in main.py) is assigned only at start-up and never read or cleared. It has no field in the model.
- `Server.PlantServer.FinishSpray`: logs the session duration stored on the server, as `main3.py` does (`spray_duration`, a global). `main.py` logs its thread-local `duration`, which can differ when two sessions overlap.
- `Server.PlantServer.Status`: does not model `main3.py`'s `round(confidence, 1)`; the confidence is reported unrounded, as in `main.py`.
- `PiClient.SoilMoisture`: does not model `round(..., 1)` on the percentage. The bounds and monotonicity are stated for the unrounded value.
- `Server.PlantServer.Process`: the automatic RUN is logged as `AutoSpray(severity, duration)` in both files. `main3.py`'s message does not mention the duration.
- The `/status` and `/logs` JSON encodings, `/video_feed` and the dashboard page are left out as transport and UI.
- The log entries written by the camera monitor on a reconnect and by main3.py on shutdown are left out with the camera handling and the process lifecycle.
- `dht22_client.py` is not part of this model. Neither are the Pi's camera stream and its GPIO/ADC set-up.
- `/process` never looks at the motor: a poll while a spray runs is answered from the force flag and the gate (`Scenarios.PollWhileSpraying`).
