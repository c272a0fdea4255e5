# Smart waste bin — a verified model

The smart waste bin has three parts:

- **Controller.** An ESP32 that watches a PIR motion sensor and an ultrasonic level sensor. It drives two lids (organic and non-organic compartments) with servos, shows its state on an RGB LED, and posts its fill levels to a backend.
- **Classifier node.** An ESP32-CAM. On request over the CAN bus it photographs the item, asks the backend what material it is, and answers on the bus with `MATERIAL:<label>`.
- **Backend.** A FastAPI service that keeps an in-memory table of bins (`bins_db`). It updates the table from the controller's reports and serves statistics.

The model follows the code's own structure:

- **`Wrappers`**: `Option` and `Result`.
- **`Millis`**: the 32-bit `unsigned long` clock. Its differences wrap modulo 2^32.
- **`Bus`**: CAN frames as `(id, payload)`, the detection request `0x100 "DETECT_MATERIAL"`, and the answer `0x200 "MATERIAL:<label>"`, together with the controller's parse of the answer.
- **`LevelMonitor`**: the pure part of `updateBinLevel`. Each pass of the loop takes the integer that `map(distance, 5, 50, 100, 0)` returns; from it come `constrain`, the estimated weight and the 9 kg "full" threshold. The distance-to-level step (Arduino `map` in integer arithmetic) is modelled on its own and tied to the loop's reading only through `FullWithinNineCentimetres`.
- **`ControllerSpec`**: the controller's globals as one record `Vars`, with one pure function per firmware routine:
  - `updateBinLevel`, `handleMotionDetection`, `handleMaterialDetection`, `openBin`, `closeBin` and `updateLEDs`;
  - one function per `switch` case of `loop()`;
  - `Step`, which is one pass of `loop()` from `updateBinLevel` on;
  - the manual surface: `/api/maintenance`, `/api/open`, `/api/close`, the websocket commands and the keypad.

  The record also has an invariant `Consistent`.
- **`ControllerProperties`**: what one pass does in each state, what two passes do, and properties over any run of passes. A full reading is absorbing, the invariant holds throughout, and held motion keeps the lid open.
- **`Controller`**: `class BinController`. Its fields are the firmware's globals, updated in place. `Tick` is the state-machine part of `loop()`, and each helper is a method proved equal to its `ControllerSpec` function. The bus and the backend are output queues (`outbox`, `reports`).
- **`Classifier`**: the camera node's request filter, `detectMaterial` and `sendToBackend`. The node is `class ClassifierNode`. The backend's reply is an input value `ServiceReply`.
- **`Protocol`**: the two boards together. A request reaches the classifier, and its answer selects the matching lid. A failed exchange leaves the previous choice in place.
- **`Backend`**: `bins_db` as a map plus its insertion order, `class BinStore` with `update_bins`, `reset_bin`, `get_bin_status`, `get_all_bins` and `get_statistics`, and lemmas about the statistics' sums.
- **`Reporting`**: the controller's report as the backend receives it (see Findings).

Time, sensor readings, received frames and backend replies are parameters of each pass. Within one pass every `millis()` call returns the same `now`.

## Model

| member | source | states |
|---|---|---|
| Millis.Elapsed | smart_waste_bin_firmware_/src/main.cpp:171 | `millis() - since` on `unsigned long`: adding it back to `since` modulo 2^32 gives `now`; it equals `now - since` without a wrap and `2^32 - since + now` across one wrap |
| Bus.StartsWith | smart_waste_bin_firmware_/src/main.cpp:451 | Arduino `startsWith`: exactly when the prefix fits and the string is the prefix followed by the rest |
| Bus.MaterialResponse | smart_waste_bin_firmware_/src/esp32cam_main.cpp:228-229 | the answer frame has id 0x200 and payload `"MATERIAL:" + label` |
| Bus.ParseMaterial | smart_waste_bin_firmware_/src/main.cpp:449-456 | a frame yields a label exactly when its id is 0x200 and its payload starts with `MATERIAL:`; the label is the rest of the payload, so the frame is `MaterialResponse` of that label |
| Bus.ParseMaterialRoundTrip | smart_waste_bin_firmware_/src/main.cpp:450-452 | the controller reads back exactly the label the classifier put into its answer |
| Bus.RequestIsNotAnAnswer | smart_waste_bin_firmware_/src/main.cpp:177 | the controller's own request frame is never taken for an answer |
| LevelMonitor.TruncDiv | smart_waste_bin_firmware_/src/main.cpp:491 | C integer division, truncating toward zero, for either sign of the dividend |
| LevelMonitor.MultipleBounds | smart_waste_bin_firmware_/src/main.cpp:491 | a nonzero multiple of a positive divisor is at least the divisor away from zero, so an exact C division leaves no remainder |
| LevelMonitor.TruncDivExact | smart_waste_bin_firmware_/src/main.cpp:491 | C division of an exact multiple gives back the factor, whatever its sign |
| LevelMonitor.ArduinoMap | smart_waste_bin_firmware_/src/main.cpp:491 | Arduino `map`: the low end of the input range maps to the low end of the output range and, for an increasing input range, the high end to the high end |
| LevelMonitor.DistanceToLevel | smart_waste_bin_firmware_/src/main.cpp:491 | Arduino `map(distance, 5, 50, 100, 0)`: 5 cm maps to 100, 50 cm to 0, and anything in between into 0..100 |
| LevelMonitor.Constrain | smart_waste_bin_firmware_/src/main.cpp:492 | the result lies in [lo, hi] and equals the input when the input already lies there |
| LevelMonitor.Read | smart_waste_bin_firmware_/src/main.cpp:487-500 | level is the sample constrained to 0..100; weight in [0, 10] kg and equal to level / 10; full exactly when weight is at least 9 kg, that is, exactly when the constrained level is at least 90 |
| LevelMonitor.ReadMonotonic | smart_waste_bin_firmware_/src/main.cpp:491-500 | a higher raw level never gives a lower weight, and a full reading stays full at higher levels |
| LevelMonitor.FullWithinNineCentimetres | smart_waste_bin_firmware_/src/main.cpp:491-500 | a compartment reads full exactly when the measured distance is at most 9 cm, so a distance of 0 (an echo that timed out) reads full and forces BIN_FULL |
| ControllerSpec.Leds | smart_waste_bin_firmware_/src/main.cpp:521-543 | red exactly in BIN_FULL; green exactly in BIN_OPEN; amber exactly when a compartment is full in any other state; blue otherwise |
| ControllerSpec.Initial | smart_waste_bin_firmware_/src/main.cpp:77-92 | the power-on globals: IDLE, both lids at 0 degrees, LEDs blue |
| ControllerSpec.InitialConsistent | smart_waste_bin_firmware_/src/main.cpp:77-150 | the power-on state satisfies the controller invariant |
| ControllerSpec.UpdateBinLevel | smart_waste_bin_firmware_/src/main.cpp:485-505 | both weights and full flags come from the reading; the state becomes BIN_FULL exactly when a compartment is full, and otherwise is kept; nothing else changes |
| ControllerSpec.HandleMotionDetection | smart_waste_bin_firmware_/src/main.cpp:434-442 | with the PIR high the motion time becomes `now`, and IDLE moves to DETECTING_MOTION; with the PIR low nothing changes |
| ControllerSpec.HandleMaterialDetection | smart_waste_bin_firmware_/src/main.cpp:445-458 | a received `MATERIAL:` frame on id 0x200 sets the label and the completion flag; any other frame, or none, changes nothing |
| ControllerSpec.BinForLabel | smart_waste_bin_firmware_/src/main.cpp:184-188 | ORGANIC selects bin 1 and NON_ORGANIC selects bin 2; any other label keeps the previous selection |
| ControllerSpec.OpenBin | smart_waste_bin_firmware_/src/main.cpp:461-472 | type 0 writes 90 to the organic servo; any other type writes 90 to the non-organic one; the other servo is unchanged |
| ControllerSpec.CloseBin | smart_waste_bin_firmware_/src/main.cpp:474-482 | type 0 writes 0 to the organic servo; any other type writes 0 to the non-organic one; the other servo is unchanged |
| ControllerSpec.CloseBinIdempotent | smart_waste_bin_firmware_/src/main.cpp:474-482 | closing a lid twice is the same as closing it once |
| ControllerSpec.Report | smart_waste_bin_firmware_/src/main.cpp:579-586 | the report carries ids 1 and 2, the current weights and full flags, and `now`; for a consistent controller both weights agree and each flag says whether the weight reaches 9 kg |
| ControllerSpec.OnIdle | smart_waste_bin_firmware_/src/main.cpp:165-168 | the IDLE case: motion moves to DETECTING_MOTION and stamps `now`; the LEDs show the new state; no lid moves and nothing is sent (one-pass form: `MotionStartsDetection`, `NoMotionStaysIdle`) |
| ControllerSpec.OnDetectingMotion | smart_waste_bin_firmware_/src/main.cpp:170-179 | the DETECTING_MOTION case: IDLE exactly when more than 5000 ms have passed since the motion, and then nothing is sent; otherwise ANALYZING_MATERIAL, start time `now` and exactly the detection request (`MotionConfirmTimesOut`, `MotionConfirmSendsRequest`) |
| ControllerSpec.OnAnalyzingMaterial | smart_waste_bin_firmware_/src/main.cpp:181-198 | the ANALYZING_MATERIAL case: an answer leads to OPENING_BIN; past the timeout it is OPENING_BIN, UNKNOWN and the organic bin; with neither, nothing changes; the completion flag is always left clear (`AnswerSelectsBin`, `ClassificationTimesOut`, `OtherMessagesKeepWaiting`) |
| ControllerSpec.OnOpeningBin | smart_waste_bin_firmware_/src/main.cpp:200-218 | the OPENING_BIN case: BIN_OPEN exactly when the selected compartment is known and not full, with its lid open and the open time `now`; otherwise only the state changes, to IDLE (`OpeningOpensSelectedLid`, `OpeningWithoutChoiceReturnsToIdle`) |
| ControllerSpec.OnBinOpen | smart_waste_bin_firmware_/src/main.cpp:220-230 | the BIN_OPEN case: the LEDs show BIN_OPEN; CLOSING_BIN exactly when there is no fresh motion and more than 3000 ms have passed since opening; fresh motion restamps the motion time (`MotionKeepsLidOpen`, `LidClosesAfterDelay`) |
| ControllerSpec.OnClosingBin | smart_waste_bin_firmware_/src/main.cpp:232-241 | the CLOSING_BIN case: the selected lid closes (non-organic for anything but bin 1), IDLE, and exactly one report of the current levels when online (`ClosingClosesSelectedLid`) |
| ControllerSpec.RunStateMachine | smart_waste_bin_firmware_/src/main.cpp:164-250 | the `switch`: a frame is sent only from DETECTING_MOTION and is the request; a report only from CLOSING_BIN while online; BIN_FULL stays BIN_FULL; MAINTENANCE_MODE changes nothing |
| ControllerSpec.Run | smart_waste_bin_firmware_/src/main.cpp:247-249 | over any run of passes whose samples stay below full, MAINTENANCE_MODE changes nothing but the levels |
| ControllerSpec.Step | smart_waste_bin_firmware_/src/main.cpp:161-250 | one pass: a full reading, or either full flag, ends in BIN_FULL; BIN_FULL is never left; no pass sets the completion flag when it was clear; at most one frame and at most one report per pass |
| ControllerSpec.ToggleMaintenance | smart_waste_bin_firmware_/src/main.cpp:359-367 | MAINTENANCE_MODE goes to IDLE and any other state goes to MAINTENANCE_MODE; only the state changes |
| ControllerSpec.ManualOpen | smart_waste_bin_firmware_/src/main.cpp:325-340 | 200 and that lid opened for `organic`/`non_organic` when the compartment is not full; 400 and no change for a full compartment, an unknown name or a missing parameter |
| ControllerSpec.ManualClose | smart_waste_bin_firmware_/src/main.cpp:343-356 | 400 and no change when the parameter is missing; 200 and that lid closed for `organic`/`non_organic`; no reply and no change for any other name |
| ControllerSpec.SocketCommand | smart_waste_bin_firmware_/src/main.cpp:414-431 | `open_*` opens that lid unless its compartment is full; `close_*` closes it; every other command leaves the controller unchanged |
| ControllerSpec.CheckKeypad | smart_waste_bin_firmware_/src/main.cpp:546-571 | after the 200 ms debounce, a pressed button whose compartment is not full opens and recloses its lid (net: lid closed); any press restarts the debounce; otherwise nothing changes |
| ControllerProperties.MotionStartsDetection | smart_waste_bin_firmware_/src/main.cpp:165-168 | IDLE with the PIR high: DETECTING_MOTION, motion stamped `now`, nothing sent |
| ControllerProperties.NoMotionStaysIdle | smart_waste_bin_firmware_/src/main.cpp:165-168 | IDLE with the PIR low stays IDLE, keeps the motion time and sends nothing |
| ControllerProperties.MotionConfirmTimesOut | smart_waste_bin_firmware_/src/main.cpp:170-172 | DETECTING_MOTION more than 5000 ms after the motion: back to IDLE, no request |
| ControllerProperties.MotionConfirmSendsRequest | smart_waste_bin_firmware_/src/main.cpp:173-178 | DETECTING_MOTION within 5000 ms: ANALYZING_MATERIAL, start time `now`, exactly one `0x100 DETECT_MATERIAL` frame |
| ControllerProperties.AnswerSelectsBin | smart_waste_bin_firmware_/src/main.cpp:181-191 | an answer within the timeout goes to OPENING_BIN with that label and the bin it names; an unrecognised label keeps the previous bin; the completion flag is cleared |
| ControllerProperties.OtherMessagesKeepWaiting | smart_waste_bin_firmware_/src/main.cpp:181-198 | with no answer and within the timeout, the controller stays in ANALYZING_MATERIAL with label and bin unchanged |
| ControllerProperties.ClassificationTimesOut | smart_waste_bin_firmware_/src/main.cpp:192-197 | past 5000 ms, OPENING_BIN with label UNKNOWN and the organic bin, whatever arrived in the same pass |
| ControllerProperties.OpeningOpensSelectedLid | smart_waste_bin_firmware_/src/main.cpp:200-208 | a selected, non-full compartment: its lid opens, the other lid is untouched, BIN_OPEN, open time `now` |
| ControllerProperties.OpeningWithoutChoiceReturnsToIdle | smart_waste_bin_firmware_/src/main.cpp:209-217 | with no bin selected, the net effect is IDLE with both lids untouched |
| ControllerProperties.OpeningFullBinStaysClosed | smart_waste_bin_firmware_/src/main.cpp:201-217 | with a full reading, no lid opens and the state is BIN_FULL |
| ControllerProperties.MotionKeepsLidOpen | smart_waste_bin_firmware_/src/main.cpp:220-229 | BIN_OPEN with fresh motion stays open and restamps the motion time |
| ControllerProperties.LidClosesAfterDelay | smart_waste_bin_firmware_/src/main.cpp:220-226 | without fresh motion, BIN_OPEN moves to CLOSING_BIN exactly when more than 3000 ms have passed since opening |
| ControllerProperties.ClosingClosesSelectedLid | smart_waste_bin_firmware_/src/main.cpp:232-241 | the selected lid closes (non-organic for anything but bin 1), the state becomes IDLE, and one report is sent exactly when WiFi is up |
| ControllerProperties.MaintenanceHolds | smart_waste_bin_firmware_/src/main.cpp:247-249 | MAINTENANCE_MODE without a full reading stays put and sends nothing |
| ControllerProperties.RequestOnlyOnConfirm | smart_waste_bin_firmware_/src/main.cpp:170-179 | the only frame the controller sends is the detection request, and only when it leaves DETECTING_MOTION for ANALYZING_MATERIAL |
| ControllerProperties.StepConsistent | smart_waste_bin_firmware_/src/main.cpp:161-250 | every pass keeps the controller invariant: servos at 0 or 90, bin 0/1/2, weights in [0,10] and matching the full flags, LEDs never amber |
| ControllerProperties.ManualCommandsConsistent | smart_waste_bin_firmware_/src/main.cpp:325-571 | the maintenance toggle, both HTTP endpoints, websocket commands and the keypad keep the invariant |
| ControllerProperties.ToggleTwice | smart_waste_bin_firmware_/src/main.cpp:359-367 | toggling maintenance twice returns to maintenance from maintenance, and otherwise to IDLE |
| ControllerProperties.FramesIgnoredOutsideAnalysis | smart_waste_bin_firmware_/src/main.cpp:181-182 | frames are read only in ANALYZING_MATERIAL: in every other state a pass is the same whatever frame arrived |
| ControllerProperties.SettledClassificationIgnoresAnswers | smart_waste_bin_firmware_/src/main.cpp:183-197 | once an answer is taken or the timeout fires, the controller is in OPENING_BIN and a late or second answer has no effect on the next pass |
| ControllerProperties.UnconfirmedMotionSendsNothing | smart_waste_bin_firmware_/src/main.cpp:165-172 | motion followed by a pass more than 5000 ms later: back in IDLE and no frame sent |
| ControllerProperties.ConfirmedMotionSendsOneRequest | smart_waste_bin_firmware_/src/main.cpp:165-178 | motion followed by a pass within 5000 ms: exactly one detection request over the two passes |
| ControllerProperties.BinFullPersists | smart_waste_bin_firmware_/src/main.cpp:243-245 | from BIN_FULL, every sequence of passes stays in BIN_FULL |
| ControllerProperties.RunConsistent | smart_waste_bin_firmware_/src/main.cpp:532-536 | every sequence of passes keeps the invariant, so the amber LED branch is never shown by the loop |
| ControllerProperties.HeldMotionKeepsLidOpen | smart_waste_bin_firmware_/src/main.cpp:222-229 | while the PIR stays high and no pass is more than 5000 ms after the previous one, the state stays BIN_OPEN and neither servo moves, so an open lid stays open |
| Controller.BinController.constructor | smart_waste_bin_firmware_/src/main.cpp:77-150 | the object starts in the power-on state with nothing sent |
| Controller.BinController.UpdateBinLevel | smart_waste_bin_firmware_/src/main.cpp:485-505 | the fields become `ControllerSpec.UpdateBinLevel` of the old ones |
| Controller.BinController.HandleMotionDetection | smart_waste_bin_firmware_/src/main.cpp:434-442 | the fields become `ControllerSpec.HandleMotionDetection` of the old ones |
| Controller.BinController.HandleMaterialDetection | smart_waste_bin_firmware_/src/main.cpp:445-458 | the fields become `ControllerSpec.HandleMaterialDetection` of the old ones |
| Controller.BinController.OpenBin | smart_waste_bin_firmware_/src/main.cpp:461-472 | writes the open angle to the chosen servo only |
| Controller.BinController.CloseBin | smart_waste_bin_firmware_/src/main.cpp:474-482 | writes the closed angle to the chosen servo only |
| Controller.BinController.UpdateLeds | smart_waste_bin_firmware_/src/main.cpp:521-543 | the LED output becomes `ControllerSpec.Leds` of the current state and flags |
| Controller.BinController.SendBinDataToBackend | smart_waste_bin_firmware_/src/main.cpp:574-606 | offline: nothing sent; online: exactly one report of both ids, weights, full flags and `now` is appended |
| Controller.BinController.Tick | smart_waste_bin_firmware_/src/main.cpp:161-250 | the fields, bus outbox and report queue become those of `ControllerSpec.Step`, and the invariant is kept |
| Controller.BinController.RunStateMachine | smart_waste_bin_firmware_/src/main.cpp:164-250 | dispatches on the state as the `switch` does; the fields become `ControllerSpec.RunStateMachine` of the old ones |
| Controller.BinController.WatchForMotion | smart_waste_bin_firmware_/src/main.cpp:165-168 | the IDLE case: motion handling, then the LEDs |
| Controller.BinController.ConfirmMotion | smart_waste_bin_firmware_/src/main.cpp:170-179 | the DETECTING_MOTION case: timeout to IDLE, or ANALYZING_MATERIAL and one request frame |
| Controller.BinController.AwaitMaterial | smart_waste_bin_firmware_/src/main.cpp:181-198 | the ANALYZING_MATERIAL case: the answer, then the timeout that overrides it |
| Controller.BinController.OpenSelectedBin | smart_waste_bin_firmware_/src/main.cpp:200-218 | the OPENING_BIN case: opens the selected non-full lid, or falls back to IDLE |
| Controller.BinController.HoldOpenBin | smart_waste_bin_firmware_/src/main.cpp:220-230 | the BIN_OPEN case: LEDs, then stays open on motion or closes after the delay |
| Controller.BinController.CloseSelectedBin | smart_waste_bin_firmware_/src/main.cpp:232-241 | the CLOSING_BIN case: closes the lid, goes to IDLE and reports |
| Controller.BinController.ToggleMaintenance | smart_waste_bin_firmware_/src/main.cpp:359-367 | the state becomes `ControllerSpec.ToggleMaintenance` of the old one; the result says whether maintenance is now on |
| Controller.BinController.ManualOpen | smart_waste_bin_firmware_/src/main.cpp:325-340 | the fields and the reply are those of `ControllerSpec.ManualOpen` |
| Controller.BinController.ManualClose | smart_waste_bin_firmware_/src/main.cpp:343-356 | the fields and the reply are those of `ControllerSpec.ManualClose` |
| Controller.BinController.SocketCommand | smart_waste_bin_firmware_/src/main.cpp:414-431 | the fields become `ControllerSpec.SocketCommand` of the old ones |
| Controller.BinController.CheckKeypad | smart_waste_bin_firmware_/src/main.cpp:546-571 | the fields become `ControllerSpec.CheckKeypad` of the old ones |
| Classifier.IsDetectRequest | smart_waste_bin_firmware_/src/esp32cam_main.cpp:83 | a frame triggers detection exactly when it is the controller's request, id 0x100 with `DETECT_MATERIAL` |
| Classifier.ReplyMaterial | smart_waste_bin_firmware_/src/esp32cam_main.cpp:200-235 | a label exists exactly when WiFi is up, the HTTP code is positive and the body parses, and it is the body's `material` |
| Classifier.ResponsePayload | smart_waste_bin_firmware_/src/esp32cam_main.cpp:199-242 | always starts with `MATERIAL:`; each of the three failures gives `MATERIAL:UNKNOWN`; success gives `MATERIAL:` plus the label |
| Classifier.AnswerRoundTrip | smart_waste_bin_firmware_/src/esp32cam_main.cpp:203-238 | the controller parses every answer the classifier sends, and reads back the label or UNKNOWN |
| Classifier.ClassifierNode.constructor | smart_waste_bin_firmware_/src/esp32cam_main.cpp:36-37 | not detecting, last material UNKNOWN |
| Classifier.ClassifierNode.SendToBackend | smart_waste_bin_firmware_/src/esp32cam_main.cpp:199-242 | appends exactly one 0x200 answer frame; the last material is updated only on success |
| Classifier.ClassifierNode.DetectMaterial | smart_waste_bin_firmware_/src/esp32cam_main.cpp:178-196 | when the capture fails, nothing is sent; otherwise the answer is sent; the node always ends up not detecting |
| Classifier.ClassifierNode.Poll | smart_waste_bin_firmware_/src/esp32cam_main.cpp:82-88 | only a `0x100 DETECT_MATERIAL` frame triggers detection; any other frame changes nothing |
| Classifier.ClassifierNode.TriggerDetection | smart_waste_bin_firmware_/src/esp32cam_main.cpp:275-279 | `/api/detect` runs the detection, with the same outbox and last-material outcome as `detectMaterial`, ends not detecting and replies 200 |
| Protocol.RequestReachesClassifier | smart_waste_bin_firmware_/src/esp32cam_main.cpp:83 | the controller's request passes the classifier's filter, and the classifier's answer does not |
| Protocol.AnswerOpensMatchingLid | smart_waste_bin_firmware_/src/main.cpp:181-208 | an ORGANIC/NON_ORGANIC answer received in time opens that compartment's lid on the next pass, if it is not full |
| Protocol.FailedExchangeKeepsPreviousChoice | smart_waste_bin_firmware_/src/main.cpp:184-189 | a failed classification (label UNKNOWN) keeps the previously selected bin; only the timeout falls back to organic |
| Backend.Trunc | backend/main.py:166 | Python `int()` on a float: the integer toward zero within 1 of the input |
| Backend.LevelFromWeight | backend/main.py:166 | the whole percentage of a 10 kg compartment: in 0..100 for weights in [0, 10], and the floor of weight × 10 |
| Backend.UpdateEntry | backend/main.py:164-168 | a known id takes weight, level and full flag; an unknown id changes nothing; keys, ids, kinds and other entries are kept |
| Backend.ApplyUpdate | backend/main.py:157-183 | both ids are applied in order (the second wins on a repeat): each known entry takes the reported weight and full flag, the level `int(weight / 10 * 100)` and the timestamp `now`; unknown ids are ignored; keys, ids and kinds never change |
| Backend.ResetEntry | backend/main.py:222-238 | 404 exactly when the id is unknown; otherwise that entry has weight 0, level 0, not full, and the others are kept |
| Backend.TotalWeight | backend/main.py:210 | the total weight over the entries, never negative when no weight is |
| Backend.FullCount | backend/main.py:211 | the number of full entries: zero exactly when no entry is full |
| Backend.LevelSum | backend/main.py:212 | the sum of the levels, within 0..100 per entry when each level is |
| Backend.DistinctCardinality | backend/main.py:212-215 | `len(bins_db)` is the number of keys in insertion order |
| Backend.FullCountAtMostCount | backend/main.py:211 | `full_bins` never exceeds `total_bins` |
| Backend.ResetLowersTotals | backend/main.py:210-232 | a reset takes exactly that entry's weight off the total weight, its flag off the full count and its level off the level sum |
| Backend.SumsIgnoreOtherEntries | backend/main.py:210-212 | the statistics' sums depend only on the entries they range over |
| Backend.BinStore.constructor | backend/main.py:28-45 | the table is the initial `bins_db`: `0x001` organic and `0x002` non_organic, both empty, in that order |
| Backend.BinStore.UpdateBins | backend/main.py:157-183 | the table becomes `ApplyUpdate` of the old one and stays well formed |
| Backend.BinStore.ResetBin | backend/main.py:222-238 | 404 and no change for an unknown id; otherwise 200 and the table becomes `ResetEntry` of the old one |
| Backend.BinStore.GetBinStatus | backend/main.py:195-203 | the record exactly when the id is known, otherwise 404 |
| Backend.BinStore.GetAllBins | backend/main.py:185-193 | every record once, in insertion order |
| Backend.BinStore.GetStatistics | backend/main.py:205-220 | error on an empty table (the division by `len`); otherwise the count, full count, total weight and mean level computed over all entries |
| Reporting.DigitChar | smart_waste_bin_firmware_/src/main.cpp:580-581 | the character of a decimal digit, always `0`..`9` |
| Reporting.DecimalText | smart_waste_bin_firmware_/src/main.cpp:580-581 | a number as a JSON document writes it, in decimal: never empty |
| Reporting.DecimalTextDigits | smart_waste_bin_firmware_/src/main.cpp:580-581 | that decimal rendering holds digits only, by induction on the number |
| Reporting.UpdateAsSent | smart_waste_bin_firmware_/src/main.cpp:580-581 | the report as the backend receives it: ids made only of decimal digits, weights carried over |
| Reporting.SentReportUpdatesNothing | smart_waste_bin_firmware_/src/main.cpp:580-581 | as sent, the controller's report updates no entry of a table keyed `0x…` |
| Reporting.InitialKeysAreHexStyle | backend/main.py:28-45 | the keys of the initial `bins_db` (the constant the store starts from) have the `0x…` form |
| Reporting.HexDigit | backend/main.py:29-37 | the character of a hex digit value |
| Reporting.HexDigitInjective | backend/main.py:29-37 | different digit values give different characters |
| Reporting.IdKey | backend/main.py:29-37 | an id written the way the backend keys it: five characters, `0x` followed by three hex digits |
| Reporting.HexDigits | backend/main.py:29-37 | an id below 0x1000 is its three hex digits by place value |
| Reporting.IdKeyInjective | backend/main.py:29-37 | different ids get different keys, so no report entry can update the other compartment |
| Reporting.ControllerIdsKeyTable | backend/main.py:29-37 | the controller's ids 1 and 2 key exactly the backend's `0x001` and `0x002` |
| Reporting.UpdateFromReport | backend/main.py:164-171 | the report with ids keyed as the table is; weights carried over unchanged |
| Reporting.ReportUpdatesBothBins | backend/main.py:164-175 | keyed that way, a report updates both compartments with the controller's weight and full flag, and the backend's level equals the controller's percentage |

## Left out

- Hardware and I/O: camera capture, WiFi setup, CAN driver, HTTP client, JSON (de)serialisation, Serial logging and the web server's HTML and `/capture` are not modelled. The camera's success, the backend's reply, the PIR level, the distance sample and received frames are inputs of each step.
- `getDistance` (echo timing) and the HX711 load cell: the load cell's reading is never used. Each pass takes as its level sample the integer `map(distance, 5, 50, 100, 0)` returns, before `constrain`; `DistanceToLevel` models that `map` call separately.
- `delay()`: all delays take no time, so every `millis()` within one pass is the same `now`. Examples are the 100 ms buzzer pulse in `openBin` before `binOpenTime` is stamped, the 2.5 s in the full-bin branch, and the keypad's 3 s.
- The buzzer is not modelled.
- Controller.BinController.OpenSelectedBin: the transient BIN_FULL held during the fallback branch's `delay(2000)` is not modelled; only the net effect (IDLE) is. Because the web handlers run beside `loop()`, two effects of that window are therefore missing: `/api/status` reports BIN_FULL during it, and a `/api/maintenance` toggle made during it is overwritten by the final `currentState = IDLE`.
- ControllerSpec.CheckKeypad: only the net effect of the open–wait–close sequence is modelled (the lid ends closed). The 3 s during which the lid is open, and the stale `millis()` after the delay, are not.
- Status pushes: `get_status` on the websocket, `sendWebSocketStatus`, `/api/status` and the classifier's `/api/material` only read state and are not modelled.
- Floats are reals, so float rounding is not modelled (Python's `int(0.7 / 10 * 100)` is 6, for instance). Python's `round(avg_level, 2)` in `/api/stats` is not modelled: the mean is exact.
- Timestamps (`datetime.now().isoformat()`) are an input string.
- `MaterialClassifier` (the backend's image classifier) and `/api/detect` on the backend are not part of this model; their result enters as the label in `ServiceReply`.
- The constant `BIN_OPEN_TIMEOUT` is declared but never used by the firmware.
- Request validation by pydantic is not modelled: a body whose fields do not parse is refused before `update_bins` runs. In the Findings row, either coercion or refusal leaves the table unchanged.
- Concurrency between the web server's callbacks and `loop()`: a manual command is modelled as an atomic step between passes, so a command that lands inside a pass (during one of its `delay()` calls) is not modelled.

## Findings

| source | as written | input that shows it | evidently intended | confidence | as-written member | corrected member |
|---|---|---|---|---|---|---|
| smart_waste_bin_firmware_/src/main.cpp:580-581 with backend/main.py:164-171 | the controller posts `bin_organic_id: 1` and `bin_non_organic_id: 2` as JSON numbers, while `bins_db` is keyed `"0x001"` and `"0x002"`; the ids arrive as `"1"`/`"2"` (or are refused), so `update_bins` answers success and updates nothing | any lid closing with WiFi up, for instance a report of 3 kg in each compartment after an organic deposit | the report names the entries `0x001` and `0x002`, so both compartments take the reported weight, level and full flag | not executed | Reporting.SentReportUpdatesNothing | Reporting.ReportUpdatesBothBins |
