/**
 * The bin controller of the firmware's `loop`, as values: `Vars` holds every
 * global the loop reads or writes, and each function below is one firmware
 * routine applied to them. `Step` is one pass of `loop` after the keypad
 * check: the level update, then the state `switch`. The class in module
 * Controller is proved to change its fields exactly as these functions say.
 */
module ControllerSpec {
  import opened Wrappers
  import opened Millis
  import opened Bus
  import LevelMonitor

  datatype BinState =
    | Idle
    | DetectingMotion
    | AnalyzingMaterial
    | OpeningBin
    | BinOpen
    | ClosingBin
    | BinFull
    | MaintenanceMode

  /** Values of `selectedBin` (0 until a compartment is first chosen). */
  const NO_BIN: nat := 0
  const BIN_ORGANIC_ID: nat := 0x001
  const BIN_NON_ORGANIC_ID: nat := 0x002

  /** Milliseconds. */
  const MOTION_TIMEOUT: nat := 5000
  const BIN_CLOSE_DELAY: nat := 3000
  const CLASSIFY_TIMEOUT: nat := 5000
  const KEYPAD_DEBOUNCE: nat := 200

  /** Servo angles written by `openBin` and `closeBin`. */
  const SERVO_OPEN: int := 90
  const SERVO_CLOSED: int := 0

  /** The three LED pins; `true` is HIGH. */
  datatype Rgb = Rgb(red: bool, green: bool, blue: bool)

  const Amber: Rgb := Rgb(true, true, false)

  /** The controller's globals, including the last levels driven on the servos and LEDs. */
  datatype Vars = Vars(
    state: BinState,
    selectedBin: nat,
    organicWeight: real,
    nonOrganicWeight: real,
    organicFull: bool,
    nonOrganicFull: bool,
    lastMotionTime: U32,
    binOpenTime: U32,
    detectionStartTime: U32,
    detectedMaterial: string,
    detectionComplete: bool,
    organicServo: int,
    nonOrganicServo: int,
    leds: Rgb,
    lastDebounceTime: U32)

  /** The report `sendBinDataToBackend` posts when a lid closes. */
  datatype BinReport = BinReport(
    organicId: nat,
    nonOrganicId: nat,
    organicWeight: real,
    nonOrganicWeight: real,
    organicFull: bool,
    nonOrganicFull: bool,
    timestamp: U32)

  /** One pass of `loop`: the new globals, the bus messages and the backend reports it sent. */
  datatype Effects = Effects(next: Vars, sent: seq<Message>, reports: seq<BinReport>)

  /** What one pass of `loop` samples. */
  datatype TickInput = TickInput(
    now: U32,
    pir: bool,
    sample: int,
    received: Option<Message>,
    online: bool)

  /**
   * `updateLEDs`: red when the state is BIN_FULL, green when it is BIN_OPEN,
   * red and green together when a compartment is full in any other state,
   * blue otherwise.
   */
  function Leds(state: BinState, organicFull: bool, nonOrganicFull: bool): (c: Rgb)
    ensures c.red <==> state == BinFull || (state != BinOpen && (organicFull || nonOrganicFull))
    ensures c.green <==> state == BinOpen || (state != BinFull && (organicFull || nonOrganicFull))
    ensures c.blue <==> state != BinFull && state != BinOpen && !organicFull && !nonOrganicFull
    ensures c.blue ==> !c.red && !c.green
    ensures c == Amber <==> state != BinFull && state != BinOpen && (organicFull || nonOrganicFull)
  {
    if state == BinFull then Rgb(true, false, false)
    else if state == BinOpen then Rgb(false, true, false)
    else if organicFull || nonOrganicFull then Rgb(true, true, false)
    else Rgb(false, false, true)
  }

  /** The globals' initial values after `setup`: both lids closed, LEDs from `updateLEDs`. */
  function Initial(): (v: Vars)
    ensures v.state == Idle && v.leds == Rgb(false, false, true)
    ensures v.organicServo == SERVO_CLOSED && v.nonOrganicServo == SERVO_CLOSED
  {
    Vars(Idle, NO_BIN, 0.0, 0.0, false, false, 0, 0, 0, "", false,
         SERVO_CLOSED, SERVO_CLOSED, Leds(Idle, false, false), 0)
  }

  /**
   * The invariant every pass of `loop` and every manual command keeps:
   * servos at one of the two angles, a known compartment id, both weights the
   * same estimate within capacity, both flags equal to "weight reaches the
   * threshold", no detection result left pending, and the amber LED pattern
   * never shown.
   */
  ghost predicate Consistent(v: Vars)
  {
    && (v.organicServo == SERVO_OPEN || v.organicServo == SERVO_CLOSED)
    && (v.nonOrganicServo == SERVO_OPEN || v.nonOrganicServo == SERVO_CLOSED)
    && (v.selectedBin == NO_BIN || v.selectedBin == BIN_ORGANIC_ID || v.selectedBin == BIN_NON_ORGANIC_ID)
    && v.organicWeight == v.nonOrganicWeight
    && 0.0 <= v.organicWeight <= LevelMonitor.MAX_BIN_CAPACITY
    && v.organicFull == (v.organicWeight >= LevelMonitor.BIN_FULL_THRESHOLD)
    && v.nonOrganicFull == v.organicFull
    && !v.detectionComplete
    && v.leds != Amber
  }

  lemma InitialConsistent()
    ensures Consistent(Initial())
  {
  }

  // ---------------------------------------------------------------- routines

  /**
   * `updateBinLevel`: both compartments get the same estimate from the one
   * sample, and either being full forces BIN_FULL whatever the state was,
   * MAINTENANCE_MODE included. Nothing else changes.
   */
  function UpdateBinLevel(v: Vars, sample: int): (r: Vars)
    ensures r.organicWeight == r.nonOrganicWeight == LevelMonitor.Read(sample).weight
    ensures 0.0 <= r.organicWeight <= LevelMonitor.MAX_BIN_CAPACITY
    ensures r.organicFull == r.nonOrganicFull == (r.organicWeight >= LevelMonitor.BIN_FULL_THRESHOLD)
    ensures r.organicFull ==> r.state == BinFull
    ensures !r.organicFull ==> r.state == v.state
    ensures r == v.(state := r.state,
                    organicWeight := r.organicWeight, nonOrganicWeight := r.nonOrganicWeight,
                    organicFull := r.organicFull, nonOrganicFull := r.nonOrganicFull)
  {
    var reading := LevelMonitor.Read(sample);
    var v1 := v.(organicWeight := reading.weight, nonOrganicWeight := reading.weight,
                 organicFull := reading.full, nonOrganicFull := reading.full);
    if v1.organicFull || v1.nonOrganicFull then v1.(state := BinFull) else v1
  }

  /**
   * `handleMotionDetection`: a high PIR level stamps the motion time and,
   * from IDLE, starts DETECTING_MOTION; a low level changes nothing.
   */
  function HandleMotionDetection(v: Vars, now: U32, pir: bool): (r: Vars)
    ensures !pir ==> r == v
    ensures pir ==> r.lastMotionTime == now
    ensures pir && v.state == Idle ==> r.state == DetectingMotion
    ensures r.state != v.state ==> pir && v.state == Idle
    ensures r == v.(state := r.state, lastMotionTime := r.lastMotionTime)
  {
    if pir then
      v.(lastMotionTime := now, state := if v.state == Idle then DetectingMotion else v.state)
    else
      v
  }

  /**
   * `handleMaterialDetection`: only a material response (id 0x200, payload
   * starting "MATERIAL:") records a label, the payload after the prefix, and
   * marks detection complete; any other message, or none, changes nothing.
   */
  function HandleMaterialDetection(v: Vars, received: Option<Message>): (r: Vars)
    ensures received.None? ==> r == v
    ensures received.Some? && received.value.id != MATERIAL_RESPONSE_ID ==> r == v
    ensures received.Some? && !StartsWith(received.value.payload, MATERIAL_PREFIX) ==> r == v
    ensures received.Some? && received.value.id == MATERIAL_RESPONSE_ID
              && StartsWith(received.value.payload, MATERIAL_PREFIX) ==>
              && r.detectionComplete
              && received.value.payload == MATERIAL_PREFIX + r.detectedMaterial
    ensures r == v.(detectedMaterial := r.detectedMaterial, detectionComplete := r.detectionComplete)
  {
    match received
    case None => v
    case Some(m) =>
      match ParseMaterial(m)
      case Some(material) => v.(detectedMaterial := material, detectionComplete := true)
      case None => v
  }

  /**
   * The compartment a classification label selects: "ORGANIC" and
   * "NON_ORGANIC" pick theirs, anything else keeps the current choice.
   */
  function BinForLabel(material: string, current: nat): (bin: nat)
    ensures material == "ORGANIC" ==> bin == BIN_ORGANIC_ID
    ensures material == "NON_ORGANIC" ==> bin == BIN_NON_ORGANIC_ID
    ensures bin != current ==> material == "ORGANIC" || material == "NON_ORGANIC"
  {
    if material == "ORGANIC" then BIN_ORGANIC_ID
    else if material == "NON_ORGANIC" then BIN_NON_ORGANIC_ID
    else current
  }

  /** `openBin`: lid 0 is the organic one, any other the non-organic one (the buzzer pulse is not modelled). */
  function OpenBin(v: Vars, binType: nat): (r: Vars)
    ensures binType == 0 ==> r == v.(organicServo := SERVO_OPEN)
    ensures binType != 0 ==> r == v.(nonOrganicServo := SERVO_OPEN)
  {
    if binType == 0 then v.(organicServo := SERVO_OPEN) else v.(nonOrganicServo := SERVO_OPEN)
  }

  /** `closeBin`: writes the closed angle to one lid; closing twice is closing once. */
  function CloseBin(v: Vars, binType: nat): (r: Vars)
    ensures binType == 0 ==> r == v.(organicServo := SERVO_CLOSED)
    ensures binType != 0 ==> r == v.(nonOrganicServo := SERVO_CLOSED)
  {
    if binType == 0 then v.(organicServo := SERVO_CLOSED) else v.(nonOrganicServo := SERVO_CLOSED)
  }

  /** `closeBin` always writes the same angle, so repeating it changes nothing. */
  lemma CloseBinIdempotent(v: Vars, binType: nat)
    ensures CloseBin(CloseBin(v, binType), binType) == CloseBin(v, binType)
  {
  }

  /** The report `sendBinDataToBackend` builds from the current globals. */
  function Report(v: Vars, now: U32): (r: BinReport)
    ensures r.organicId == BIN_ORGANIC_ID && r.nonOrganicId == BIN_NON_ORGANIC_ID && r.timestamp == now
    ensures r.organicWeight == v.organicWeight && r.nonOrganicWeight == v.nonOrganicWeight
    ensures r.organicFull == v.organicFull && r.nonOrganicFull == v.nonOrganicFull
    ensures Consistent(v) ==>
              r.organicWeight == r.nonOrganicWeight && (r.organicFull <==> r.organicWeight >= LevelMonitor.BIN_FULL_THRESHOLD)
  {
    BinReport(BIN_ORGANIC_ID, BIN_NON_ORGANIC_ID, v.organicWeight, v.nonOrganicWeight,
              v.organicFull, v.nonOrganicFull, now)
  }

  /** The IDLE case: watch for motion, then refresh the LEDs. */
  function OnIdle(v: Vars, now: U32, pir: bool): (e: Effects)
    ensures e.sent == [] && e.reports == []
    ensures e.next.state == (if pir && v.state == Idle then DetectingMotion else v.state)
    ensures e.next.lastMotionTime == (if pir then now else v.lastMotionTime)
    ensures e.next.leds == Leds(e.next.state, v.organicFull, v.nonOrganicFull)
    ensures e.next.organicServo == v.organicServo && e.next.nonOrganicServo == v.nonOrganicServo
  {
    var v1 := HandleMotionDetection(v, now, pir);
    Effects(v1.(leds := Leds(v1.state, v1.organicFull, v1.nonOrganicFull)), [], [])
  }

  /** The DETECTING_MOTION case: give up after MOTION_TIMEOUT, otherwise request a classification. */
  function OnDetectingMotion(v: Vars, now: U32): (e: Effects)
    ensures e.next.state == Idle <==> Elapsed(now, v.lastMotionTime) > MOTION_TIMEOUT
    ensures e.next.state == Idle || e.next.state == AnalyzingMaterial
    ensures e.sent == (if e.next.state == Idle then [] else [DetectRequest]) && e.reports == []
    ensures e.next.state == AnalyzingMaterial ==> e.next.detectionStartTime == now
  {
    if Elapsed(now, v.lastMotionTime) > MOTION_TIMEOUT then
      Effects(v.(state := Idle), [], [])
    else
      Effects(v.(state := AnalyzingMaterial, detectionStartTime := now), [DetectRequest], [])
  }

  /**
   * The ANALYZING_MATERIAL case: take an answer if one came, then, separately,
   * fall back to UNKNOWN and the organic compartment once the classification
   * timeout has passed.
   */
  function OnAnalyzingMaterial(v: Vars, now: U32, received: Option<Message>): (e: Effects)
    ensures e.sent == [] && e.reports == []
    ensures e.next.state == v.state || e.next.state == OpeningBin
    ensures Elapsed(now, v.detectionStartTime) > CLASSIFY_TIMEOUT ==>
              && e.next.state == OpeningBin
              && e.next.detectedMaterial == UNKNOWN_MATERIAL
              && e.next.selectedBin == BIN_ORGANIC_ID
    ensures received.Some? && ParseMaterial(received.value).Some? ==> e.next.state == OpeningBin
    ensures (&& !v.detectionComplete
             && (received.None? || ParseMaterial(received.value).None?)
             && Elapsed(now, v.detectionStartTime) <= CLASSIFY_TIMEOUT) ==> e.next == v
    ensures !e.next.detectionComplete
  {
    var v1 := HandleMaterialDetection(v, received);
    var v2 :=
      if v1.detectionComplete then
        v1.(selectedBin := BinForLabel(v1.detectedMaterial, v1.selectedBin),
            state := OpeningBin, detectionComplete := false)
      else v1;
    var v3 :=
      if Elapsed(now, v2.detectionStartTime) > CLASSIFY_TIMEOUT then
        v2.(detectedMaterial := UNKNOWN_MATERIAL, selectedBin := BIN_ORGANIC_ID, state := OpeningBin)
      else v2;
    Effects(v3, [], [])
  }

  /**
   * The OPENING_BIN case: open the chosen lid if its compartment is not full;
   * otherwise BIN_FULL is assigned and, after the alert, replaced by IDLE.
   */
  function OnOpeningBin(v: Vars, now: U32): (e: Effects)
    ensures e.sent == [] && e.reports == []
    ensures e.next.state == BinOpen <==>
              (v.selectedBin == BIN_ORGANIC_ID && !v.organicFull)
              || (v.selectedBin == BIN_NON_ORGANIC_ID && !v.nonOrganicFull)
    ensures e.next.state == BinOpen || e.next.state == Idle
    ensures e.next.state == BinOpen ==>
              && e.next.binOpenTime == now
              && (if v.selectedBin == BIN_ORGANIC_ID then e.next.organicServo else e.next.nonOrganicServo) == SERVO_OPEN
    ensures e.next.state == Idle ==> e.next == v.(state := Idle)
  {
    if v.selectedBin == BIN_ORGANIC_ID && !v.organicFull then
      Effects(OpenBin(v, 0).(state := BinOpen, binOpenTime := now), [], [])
    else if v.selectedBin == BIN_NON_ORGANIC_ID && !v.nonOrganicFull then
      Effects(OpenBin(v, 1).(state := BinOpen, binOpenTime := now), [], [])
    else
      Effects(v.(state := Idle), [], [])
  }

  /**
   * The BIN_OPEN case: refresh the LEDs; with recent motion refresh the motion
   * time, otherwise start closing once BIN_CLOSE_DELAY has passed.
   */
  function OnBinOpen(v: Vars, now: U32, pir: bool): (e: Effects)
    ensures e.sent == [] && e.reports == []
    ensures e.next.leds == Leds(v.state, v.organicFull, v.nonOrganicFull)
    ensures v.state == BinOpen ==>
              (e.next.state == ClosingBin <==>
                 (!pir || Elapsed(now, v.lastMotionTime) > MOTION_TIMEOUT) && Elapsed(now, v.binOpenTime) > BIN_CLOSE_DELAY)
    ensures e.next.state == ClosingBin || e.next.state == v.state
    ensures e.next.lastMotionTime == (if pir && Elapsed(now, v.lastMotionTime) <= MOTION_TIMEOUT then now else v.lastMotionTime)
  {
    var v1 := v.(leds := Leds(v.state, v.organicFull, v.nonOrganicFull));
    if !pir || Elapsed(now, v1.lastMotionTime) > MOTION_TIMEOUT then
      if Elapsed(now, v1.binOpenTime) > BIN_CLOSE_DELAY then
        Effects(v1.(state := ClosingBin), [], [])
      else
        Effects(v1, [], [])
    else
      Effects(v1.(lastMotionTime := now), [], [])
  }

  /** The CLOSING_BIN case: close the chosen lid, go IDLE, report the levels. */
  function OnClosingBin(v: Vars, now: U32, online: bool): (e: Effects)
    ensures e.next.state == Idle && e.sent == []
    ensures v.selectedBin == BIN_ORGANIC_ID ==> e.next.organicServo == SERVO_CLOSED && e.next.nonOrganicServo == v.nonOrganicServo
    ensures v.selectedBin != BIN_ORGANIC_ID ==> e.next.nonOrganicServo == SERVO_CLOSED && e.next.organicServo == v.organicServo
    ensures e.reports == (if online then [Report(v, now)] else [])
  {
    var v1 := CloseBin(v, if v.selectedBin == BIN_ORGANIC_ID then 0 else 1).(state := Idle);
    Effects(v1, [], if online then [Report(v1, now)] else [])
  }

  /** The `switch (currentState)` of `loop`, after the level update. */
  function RunStateMachine(v: Vars, now: U32, pir: bool, received: Option<Message>, online: bool): (e: Effects)
    ensures e.sent != [] ==> v.state == DetectingMotion && e.sent == [DetectRequest]
    ensures e.reports != [] ==> v.state == ClosingBin && online
    ensures v.state == BinFull ==> e.next.state == BinFull
    ensures v.state == MaintenanceMode ==> e == Effects(v, [], [])
  {
    match v.state
    case Idle => OnIdle(v, now, pir)
    case DetectingMotion => OnDetectingMotion(v, now)
    case AnalyzingMaterial => OnAnalyzingMaterial(v, now, received)
    case OpeningBin => OnOpeningBin(v, now)
    case BinOpen => OnBinOpen(v, now, pir)
    case ClosingBin => OnClosingBin(v, now, online)
    case BinFull => Effects(v.(leds := Leds(v.state, v.organicFull, v.nonOrganicFull)), [], [])
    case MaintenanceMode => Effects(v, [], [])
  }

  /** One pass of `loop` after the keypad check: the level update, then the switch. */
  function Step(v: Vars, t: TickInput): (e: Effects)
    ensures LevelMonitor.Read(t.sample).full ==> e.next.state == BinFull
    ensures e.next.organicFull || e.next.nonOrganicFull ==> e.next.state == BinFull
    ensures v.state == BinFull ==> e.next.state == BinFull
    ensures !v.detectionComplete ==> !e.next.detectionComplete
    ensures |e.sent| <= 1 && |e.reports| <= 1
  {
    RunStateMachine(UpdateBinLevel(v, t.sample), t.now, t.pir, t.received, t.online)
  }

  /** Successive passes of `loop`. */
  function Run(v: Vars, ts: seq<TickInput>): (r: Vars)
    ensures v.state == MaintenanceMode && (forall i :: 0 <= i < |ts| ==> ts[i].sample < 90) ==> r == v.(
              organicWeight := r.organicWeight, nonOrganicWeight := r.nonOrganicWeight,
              organicFull := r.organicFull, nonOrganicFull := r.nonOrganicFull)
    decreases |ts|
  {
    if ts == [] then v else Run(Step(v, ts[0]).next, ts[1..])
  }

  // ------------------------------------------------------ manual command surface

  /**
   * `/api/maintenance`: leaves MAINTENANCE_MODE for IDLE, enters it from any
   * other state. Only the state changes.
   */
  function ToggleMaintenance(v: Vars): (r: Vars)
    ensures (r.state == MaintenanceMode) != (v.state == MaintenanceMode)
    ensures r.state == Idle || r.state == MaintenanceMode
    ensures r == v.(state := r.state)
  {
    v.(state := if v.state == MaintenanceMode then Idle else MaintenanceMode)
  }

  /** How an HTTP handler answered; `Unanswered` when it sent nothing. */
  datatype HttpReply = Answered(code: int) | Unanswered

  /** A manual command's new globals and the answer given for it. */
  datatype Outcome = Outcome(next: Vars, reply: HttpReply)

  /**
   * `/api/open`: opens the named lid only when that compartment is not full
   * (200); a full compartment or an unknown name is refused (400), as is a
   * missing `bin` parameter. The state is never changed.
   */
  function ManualOpen(v: Vars, bin: Option<string>): (o: Outcome)
    ensures o.reply == Answered(200) || o.reply == Answered(400)
    ensures o.reply == Answered(200) <==>
              bin.Some? && ((bin.value == "organic" && !v.organicFull)
                            || (bin.value == "non_organic" && !v.nonOrganicFull))
    ensures o.reply == Answered(200) && bin.value == "organic" ==> o.next == v.(organicServo := SERVO_OPEN)
    ensures o.reply == Answered(200) && bin.value == "non_organic" ==> o.next == v.(nonOrganicServo := SERVO_OPEN)
    ensures o.reply == Answered(400) ==> o.next == v
  {
    match bin
    case None => Outcome(v, Answered(400))
    case Some(name) =>
      if name == "organic" && !v.organicFull then Outcome(OpenBin(v, 0), Answered(200))
      else if name == "non_organic" && !v.nonOrganicFull then Outcome(OpenBin(v, 1), Answered(200))
      else Outcome(v, Answered(400))
  }

  /**
   * `/api/close`: closes the named lid (200) whatever the fill state; a
   * missing parameter is refused (400), and an unknown name gets no answer at
   * all.
   */
  function ManualClose(v: Vars, bin: Option<string>): (o: Outcome)
    ensures bin.None? ==> o == Outcome(v, Answered(400))
    ensures bin == Some("organic") ==> o == Outcome(v.(organicServo := SERVO_CLOSED), Answered(200))
    ensures bin == Some("non_organic") ==> o == Outcome(v.(nonOrganicServo := SERVO_CLOSED), Answered(200))
    ensures bin.Some? && bin.value != "organic" && bin.value != "non_organic" ==> o == Outcome(v, Unanswered)
  {
    match bin
    case None => Outcome(v, Answered(400))
    case Some(name) =>
      if name == "organic" then Outcome(CloseBin(v, 0), Answered(200))
      else if name == "non_organic" then Outcome(CloseBin(v, 1), Answered(200))
      else Outcome(v, Unanswered)
  }

  /**
   * `handleWebSocketMessage`: the same guarded open and unguarded close,
   * selected by the `command` string; any other command moves no lid.
   */
  function SocketCommand(v: Vars, command: string): (r: Vars)
    ensures r.organicServo != v.organicServo ==>
              (command == "open_organic" && !v.organicFull && r.organicServo == SERVO_OPEN)
              || (command == "close_organic" && r.organicServo == SERVO_CLOSED)
    ensures r.nonOrganicServo != v.nonOrganicServo ==>
              (command == "open_non_organic" && !v.nonOrganicFull && r.nonOrganicServo == SERVO_OPEN)
              || (command == "close_non_organic" && r.nonOrganicServo == SERVO_CLOSED)
    ensures r == v.(organicServo := r.organicServo, nonOrganicServo := r.nonOrganicServo)
    ensures command == "open_organic" && !v.organicFull ==> r == v.(organicServo := SERVO_OPEN)
    ensures command == "open_non_organic" && !v.nonOrganicFull ==> r == v.(nonOrganicServo := SERVO_OPEN)
    ensures command == "close_organic" ==> r == v.(organicServo := SERVO_CLOSED)
    ensures command == "close_non_organic" ==> r == v.(nonOrganicServo := SERVO_CLOSED)
    ensures command !in {"open_organic", "open_non_organic", "close_organic", "close_non_organic"} ==> r == v
  {
    if command == "open_organic" && !v.organicFull then OpenBin(v, 0)
    else if command == "open_non_organic" && !v.nonOrganicFull then OpenBin(v, 1)
    else if command == "close_organic" then CloseBin(v, 0)
    else if command == "close_non_organic" then CloseBin(v, 1)
    else v
  }

  /**
   * `checkKeypad`, with the three-second hold treated as instantaneous: once
   * the debounce interval has passed, a pressed button opens and closes its lid
   * when that compartment is not full (so the lid ends closed) and restarts the
   * debounce interval.
   */
  function CheckKeypad(v: Vars, now: U32, button1: bool, button2: bool): (r: Vars)
    ensures Elapsed(now, v.lastDebounceTime) <= KEYPAD_DEBOUNCE ==> r == v
    ensures r.organicServo != v.organicServo ==> button1 && !v.organicFull && r.organicServo == SERVO_CLOSED
    ensures r.nonOrganicServo != v.nonOrganicServo ==> button2 && !v.nonOrganicFull && r.nonOrganicServo == SERVO_CLOSED
    ensures r == v.(organicServo := r.organicServo, nonOrganicServo := r.nonOrganicServo,
                    lastDebounceTime := r.lastDebounceTime)
    ensures Elapsed(now, v.lastDebounceTime) > KEYPAD_DEBOUNCE ==>
              && (button1 && !v.organicFull ==> r.organicServo == SERVO_CLOSED)
              && (button2 && !v.nonOrganicFull ==> r.nonOrganicServo == SERVO_CLOSED)
              && (button1 || button2 ==> r.lastDebounceTime == now)
              && (!button1 && !button2 ==> r == v)
  {
    if Elapsed(now, v.lastDebounceTime) > KEYPAD_DEBOUNCE then
      var v1 :=
        if button1 then
          (if !v.organicFull then CloseBin(OpenBin(v, 0), 0) else v).(lastDebounceTime := now)
        else v;
      if button2 then
        (if !v1.nonOrganicFull then CloseBin(OpenBin(v1, 1), 1) else v1).(lastDebounceTime := now)
      else v1
    else
      v
  }
}
