/**
 * The bin controller as the firmware runs it: one object owning the globals
 * of the control loop, whose methods update them in place in the order
 * `loop` and its helpers do. Every method is proved to leave the fields
 * exactly as the matching function of module ControllerSpec says, and to
 * keep `Consistent`; messages handed to the bus and reports handed to the
 * backend client are appended to `outbox` and `reports`.
 */
module Controller {
  import opened Wrappers
  import opened Millis
  import opened Bus
  import LevelMonitor
  import opened ControllerSpec
  import opened ControllerProperties

  class BinController {
    var state: BinState
    var selectedBin: nat
    var organicWeight: real
    var nonOrganicWeight: real
    var organicFull: bool
    var nonOrganicFull: bool
    var lastMotionTime: U32
    var binOpenTime: U32
    var detectionStartTime: U32
    var detectedMaterial: string
    var detectionComplete: bool
    var organicServo: int
    var nonOrganicServo: int
    var leds: Rgb
    var lastDebounceTime: U32
    /** Messages sent on the bus, oldest first. */
    var outbox: seq<Message>
    /** Reports posted to the backend, oldest first. */
    var reports: seq<BinReport>

    /** The globals as a value. */
    function Snapshot(): Vars
      reads this
    {
      Vars(state, selectedBin, organicWeight, nonOrganicWeight, organicFull, nonOrganicFull,
           lastMotionTime, binOpenTime, detectionStartTime, detectedMaterial, detectionComplete,
           organicServo, nonOrganicServo, leds, lastDebounceTime)
    }

    ghost predicate Valid()
      reads this
    {
      Consistent(Snapshot())
    }

    /** The globals' initialisers and `setup`: lids closed, LEDs set, nothing sent. */
    constructor ()
      ensures Valid()
      ensures Snapshot() == Initial()
      ensures outbox == [] && reports == []
    {
      state := Idle;
      selectedBin := NO_BIN;
      organicWeight, nonOrganicWeight := 0.0, 0.0;
      organicFull, nonOrganicFull := false, false;
      lastMotionTime, binOpenTime, detectionStartTime := 0, 0, 0;
      detectedMaterial := "";
      detectionComplete := false;
      organicServo, nonOrganicServo := SERVO_CLOSED, SERVO_CLOSED;
      leds := Leds(Idle, false, false);
      lastDebounceTime := 0;
      outbox, reports := [], [];
    }

    // ------------------------------------------------------------ helpers

    method UpdateBinLevel(sample: int)
      modifies this
      ensures Snapshot() == ControllerSpec.UpdateBinLevel(old(Snapshot()), sample)
      ensures outbox == old(outbox) && reports == old(reports)
    {
      var reading := LevelMonitor.Read(sample);
      organicWeight := reading.weight;
      nonOrganicWeight := reading.weight;
      organicFull := reading.full;
      nonOrganicFull := reading.full;
      if organicFull || nonOrganicFull {
        state := BinFull;
      }
    }

    method HandleMotionDetection(now: U32, pir: bool)
      modifies this
      ensures Snapshot() == ControllerSpec.HandleMotionDetection(old(Snapshot()), now, pir)
      ensures outbox == old(outbox) && reports == old(reports)
    {
      if pir {
        lastMotionTime := now;
        if state == Idle {
          state := DetectingMotion;
        }
      }
    }

    method HandleMaterialDetection(received: Option<Message>)
      modifies this
      ensures Snapshot() == ControllerSpec.HandleMaterialDetection(old(Snapshot()), received)
      ensures outbox == old(outbox) && reports == old(reports)
    {
      if received.Some? {
        var m := received.value;
        if m.id == MATERIAL_RESPONSE_ID {
          if StartsWith(m.payload, MATERIAL_PREFIX) {
            detectedMaterial := m.payload[|MATERIAL_PREFIX|..];
            detectionComplete := true;
          }
        }
      }
    }

    method OpenBin(binType: nat)
      modifies this
      ensures Snapshot() == ControllerSpec.OpenBin(old(Snapshot()), binType)
      ensures outbox == old(outbox) && reports == old(reports)
    {
      if binType == 0 {
        organicServo := SERVO_OPEN;
      } else {
        nonOrganicServo := SERVO_OPEN;
      }
    }

    method CloseBin(binType: nat)
      modifies this
      ensures Snapshot() == ControllerSpec.CloseBin(old(Snapshot()), binType)
      ensures outbox == old(outbox) && reports == old(reports)
    {
      if binType == 0 {
        organicServo := SERVO_CLOSED;
      } else {
        nonOrganicServo := SERVO_CLOSED;
      }
    }

    method UpdateLeds()
      modifies this
      ensures Snapshot() == old(Snapshot()).(leds := Leds(state, organicFull, nonOrganicFull))
      ensures outbox == old(outbox) && reports == old(reports)
    {
      leds := Leds(state, organicFull, nonOrganicFull);
    }

    /** `sendBinDataToBackend`: nothing without WiFi, otherwise one report of the current levels. */
    method SendBinDataToBackend(now: U32, online: bool)
      modifies this`reports
      ensures reports == old(reports) + (if online then [Report(Snapshot(), now)] else [])
    {
      if online {
        reports := reports + [Report(Snapshot(), now)];
      }
    }

    // ------------------------------------------------------------ the loop

    /**
     * One pass of `loop` after the keypad check: the level update with its
     * full interlock, then the state switch.
     */
    method Tick(now: U32, pir: bool, sample: int, received: Option<Message>, online: bool)
      requires Valid()
      modifies this
      ensures Valid()
      ensures var e := Step(old(Snapshot()), TickInput(now, pir, sample, received, online));
              && Snapshot() == e.next
              && outbox == old(outbox) + e.sent
              && reports == old(reports) + e.reports
    {
      StepConsistent(Snapshot(), TickInput(now, pir, sample, received, online));
      UpdateBinLevel(sample);
      RunStateMachine(now, pir, received, online);
    }

    /** The `switch (currentState)` of `loop`, with the lid commands as servo writes. */
    method RunStateMachine(now: U32, pir: bool, received: Option<Message>, online: bool)
      modifies this
      ensures var e := ControllerSpec.RunStateMachine(old(Snapshot()), now, pir, received, online);
              && Snapshot() == e.next
              && outbox == old(outbox) + e.sent
              && reports == old(reports) + e.reports
    {
      match state {
        case Idle =>
          WatchForMotion(now, pir);
        case DetectingMotion =>
          ConfirmMotion(now);
        case AnalyzingMaterial =>
          AwaitMaterial(now, received);
        case OpeningBin =>
          OpenSelectedBin(now);
        case BinOpen =>
          HoldOpenBin(now, pir);
        case ClosingBin =>
          CloseSelectedBin(now, online);
        case BinFull =>
          UpdateLeds();
        case MaintenanceMode =>
      }
    }

    /** The IDLE case of the switch. */
    method WatchForMotion(now: U32, pir: bool)
      modifies this
      ensures Snapshot() == OnIdle(old(Snapshot()), now, pir).next
      ensures outbox == old(outbox) && reports == old(reports)
    {
      HandleMotionDetection(now, pir);
      UpdateLeds();
    }

    /** The CLOSING_BIN case of the switch. */
    method CloseSelectedBin(now: U32, online: bool)
      modifies this
      ensures var e := OnClosingBin(old(Snapshot()), now, online);
              Snapshot() == e.next && outbox == old(outbox) && reports == old(reports) + e.reports
    {
      if selectedBin == BIN_ORGANIC_ID {
        CloseBin(0);
      } else {
        CloseBin(1);
      }
      state := Idle;
      SendBinDataToBackend(now, online);
    }

    /** The DETECTING_MOTION case of the switch. */
    method ConfirmMotion(now: U32)
      modifies this
      ensures var e := OnDetectingMotion(old(Snapshot()), now);
              && Snapshot() == e.next
              && outbox == old(outbox) + e.sent
              && reports == old(reports)
    {
      if Elapsed(now, lastMotionTime) > MOTION_TIMEOUT {
        state := Idle;
      } else {
        state := AnalyzingMaterial;
        detectionStartTime := now;
        outbox := outbox + [DetectRequest];
      }
    }

    /** The ANALYZING_MATERIAL case of the switch. */
    method AwaitMaterial(now: U32, received: Option<Message>)
      modifies this
      ensures Snapshot() == OnAnalyzingMaterial(old(Snapshot()), now, received).next
      ensures outbox == old(outbox) && reports == old(reports)
    {
      HandleMaterialDetection(received);
      if detectionComplete {
        selectedBin := BinForLabel(detectedMaterial, selectedBin);
        state := OpeningBin;
        detectionComplete := false;
      }
      if Elapsed(now, detectionStartTime) > CLASSIFY_TIMEOUT {
        detectedMaterial := UNKNOWN_MATERIAL;
        selectedBin := BIN_ORGANIC_ID;
        state := OpeningBin;
      }
    }

    /** The OPENING_BIN case of the switch (the buzzer alert and its delays are not modelled). */
    method OpenSelectedBin(now: U32)
      modifies this
      ensures Snapshot() == OnOpeningBin(old(Snapshot()), now).next
      ensures outbox == old(outbox) && reports == old(reports)
    {
      if selectedBin == BIN_ORGANIC_ID && !organicFull {
        OpenBin(0);
        state := BinOpen;
        binOpenTime := now;
      } else if selectedBin == BIN_NON_ORGANIC_ID && !nonOrganicFull {
        OpenBin(1);
        state := BinOpen;
        binOpenTime := now;
      } else {
        state := BinFull;
        state := Idle;
      }
    }

    /** The BIN_OPEN case of the switch. */
    method HoldOpenBin(now: U32, pir: bool)
      modifies this
      ensures Snapshot() == OnBinOpen(old(Snapshot()), now, pir).next
      ensures outbox == old(outbox) && reports == old(reports)
    {
      UpdateLeds();
      if !pir || Elapsed(now, lastMotionTime) > MOTION_TIMEOUT {
        if Elapsed(now, binOpenTime) > BIN_CLOSE_DELAY {
          state := ClosingBin;
        }
      } else {
        lastMotionTime := now;
      }
    }

    // ------------------------------------------------- manual command surface

    /** `/api/maintenance`; the result says whether the controller is now in maintenance mode. */
    method ToggleMaintenance() returns (inMaintenance: bool)
      requires Valid()
      modifies this
      ensures Valid()
      ensures Snapshot() == ControllerSpec.ToggleMaintenance(old(Snapshot()))
      ensures inMaintenance <==> state == MaintenanceMode
      ensures outbox == old(outbox) && reports == old(reports)
    {
      ManualCommandsConsistent(Snapshot(), 0, None, "", false, false);
      if state == MaintenanceMode {
        state := Idle;
        inMaintenance := false;
      } else {
        state := MaintenanceMode;
        inMaintenance := true;
      }
    }

    /** `/api/open` with its optional `bin` parameter. */
    method ManualOpen(bin: Option<string>) returns (reply: HttpReply)
      requires Valid()
      modifies this
      ensures Valid()
      ensures var o := ControllerSpec.ManualOpen(old(Snapshot()), bin);
              Snapshot() == o.next && reply == o.reply
      ensures outbox == old(outbox) && reports == old(reports)
    {
      ManualCommandsConsistent(Snapshot(), 0, bin, "", false, false);
      if bin.Some? {
        var name := bin.value;
        if name == "organic" && !organicFull {
          OpenBin(0);
          reply := Answered(200);
        } else if name == "non_organic" && !nonOrganicFull {
          OpenBin(1);
          reply := Answered(200);
        } else {
          reply := Answered(400);
        }
      } else {
        reply := Answered(400);
      }
    }

    /** `/api/close` with its optional `bin` parameter. */
    method ManualClose(bin: Option<string>) returns (reply: HttpReply)
      requires Valid()
      modifies this
      ensures Valid()
      ensures var o := ControllerSpec.ManualClose(old(Snapshot()), bin);
              Snapshot() == o.next && reply == o.reply
      ensures outbox == old(outbox) && reports == old(reports)
    {
      ManualCommandsConsistent(Snapshot(), 0, bin, "", false, false);
      reply := Unanswered;
      if bin.Some? {
        var name := bin.value;
        if name == "organic" {
          CloseBin(0);
          reply := Answered(200);
        } else if name == "non_organic" {
          CloseBin(1);
          reply := Answered(200);
        }
      } else {
        reply := Answered(400);
      }
    }

    /** `handleWebSocketMessage` for the command it decoded. */
    method SocketCommand(command: string)
      requires Valid()
      modifies this
      ensures Valid()
      ensures Snapshot() == ControllerSpec.SocketCommand(old(Snapshot()), command)
      ensures outbox == old(outbox) && reports == old(reports)
    {
      ManualCommandsConsistent(Snapshot(), 0, None, command, false, false);
      if command == "open_organic" && !organicFull {
        OpenBin(0);
      } else if command == "open_non_organic" && !nonOrganicFull {
        OpenBin(1);
      } else if command == "close_organic" {
        CloseBin(0);
      } else if command == "close_non_organic" {
        CloseBin(1);
      }
    }

    /** `checkKeypad`; `button1`/`button2` are true when the button reads LOW (pressed). */
    method CheckKeypad(now: U32, button1: bool, button2: bool)
      requires Valid()
      modifies this
      ensures Valid()
      ensures Snapshot() == ControllerSpec.CheckKeypad(old(Snapshot()), now, button1, button2)
      ensures outbox == old(outbox) && reports == old(reports)
    {
      ManualCommandsConsistent(Snapshot(), now, None, "", button1, button2);
      if Elapsed(now, lastDebounceTime) > KEYPAD_DEBOUNCE {
        if button1 {
          if !organicFull {
            OpenBin(0);
            CloseBin(0);
          }
          lastDebounceTime := now;
        }
        if button2 {
          if !nonOrganicFull {
            OpenBin(1);
            CloseBin(1);
          }
          lastDebounceTime := now;
        }
      }
    }
  }
}
