/**
 * The transition rules of the controller's `loop`, stated over `Step` and
 * `Run`: what one pass does from each state when no compartment is full,
 * what the full interlock does, and what holds over any number of passes.
 * "Not full" is `sample < 90`, the samples for which the level update
 * leaves both full flags clear.
 */
module ControllerProperties {
  import opened Wrappers
  import opened Millis
  import opened Bus
  import opened ControllerSpec

  /** A pass whose level sample leaves both compartments below the threshold. */
  predicate NotFull(t: TickInput)
  {
    t.sample < 90
  }

  // --------------------------------------------------------------- one pass

  /** IDLE with the PIR high: DETECTING_MOTION, the motion time stamped, nothing sent. */
  lemma MotionStartsDetection(v: Vars, t: TickInput)
    requires v.state == Idle && NotFull(t) && t.pir
    ensures Step(v, t).next.state == DetectingMotion
    ensures Step(v, t).next.lastMotionTime == t.now
    ensures Step(v, t).sent == [] && Step(v, t).reports == []
  {
  }

  /** IDLE with the PIR low: still IDLE, nothing sent. */
  lemma NoMotionStaysIdle(v: Vars, t: TickInput)
    requires v.state == Idle && NotFull(t) && !t.pir
    ensures Step(v, t).next.state == Idle
    ensures Step(v, t).next.lastMotionTime == v.lastMotionTime
    ensures Step(v, t).sent == []
  {
  }

  /** DETECTING_MOTION after more than MOTION_TIMEOUT: back to IDLE without a request. */
  lemma MotionConfirmTimesOut(v: Vars, t: TickInput)
    requires v.state == DetectingMotion && NotFull(t)
    requires Elapsed(t.now, v.lastMotionTime) > MOTION_TIMEOUT
    ensures Step(v, t).next.state == Idle
    ensures Step(v, t).sent == []
  {
  }

  /** DETECTING_MOTION within MOTION_TIMEOUT: exactly one request, and the request time stamped. */
  lemma MotionConfirmSendsRequest(v: Vars, t: TickInput)
    requires v.state == DetectingMotion && NotFull(t)
    requires Elapsed(t.now, v.lastMotionTime) <= MOTION_TIMEOUT
    ensures Step(v, t).next.state == AnalyzingMaterial
    ensures Step(v, t).next.detectionStartTime == t.now
    ensures Step(v, t).sent == [Message(0x100, "DETECT_MATERIAL")]
  {
  }

  /**
   * ANALYZING_MATERIAL receiving "MATERIAL:<m>" within the classification
   * timeout: OPENING_BIN with the compartment the label selects (the previous
   * one for a label other than ORGANIC and NON_ORGANIC).
   */
  lemma AnswerSelectsBin(v: Vars, t: TickInput, m: string)
    requires v.state == AnalyzingMaterial && NotFull(t)
    requires t.received == Some(MaterialResponse(m))
    requires Elapsed(t.now, v.detectionStartTime) <= CLASSIFY_TIMEOUT
    ensures Step(v, t).next.state == OpeningBin
    ensures Step(v, t).next.detectedMaterial == m
    ensures Step(v, t).next.selectedBin == BinForLabel(m, v.selectedBin)
    ensures m != "ORGANIC" && m != "NON_ORGANIC" ==> Step(v, t).next.selectedBin == v.selectedBin
    ensures !Step(v, t).next.detectionComplete
  {
    ParseMaterialRoundTrip(m);
  }

  /**
   * ANALYZING_MATERIAL with no answer, or with a message that is not a
   * material response, within the timeout: still waiting, label and
   * compartment unchanged.
   */
  lemma OtherMessagesKeepWaiting(v: Vars, t: TickInput)
    requires v.state == AnalyzingMaterial && NotFull(t) && !v.detectionComplete
    requires t.received.None? || ParseMaterial(t.received.value).None?
    requires Elapsed(t.now, v.detectionStartTime) <= CLASSIFY_TIMEOUT
    ensures Step(v, t).next.state == AnalyzingMaterial
    ensures Step(v, t).next.detectedMaterial == v.detectedMaterial
    ensures Step(v, t).next.selectedBin == v.selectedBin
    ensures Step(v, t).sent == []
  {
  }

  /**
   * ANALYZING_MATERIAL after more than the classification timeout: OPENING_BIN
   * with label UNKNOWN and the organic compartment, even when an answer
   * arrives in the same pass.
   */
  lemma ClassificationTimesOut(v: Vars, t: TickInput)
    requires v.state == AnalyzingMaterial && NotFull(t)
    requires Elapsed(t.now, v.detectionStartTime) > CLASSIFY_TIMEOUT
    ensures Step(v, t).next.state == OpeningBin
    ensures Step(v, t).next.detectedMaterial == "UNKNOWN"
    ensures Step(v, t).next.selectedBin == BIN_ORGANIC_ID
    ensures Step(v, t).sent == []
  {
  }

  /** OPENING_BIN for a chosen compartment that is not full: only its lid opens, BIN_OPEN, open time stamped. */
  lemma OpeningOpensSelectedLid(v: Vars, t: TickInput)
    requires v.state == OpeningBin && NotFull(t)
    requires v.selectedBin == BIN_ORGANIC_ID || v.selectedBin == BIN_NON_ORGANIC_ID
    ensures Step(v, t).next.state == BinOpen
    ensures Step(v, t).next.binOpenTime == t.now
    ensures v.selectedBin == BIN_ORGANIC_ID ==>
              Step(v, t).next.organicServo == SERVO_OPEN && Step(v, t).next.nonOrganicServo == v.nonOrganicServo
    ensures v.selectedBin == BIN_NON_ORGANIC_ID ==>
              Step(v, t).next.nonOrganicServo == SERVO_OPEN && Step(v, t).next.organicServo == v.organicServo
  {
  }

  /**
   * OPENING_BIN with no compartment ever chosen (only unrecognised labels so
   * far): the alert path, ending the pass in IDLE with no lid moved.
   */
  lemma OpeningWithoutChoiceReturnsToIdle(v: Vars, t: TickInput)
    requires v.state == OpeningBin && NotFull(t)
    requires v.selectedBin != BIN_ORGANIC_ID && v.selectedBin != BIN_NON_ORGANIC_ID
    ensures Step(v, t).next.state == Idle
    ensures Step(v, t).next.organicServo == v.organicServo
    ensures Step(v, t).next.nonOrganicServo == v.nonOrganicServo
  {
  }

  /**
   * OPENING_BIN when the sample says full: the interlock has already replaced
   * the state, so the pass ends in BIN_FULL and no lid moves.
   */
  lemma OpeningFullBinStaysClosed(v: Vars, t: TickInput)
    requires v.state == OpeningBin && !NotFull(t)
    ensures Step(v, t).next.state == BinFull
    ensures Step(v, t).next.organicServo == v.organicServo
    ensures Step(v, t).next.nonOrganicServo == v.nonOrganicServo
  {
  }

  /** BIN_OPEN with motion within MOTION_TIMEOUT: stays open and refreshes the motion time. */
  lemma MotionKeepsLidOpen(v: Vars, t: TickInput)
    requires v.state == BinOpen && NotFull(t) && t.pir
    requires Elapsed(t.now, v.lastMotionTime) <= MOTION_TIMEOUT
    ensures Step(v, t).next.state == BinOpen
    ensures Step(v, t).next.lastMotionTime == t.now
  {
  }

  /**
   * BIN_OPEN without (recent) motion: CLOSING_BIN once more than
   * BIN_CLOSE_DELAY has passed since opening, still BIN_OPEN before that.
   */
  lemma LidClosesAfterDelay(v: Vars, t: TickInput)
    requires v.state == BinOpen && NotFull(t)
    requires !t.pir || Elapsed(t.now, v.lastMotionTime) > MOTION_TIMEOUT
    ensures Step(v, t).next.state == (if Elapsed(t.now, v.binOpenTime) > BIN_CLOSE_DELAY then ClosingBin else BinOpen)
    ensures Step(v, t).next.lastMotionTime == v.lastMotionTime
  {
  }

  /**
   * CLOSING_BIN: the chosen lid (the non-organic one unless organic was
   * chosen) closes, IDLE, and one report goes out when online.
   */
  lemma ClosingClosesSelectedLid(v: Vars, t: TickInput)
    requires v.state == ClosingBin && NotFull(t)
    ensures Step(v, t).next.state == Idle
    ensures v.selectedBin == BIN_ORGANIC_ID ==>
              Step(v, t).next.organicServo == SERVO_CLOSED && Step(v, t).next.nonOrganicServo == v.nonOrganicServo
    ensures v.selectedBin != BIN_ORGANIC_ID ==>
              Step(v, t).next.nonOrganicServo == SERVO_CLOSED && Step(v, t).next.organicServo == v.organicServo
    ensures |Step(v, t).reports| == (if t.online then 1 else 0)
    ensures Step(v, t).sent == []
  {
  }

  /** MAINTENANCE_MODE is left by no pass unless a compartment reads full. */
  lemma MaintenanceHolds(v: Vars, t: TickInput)
    requires v.state == MaintenanceMode && NotFull(t)
    ensures Step(v, t).next.state == MaintenanceMode
    ensures Step(v, t).sent == [] && Step(v, t).reports == []
  {
  }

  /**
   * The only bus message the controller ever sends is the detection request,
   * and only on the pass that moves DETECTING_MOTION to ANALYZING_MATERIAL,
   * so no second request is sent while one is awaited.
   */
  lemma RequestOnlyOnConfirm(v: Vars, t: TickInput)
    ensures Step(v, t).sent == [] || Step(v, t).sent == [DetectRequest]
    ensures Step(v, t).sent != [] ==>
              UpdateBinLevel(v, t.sample).state == DetectingMotion
              && Step(v, t).next.state == AnalyzingMaterial
    ensures v.state == AnalyzingMaterial ==> Step(v, t).sent == []
  {
  }

  /** Every pass keeps the controller's invariant. */
  lemma StepConsistent(v: Vars, t: TickInput)
    requires Consistent(v)
    ensures Consistent(Step(v, t).next)
  {
  }

  /** So does every manual command. */
  lemma ManualCommandsConsistent(v: Vars, now: U32, bin: Option<string>, command: string, b1: bool, b2: bool)
    requires Consistent(v)
    ensures Consistent(ToggleMaintenance(v))
    ensures Consistent(ManualOpen(v, bin).next)
    ensures Consistent(ManualClose(v, bin).next)
    ensures Consistent(SocketCommand(v, command))
    ensures Consistent(CheckKeypad(v, now, b1, b2))
  {
  }

  /** Toggling twice returns to MAINTENANCE_MODE from it, but to IDLE from any other state. */
  lemma ToggleTwice(v: Vars)
    ensures ToggleMaintenance(ToggleMaintenance(v)).state ==
              (if v.state == MaintenanceMode then MaintenanceMode else Idle)
  {
  }

  /**
   * Frames are read only in ANALYZING_MATERIAL: in every other state a
   * received frame, answer or not, makes no difference to the pass.
   */
  lemma FramesIgnoredOutsideAnalysis(v: Vars, t: TickInput)
    requires UpdateBinLevel(v, t.sample).state != AnalyzingMaterial
    ensures Step(v, t) == Step(v, t.(received := None))
  {
  }

  // -------------------------------------------------------------- two passes

  /**
   * Once the classification is settled, by an answer or by the timeout, a
   * further answer (a late one, or a second one) has no effect on the next pass.
   */
  lemma SettledClassificationIgnoresAnswers(v: Vars, t1: TickInput, t2: TickInput)
    requires v.state == AnalyzingMaterial && NotFull(t1)
    requires (t1.received.Some? && ParseMaterial(t1.received.value).Some?)
             || Elapsed(t1.now, v.detectionStartTime) > CLASSIFY_TIMEOUT
    ensures Step(v, t1).next.state == OpeningBin
    ensures Step(Step(v, t1).next, t2) == Step(Step(v, t1).next, t2.(received := None))
  {
    FramesIgnoredOutsideAnalysis(Step(v, t1).next, t2);
  }

  /**
   * Motion in IDLE that is not confirmed within MOTION_TIMEOUT: after the next
   * pass the controller is IDLE again and no request was ever sent.
   */
  lemma UnconfirmedMotionSendsNothing(v: Vars, t1: TickInput, t2: TickInput)
    requires v.state == Idle && NotFull(t1) && NotFull(t2) && t1.pir
    requires Elapsed(t2.now, t1.now) > MOTION_TIMEOUT
    ensures Step(Step(v, t1).next, t2).next.state == Idle
    ensures Step(v, t1).sent == [] && Step(Step(v, t1).next, t2).sent == []
  {
    MotionStartsDetection(v, t1);
    MotionConfirmTimesOut(Step(v, t1).next, t2);
  }

  /**
   * Motion in IDLE confirmed on the next pass: exactly one request is sent,
   * and it is sent on that second pass.
   */
  lemma ConfirmedMotionSendsOneRequest(v: Vars, t1: TickInput, t2: TickInput)
    requires v.state == Idle && NotFull(t1) && NotFull(t2) && t1.pir
    requires Elapsed(t2.now, t1.now) <= MOTION_TIMEOUT
    ensures Step(Step(v, t1).next, t2).next.state == AnalyzingMaterial
    ensures Step(v, t1).sent + Step(Step(v, t1).next, t2).sent == [DetectRequest]
  {
    MotionStartsDetection(v, t1);
    MotionConfirmSendsRequest(Step(v, t1).next, t2);
  }

  // ------------------------------------------------------ any number of passes

  /**
   * BIN_FULL is never left by a pass of `loop`, even once the compartments
   * read empty again: only the maintenance toggle leaves it.
   */
  lemma {:induction false} BinFullPersists(v: Vars, ts: seq<TickInput>)
    requires v.state == BinFull
    ensures Run(v, ts).state == BinFull
    decreases |ts|
  {
    if ts != [] {
      BinFullPersists(Step(v, ts[0]).next, ts[1..]);
    }
  }

  /** The invariant holds after any number of passes, so amber is never shown. */
  lemma {:induction false} RunConsistent(v: Vars, ts: seq<TickInput>)
    requires Consistent(v)
    ensures Consistent(Run(v, ts))
    ensures Run(v, ts).leds != Amber
    decreases |ts|
  {
    if ts != [] {
      StepConsistent(v, ts[0]);
      RunConsistent(Step(v, ts[0]).next, ts[1..]);
    }
  }

  /**
   * Passes in which motion is seen again within MOTION_TIMEOUT of the previous
   * sighting, with both compartments below the threshold.
   */
  ghost predicate MotionHeld(since: U32, ts: seq<TickInput>)
    decreases |ts|
  {
    ts != [] ==>
      && ts[0].pir && NotFull(ts[0])
      && Elapsed(ts[0].now, since) <= MOTION_TIMEOUT
      && MotionHeld(ts[0].now, ts[1..])
  }

  /**
   * An open lid stays open for as long as motion keeps being seen: the state
   * stays BIN_OPEN and neither servo moves.
   */
  lemma {:induction false} HeldMotionKeepsLidOpen(v: Vars, ts: seq<TickInput>)
    requires v.state == BinOpen && MotionHeld(v.lastMotionTime, ts)
    ensures Run(v, ts).state == BinOpen
    ensures Run(v, ts).organicServo == v.organicServo
    ensures Run(v, ts).nonOrganicServo == v.nonOrganicServo
    decreases |ts|
  {
    if ts != [] {
      MotionKeepsLidOpen(v, ts[0]);
      HeldMotionKeepsLidOpen(Step(v, ts[0]).next, ts[1..]);
    }
  }
}
