/**
 * The classification exchange end to end: the controller's request is the
 * one message the classifier node acts on, and the node's answer drives the
 * controller's choice of compartment.
 */
module Protocol {
  import opened Wrappers
  import opened Millis
  import opened Bus
  import opened ControllerSpec
  import opened ControllerProperties
  import opened Classifier

  /** The controller's request passes the node's filter; an answer never does. */
  lemma RequestReachesClassifier(reply: ServiceReply)
    ensures IsDetectRequest(Some(DetectRequest))
    ensures !IsDetectRequest(Some(Message(MATERIAL_RESPONSE_ID, ResponsePayload(reply))))
  {
  }

  /**
   * An answer reporting "ORGANIC" or "NON_ORGANIC", arriving within the
   * classification timeout, opens that compartment's lid on the following
   * pass when neither compartment reads full.
   */
  lemma AnswerOpensMatchingLid(v: Vars, t1: TickInput, t2: TickInput, reply: ServiceReply)
    requires v.state == AnalyzingMaterial && NotFull(t1) && NotFull(t2)
    requires t1.received == Some(Message(MATERIAL_RESPONSE_ID, ResponsePayload(reply)))
    requires Elapsed(t1.now, v.detectionStartTime) <= CLASSIFY_TIMEOUT
    requires ReplyMaterial(reply) == Some("ORGANIC") || ReplyMaterial(reply) == Some("NON_ORGANIC")
    ensures var w := Step(Step(v, t1).next, t2).next;
            && w.state == BinOpen
            && (ReplyMaterial(reply) == Some("ORGANIC") ==> w.organicServo == SERVO_OPEN && w.nonOrganicServo == v.nonOrganicServo)
            && (ReplyMaterial(reply) == Some("NON_ORGANIC") ==> w.nonOrganicServo == SERVO_OPEN && w.organicServo == v.organicServo)
  {
    AnswerRoundTrip(reply);
    var m := ReplyMaterial(reply).value;
    assert t1.received == Some(MaterialResponse(m));
    AnswerSelectsBin(v, t1, m);
    OpeningOpensSelectedLid(Step(v, t1).next, t2);
  }

  /**
   * A failed exchange is answered with UNKNOWN, which the controller accepts
   * as a label but which does not choose a compartment: the previous choice
   * stays (only the timeout path defaults to the organic compartment).
   */
  lemma FailedExchangeKeepsPreviousChoice(v: Vars, t: TickInput, reply: ServiceReply)
    requires v.state == AnalyzingMaterial && NotFull(t)
    requires t.received == Some(Message(MATERIAL_RESPONSE_ID, ResponsePayload(reply)))
    requires Elapsed(t.now, v.detectionStartTime) <= CLASSIFY_TIMEOUT
    requires ReplyMaterial(reply).None?
    ensures Step(v, t).next.state == OpeningBin
    ensures Step(v, t).next.detectedMaterial == "UNKNOWN"
    ensures Step(v, t).next.selectedBin == v.selectedBin
  {
    AnswerRoundTrip(reply);
    assert t.received == Some(MaterialResponse(UNKNOWN_MATERIAL));
    AnswerSelectsBin(v, t, UNKNOWN_MATERIAL);
  }
}
