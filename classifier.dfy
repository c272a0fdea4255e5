/**
 * The classifier node (the camera board): it answers a detection request on
 * the bus by capturing a frame, posting it to the classification service
 * and sending back exactly one material answer, UNKNOWN whenever anything
 * on the way fails. The camera, WiFi and HTTP client are foreign: what they
 * returned is an input here.
 */
module Classifier {
  import opened Wrappers
  import opened Bus

  /**
   * What the classification service exchange came to: whether WiFi was up,
   * the HTTP code `POST` returned (at most 0 for a transport error), and the
   * parsed body's `material` field (None when the JSON does not parse).
   */
  datatype ServiceReply = ServiceReply(wifiConnected: bool, httpCode: int, material: Option<string>)

  /** The material a reply yields: present only for a connected, successful, parseable exchange. */
  function ReplyMaterial(reply: ServiceReply): (m: Option<string>)
    ensures m.Some? <==> reply.wifiConnected && reply.httpCode > 0 && reply.material.Some?
    ensures m.Some? ==> m == reply.material
  {
    if reply.wifiConnected && reply.httpCode > 0 then reply.material else None
  }

  /**
   * The payload `sendToBackend` puts on the bus: "MATERIAL:" and the service's
   * material after a successful exchange, "MATERIAL:UNKNOWN" after each of the
   * three failures (no WiFi, HTTP code at most 0, unparseable body).
   */
  function ResponsePayload(reply: ServiceReply): (p: string)
    ensures StartsWith(p, MATERIAL_PREFIX)
    ensures !reply.wifiConnected ==> p == "MATERIAL:UNKNOWN"
    ensures reply.wifiConnected && reply.httpCode <= 0 ==> p == "MATERIAL:UNKNOWN"
    ensures reply.wifiConnected && reply.httpCode > 0 && reply.material.None? ==> p == "MATERIAL:UNKNOWN"
    ensures ReplyMaterial(reply).Some? ==> p == MATERIAL_PREFIX + ReplyMaterial(reply).value
  {
    match ReplyMaterial(reply)
    case Some(m) => MaterialResponse(m).payload
    case None => MaterialResponse(UNKNOWN_MATERIAL).payload
  }

  /** The only request the node acts on: id 0x100 with payload exactly "DETECT_MATERIAL". */
  predicate IsDetectRequest(received: Option<Message>): (b: bool)
    ensures b <==> received == Some(DetectRequest)
  {
    received.Some? && received.value.id == DETECT_REQUEST_ID && received.value.payload == DETECT_COMMAND
  }

  /**
   * Protocol round trip: the controller reads back from the node's answer
   * exactly the service's material, or UNKNOWN when the exchange failed.
   */
  lemma AnswerRoundTrip(reply: ServiceReply)
    ensures ParseMaterial(Message(MATERIAL_RESPONSE_ID, ResponsePayload(reply)))
            == Some(ReplyMaterial(reply).GetOr(UNKNOWN_MATERIAL))
  {
    ParseMaterialRoundTrip(ReplyMaterial(reply).GetOr(UNKNOWN_MATERIAL));
  }

  class ClassifierNode {
    var isDetecting: bool
    var lastDetectedMaterial: string
    /** Messages sent on the bus, oldest first. */
    var outbox: seq<Message>

    constructor ()
      ensures !isDetecting && lastDetectedMaterial == UNKNOWN_MATERIAL && outbox == []
    {
      isDetecting := false;
      lastDetectedMaterial := UNKNOWN_MATERIAL;
      outbox := [];
    }

    /**
     * `sendToBackend`: exactly one answer, always on id 0x200; the last
     * detected material changes only after a successful exchange.
     */
    method SendToBackend(reply: ServiceReply)
      modifies this`outbox, this`lastDetectedMaterial
      ensures outbox == old(outbox) + [Message(MATERIAL_RESPONSE_ID, ResponsePayload(reply))]
      ensures lastDetectedMaterial == ReplyMaterial(reply).GetOr(old(lastDetectedMaterial))
    {
      if !reply.wifiConnected {
        outbox := outbox + [Message(MATERIAL_RESPONSE_ID, "MATERIAL:UNKNOWN")];
        return;
      }
      if reply.httpCode > 0 {
        if reply.material.Some? {
          var material := reply.material.value;
          var canMessage := MATERIAL_PREFIX + material;
          outbox := outbox + [Message(MATERIAL_RESPONSE_ID, canMessage)];
          lastDetectedMaterial := material;
        } else {
          outbox := outbox + [Message(MATERIAL_RESPONSE_ID, "MATERIAL:UNKNOWN")];
        }
      } else {
        outbox := outbox + [Message(MATERIAL_RESPONSE_ID, "MATERIAL:UNKNOWN")];
      }
    }

    /**
     * `detectMaterial`: a failed capture sends nothing; otherwise the one
     * answer of `sendToBackend`. Either way the node is no longer detecting.
     */
    method DetectMaterial(captured: bool, reply: ServiceReply)
      modifies this
      ensures !isDetecting
      ensures captured ==> outbox == old(outbox) + [Message(MATERIAL_RESPONSE_ID, ResponsePayload(reply))]
      ensures captured ==> lastDetectedMaterial == ReplyMaterial(reply).GetOr(old(lastDetectedMaterial))
      ensures !captured ==> outbox == old(outbox) && lastDetectedMaterial == old(lastDetectedMaterial)
    {
      if !captured {
        isDetecting := false;
        return;
      }
      SendToBackend(reply);
      isDetecting := false;
    }

    /**
     * One pass of the node's `loop`: a detection request starts a detection;
     * any other message, or none, leaves the node and its outbox unchanged.
     */
    method Poll(received: Option<Message>, captured: bool, reply: ServiceReply)
      modifies this
      ensures !IsDetectRequest(received) ==>
                && outbox == old(outbox)
                && isDetecting == old(isDetecting)
                && lastDetectedMaterial == old(lastDetectedMaterial)
      ensures IsDetectRequest(received) ==>
                && !isDetecting
                && outbox == old(outbox) + (if captured then [Message(MATERIAL_RESPONSE_ID, ResponsePayload(reply))] else [])
                && lastDetectedMaterial == (if captured then ReplyMaterial(reply).GetOr(old(lastDetectedMaterial))
                                            else old(lastDetectedMaterial))
    {
      if received.Some? {
        var m := received.value;
        if m.id == DETECT_REQUEST_ID && m.payload == DETECT_COMMAND {
          isDetecting := true;
          DetectMaterial(captured, reply);
        }
      }
    }

    /**
     * The `/api/detect` endpoint: the same detection, started over HTTP, and
     * answered with 200 whatever the detection came to.
     */
    method TriggerDetection(captured: bool, reply: ServiceReply) returns (status: int)
      modifies this
      ensures status == 200
      ensures !isDetecting
      ensures outbox == old(outbox) + (if captured then [Message(MATERIAL_RESPONSE_ID, ResponsePayload(reply))] else [])
      ensures lastDetectedMaterial == (if captured then ReplyMaterial(reply).GetOr(old(lastDetectedMaterial))
                                       else old(lastDetectedMaterial))
    {
      isDetecting := true;
      DetectMaterial(captured, reply);
      status := 200;
    }
  }
}
