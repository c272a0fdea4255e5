/**
 * The addressed-message bus between the bin controller and the classifier
 * node: a message is an identifier and an ASCII payload.
 */
module Bus {
  import opened Wrappers

  datatype Message = Message(id: nat, payload: string)

  /** Identifier of the controller's "classify now" request. */
  const DETECT_REQUEST_ID: nat := 0x100
  /** Identifier of the classifier node's answer. */
  const MATERIAL_RESPONSE_ID: nat := 0x200
  const DETECT_COMMAND: string := "DETECT_MATERIAL"
  const MATERIAL_PREFIX: string := "MATERIAL:"
  const UNKNOWN_MATERIAL: string := "UNKNOWN"

  /** The one request the controller sends. */
  const DetectRequest: Message := Message(DETECT_REQUEST_ID, DETECT_COMMAND)

  /** Arduino `String::startsWith`: `s` is `prefix` followed by the rest of `s`. */
  predicate StartsWith(s: string, prefix: string): (b: bool)
    ensures b <==> |prefix| <= |s| && s == prefix + s[|prefix|..]
  {
    |prefix| <= |s| && s[..|prefix|] == prefix
  }

  /** The answer the classifier node sends for a material. */
  function MaterialResponse(material: string): (m: Message)
    ensures m.id == MATERIAL_RESPONSE_ID
    ensures StartsWith(m.payload, MATERIAL_PREFIX)
    ensures |m.payload| == |MATERIAL_PREFIX| + |material|
  {
    Message(MATERIAL_RESPONSE_ID, MATERIAL_PREFIX + material)
  }

  /**
   * The controller's reading of a received message: a material only for a
   * material response, which is then exactly the payload after the prefix
   * (`substring(9)`).
   */
  function ParseMaterial(m: Message): (r: Option<string>)
    ensures r.Some? <==> m.id == MATERIAL_RESPONSE_ID && StartsWith(m.payload, MATERIAL_PREFIX)
    ensures r.Some? ==> m == MaterialResponse(r.value)
  {
    if m.id == MATERIAL_RESPONSE_ID && StartsWith(m.payload, MATERIAL_PREFIX) then
      Some(m.payload[|MATERIAL_PREFIX|..])
    else
      None
  }

  /** Whatever material the classifier node puts in its answer, the controller reads back. */
  lemma ParseMaterialRoundTrip(material: string)
    ensures ParseMaterial(MaterialResponse(material)) == Some(material)
  {
    var p := MaterialResponse(material).payload;
    assert p[..|MATERIAL_PREFIX|] == MATERIAL_PREFIX;
    assert p[|MATERIAL_PREFIX|..] == material;
  }

  /** The request is never mistaken for an answer. */
  lemma RequestIsNotAnAnswer()
    ensures ParseMaterial(DetectRequest) == None
  {
  }
}
