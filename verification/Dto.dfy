// The data transfer objects that travel between the REST layer, the policy
// providers and the PDP.

module Dto {
  import opened Common
  import opened PurposeOfUse

  /** An IdentifierDto: an OID and a value, compared field by field. */
  datatype Identifier = Identifier(oid: string, value: string)

  /** Lombok's `toString` of an IdentifierDto. */
  function IdentifierText(i: Identifier): string
  {
    "IdentifierDto(oid=" + i.oid + ", value=" + i.value + ")"
  }

  /** The content of an XacmlRequestDto at one moment. */
  datatype XacmlRequest = XacmlRequest(
    recipientIdentifier: Identifier,
    intermediaryIdentifier: Identifier,
    purposeOfUse: SubjectPurposeOfUse,
    patientIdentifier: Identifier,
    actionId: string,
    messageId: Option<string>)

  /** Lombok's `toString` of an XacmlRequestDto. */
  function RequestText(r: XacmlRequest): string
  {
    "XacmlRequestDto(recipientIdentifier=" + IdentifierText(r.recipientIdentifier)
    + ", intermediaryIdentifier=" + IdentifierText(r.intermediaryIdentifier)
    + ", purposeOfUse=" + Name(r.purposeOfUse)
    + ", patientIdentifier=" + IdentifierText(r.patientIdentifier)
    + ", actionId=" + r.actionId
    + ", messageId=" + JavaString(r.messageId) + ")"
  }

  /** The request object; the core only ever changes its message id. */
  class XacmlRequestDto {
    const recipientIdentifier: Identifier
    const intermediaryIdentifier: Identifier
    const purposeOfUse: SubjectPurposeOfUse
    const patientIdentifier: Identifier
    const actionId: string
    var messageId: Option<string>

    constructor (r: XacmlRequest)
      ensures Snapshot() == r
    {
      recipientIdentifier := r.recipientIdentifier;
      intermediaryIdentifier := r.intermediaryIdentifier;
      purposeOfUse := r.purposeOfUse;
      patientIdentifier := r.patientIdentifier;
      actionId := r.actionId;
      messageId := r.messageId;
    }

    function Snapshot(): XacmlRequest
      reads this
    {
      XacmlRequest(recipientIdentifier, intermediaryIdentifier, purposeOfUse,
                   patientIdentifier, actionId, messageId)
    }

    method SetMessageId(id: Option<string>)
      modifies this
      ensures Snapshot() == old(Snapshot()).(messageId := id)
    {
      messageId := id;
    }
  }

  /** The response object: a decision and the obligation strings, both set through setters. */
  class XacmlResponseDto {
    var pdpDecision: string
    var pdpObligations: seq<string>

    constructor (decision: string, obligations: seq<string>)
      ensures pdpDecision == decision && pdpObligations == obligations
    {
      pdpDecision := decision;
      pdpObligations := obligations;
    }
  }

  /** A PolicyDto: its id, the validity flag and the policy document's bytes. */
  datatype PolicyDto = PolicyDto(id: string, valid: bool, policy: seq<byte>)

  /** A policy or policy set as the PDP holds it; the PDP knows it by its id. */
  datatype Evaluatable = Evaluatable(id: string, content: seq<byte>)

  const DecisionDeny := "DENY"
}
