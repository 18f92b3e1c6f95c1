// The XACML attribute identifiers and data types the PDP requests are built from.

module PdpAttributeIds {

  const XsString := "http://www.w3.org/2001/XMLSchema#string"
  const XsDateTime := "http://www.w3.org/2001/XMLSchema#dateTime"

  datatype PdpAttributeId =
    | SubjectRecipient
    | SubjectIntermediary
    | SubjectPou
    | ResourceTypeCode
    | ResourceStatus
    | ActionActionId
    | EnvironmentCurrentDateTime

  /** The pair each constant is constructed with. */
  datatype AttributeDef = AttributeDef(attributeId: string, attributeType: string)

  /** The two-argument constructor: identifier and data type as given. */
  function WithType(id: string, attributeType: string): (d: AttributeDef)
    ensures d.attributeId == id && d.attributeType == attributeType
  {
    AttributeDef(id, attributeType)
  }

  /** The one-argument constructor: the data type defaults to xs:string. */
  function StringTyped(id: string): (d: AttributeDef)
    ensures d.attributeId == id && d.attributeType == XsString
  {
    WithType(id, XsString)
  }

  function Definition(a: PdpAttributeId): AttributeDef
  {
    match a
    case SubjectRecipient => StringTyped("urn:oasis:names:tc:xacml:1.0:subject-category:recipient-subject")
    case SubjectIntermediary => StringTyped("urn:oasis:names:tc:xacml:1.0:subject-category:intermediary-subject")
    case SubjectPou => StringTyped("urn:oasis:names:tc:xspa:1.0:subject:purposeofuse")
    case ResourceTypeCode => StringTyped("urn:oasis:names:tc:xacml:1.0:resource:typeCode")
    case ResourceStatus => StringTyped("xacml:status")
    case ActionActionId => StringTyped("urn:oasis:names:tc:xacml:1.0:action:action-id")
    case EnvironmentCurrentDateTime => WithType("urn:oasis:names:tc:xacml:1.0:environment:current-dateTime", XsDateTime)
  }

  /** `getAttributeId()`. */
  function AttributeId(a: PdpAttributeId): string
  {
    Definition(a).attributeId
  }

  /** `getAttributeType()`. */
  function AttributeType(a: PdpAttributeId): string
  {
    Definition(a).attributeType
  }

  /** Every constant but the current date-time is string typed. */
  lemma AttributeTypes(a: PdpAttributeId)
    ensures AttributeType(a) == if a == EnvironmentCurrentDateTime then XsDateTime else XsString
  {
  }

  /** No two constants share an attribute identifier, so the identifier names the constant. */
  lemma AttributeIdsDistinct(a: PdpAttributeId, b: PdpAttributeId)
    ensures AttributeId(a) == AttributeId(b) ==> a == b
  {
    // the seven identifiers have seven different lengths
    IdentifierLength(a);
    IdentifierLength(b);
  }

  lemma IdentifierLength(a: PdpAttributeId)
    ensures |AttributeId(a)| == match a
      case SubjectRecipient => 63
      case SubjectIntermediary => 66
      case SubjectPou => 48
      case ResourceTypeCode => 46
      case ResourceStatus => 12
      case ActionActionId => 45
      case EnvironmentCurrentDateTime => 57
  {
  }
}
