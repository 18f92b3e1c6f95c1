// Turning submitted policy documents into PolicyDtos keyed by their own id.

module MappingUtils {
  import opened Common
  import opened Dto

  /** The two XPath lookups on a parsed policy document: its PolicySetId and its PolicyId attribute, when present. */
  datatype DocumentIds = DocumentIds(policySetId: Option<string>, policyId: Option<string>)

  const MissingIdMessage := "Cannot find the PolicyId/PolicySetId in one or more of the submitted policies!"

  /**
   * `toPolicyDto(byte[])`: the bytes are parsed first, and a parse failure throws
   * DOMUtilsException; the id is the PolicySetId when the document has one, otherwise its
   * PolicyId; a document with neither throws PolicyIdNotFoundException. `readIds` stands for
   * `bytesToDocument` followed by the two XPath lookups.
   */
  function ToPolicyDto(policy: seq<byte>, readIds: seq<byte> -> Attempt<DocumentIds>): (r: Result<PolicyDto>)
    ensures readIds(policy).Threw? ==> r == Err(DomUtils(readIds(policy).message))
    ensures r.Ok? <==> readIds(policy).Done? && (readIds(policy).value.policySetId.Some? || readIds(policy).value.policyId.Some?)
    ensures r.Ok? ==> r.value.policy == policy && !r.value.valid
    ensures r.Ok? && readIds(policy).value.policySetId.Some? ==> r.value.id == readIds(policy).value.policySetId.value
    ensures r.Ok? && readIds(policy).value.policySetId.None? ==> r.value.id == readIds(policy).value.policyId.value
    ensures readIds(policy).Done? && r.Err? ==> r.error == PolicyIdNotFound(MissingIdMessage)
  {
    match readIds(policy)
    case Threw(m) => Err(DomUtils(m))
    case Done(ids) =>
      var id := if ids.policySetId.Some? then ids.policySetId else ids.policyId;
      if id.None? then Err(PolicyIdNotFound(MissingIdMessage))
      else Ok(PolicyDto(id.value, false, policy))
  }

  /** A PolicyContentDto: a wrapper around the policy bytes. */
  datatype PolicyContentDto = PolicyContentDto(policy: seq<byte>)

  /** `toPolicyDto(PolicyContentDto)`: the same mapping applied to the wrapped bytes. */
  function ContentToPolicyDto(content: PolicyContentDto, readIds: seq<byte> -> Attempt<DocumentIds>): (r: Result<PolicyDto>)
    ensures r.Ok? ==> r.value.policy == content.policy
    ensures r == ToPolicyDto(content.policy, readIds)
  {
    ToPolicyDto(content.policy, readIds)
  }
}
