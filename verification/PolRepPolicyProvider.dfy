// The policy source meant to fetch a combined policy set from the policy repository.
// The repository call is disabled in the code; what remains builds the lookup key and
// unmarshals the bytes of an empty PolicyDto.

module PolRepPolicyProvider {
  import opened Common
  import opened Dto

  /** The provider's two fields; nothing ever assigns them, so both stay null. */
  datatype PolRepFields = PolRepFields(pidDomain: Option<string>, pidDomainType: Option<string>)

  const Unassigned := PolRepFields(None, None)

  /** `toPolicyId`: like the JDBC key, but ending in the repository's wildcard `*`, and with null fields rendered as "null". */
  function ToPolicyId(pid: string, pidDomain: Option<string>, pidDomainType: Option<string>,
                      recipientNpi: string, intermediaryNpi: string): string
  {
    pid + ":" + "&" + JavaString(pidDomain) + "&" + JavaString(pidDomainType) + ":"
    + recipientNpi + ":" + intermediaryNpi + ":" + "*"
  }

  /** The key `getPolicies` builds: the domain comes from the field, not from the request's patient root. */
  function RequestKey(request: XacmlRequest, fields: PolRepFields): string
  {
    ToPolicyId(request.patientIdentifier.value, fields.pidDomain, fields.pidDomainType,
               request.recipientIdentifier.value, request.intermediaryIdentifier.value)
  }

  /** The key does not depend on the request's patient root at all. */
  lemma RequestKeyIgnoresPatientRoot(request: XacmlRequest, root: string, fields: PolRepFields)
    ensures RequestKey(request.(patientIdentifier := request.patientIdentifier.(oid := root)), fields)
         == RequestKey(request, fields)
  {
  }

  /** With the fields unassigned, the key spells out "null" twice. */
  lemma UnassignedKeyText(request: XacmlRequest)
    ensures RequestKey(request, Unassigned)
         == request.patientIdentifier.value + ":&null&null:" + request.recipientIdentifier.value
            + ":" + request.intermediaryIdentifier.value + ":*"
  {
  }

  /**
   * `getPolicies`: the key is built and not used; `new PolicyDto()` leaves the policy bytes null,
   * and `new ByteArrayInputStream(null)` throws NullPointerException, which neither catch
   * block handles. The SyntaxException and HttpStatusCodeException handlers are never reached.
   */
  function PoliciesFor(request: XacmlRequest, fields: PolRepFields): Result<seq<Evaluatable>>
  {
    var policyId := RequestKey(request, fields);
    Err(NullPointer)
  }

  /** As written the provider never returns a policy list: every call throws NullPointerException. */
  lemma AlwaysThrowsNullPointer(request: XacmlRequest, fields: PolRepFields)
    ensures PoliciesFor(request, fields) == Err(NullPointer)
  {
  }
}
