// The policy source that asks the consent management service (PCM) to export the
// patient's consent as XACML, then wraps that one policy in a policy set.

module PcmPolicyProvider {
  import opened Common
  import opened Dto
  import PolicySetService

  /** A ConsentXacmlDto: the consent's reference id and its XACML text. */
  datatype ConsentXacml = ConsentXacml(consentRefId: string, consentXacml: string)

  /** The outcome of the PCM client call: the exported consent, or a FeignException with its HTTP status. */
  datatype Export = Exported(consent: ConsentXacml) | FeignFailed(status: int)

  const UnknownErrorMessage := "An unknown error occurred while attempting to communicate with PCM service"

  /**
   * `convertConsentDtoListToXacmlPolicyDtoList`: the exported consent as the only PolicyDto,
   * its XACML encoded as UTF-8; status 404 throws NoPolicyFoundException, any other status
   * PcmClientInterfaceException.
   */
  function ConvertedPolicies(request: XacmlRequest, exported: Export): (r: Result<seq<PolicyDto>>)
    ensures r.Ok? <==> exported.Exported?
    ensures r.Ok? ==> |r.value| == 1 && r.value[0].id == exported.consent.consentRefId
    ensures r.Ok? ==> r.value[0].policy == Utf8(exported.consent.consentXacml)
    ensures exported.FeignFailed? && exported.status == 404 ==>
      r == Err(NoPolicyFound("Consent not found with given XACML Request" + RequestText(request)))
    ensures exported.FeignFailed? && exported.status != 404 ==> r == Err(PcmClientInterface(UnknownErrorMessage))
  {
    match exported
    case Exported(c) => Ok([PolicyDto(c.consentRefId, false, Utf8(c.consentXacml))])
    case FeignFailed(status) =>
      if status == 404 then Err(NoPolicyFound("Consent not found with given XACML Request" + RequestText(request)))
      else Err(PcmClientInterface(UnknownErrorMessage))
  }

  /** `getPolicies`: the converted list combined under a fresh id and deny-overrides, as a one-element list. */
  function PoliciesFor(request: XacmlRequest, exportXacmlConsent: XacmlRequest -> Export,
                       env: PolicySetService.AssemblyEnv, setId: string): (r: Result<seq<Evaluatable>>)
    ensures r.Ok? ==> |r.value| == 1
    ensures ConvertedPolicies(request, exportXacmlConsent(request)).Err? ==>
      r == Err(ConvertedPolicies(request, exportXacmlConsent(request)).error)
    ensures r.Ok? ==>
      Ok(r.value[0]) == PolicySetService.CombinedAsPolicySet(env, ConvertedPolicies(request, exportXacmlConsent(request)).value,
                                                            Some(setId), Some(PolicySetService.DenyOverrides), setId)
    ensures ConvertedPolicies(request, exportXacmlConsent(request)).Ok? ==>
      var combined := PolicySetService.CombinedAsPolicySet(env, ConvertedPolicies(request, exportXacmlConsent(request)).value,
                                                           Some(setId), Some(PolicySetService.DenyOverrides), setId);
      combined.Err? ==> r == Err(combined.error)
    ensures ConvertedPolicies(request, exportXacmlConsent(request)).Ok? ==>
      var combined := PolicySetService.CombinedAsPolicySet(env, ConvertedPolicies(request, exportXacmlConsent(request)).value,
                                                           Some(setId), Some(PolicySetService.DenyOverrides), setId);
      combined.Ok? ==> r == Ok([combined.value])
  {
    var policies :- ConvertedPolicies(request, exportXacmlConsent(request));
    var policySet :- PolicySetService.CombinedAsPolicySet(env, policies, Some(setId), Some(PolicySetService.DenyOverrides), setId);
    Ok([policySet])
  }

  /** The provider method. */
  method GetPolicies(request: XacmlRequest, exportXacmlConsent: XacmlRequest -> Export,
                     env: PolicySetService.AssemblyEnv, setId: string) returns (r: Result<seq<Evaluatable>>)
    ensures r == PoliciesFor(request, exportXacmlConsent, env, setId)
  {
    var policies := ConvertedPolicies(request, exportXacmlConsent(request));
    if policies.Err? {
      return Err(policies.error);
    }
    var policySet := PolicySetService.GetPoliciesCombinedAsPolicySet(
      env, policies.value, Some(setId), Some(PolicySetService.DenyOverrides), setId);
    if policySet.Err? {
      return Err(policySet.error);
    }
    return Ok([policySet.value]);
  }
}
