// The two guards the JDBC provider applies around its query.

module AssertionUtils {
  import opened Common
  import opened Dto

  /** `assertPoliciesNotEmpty`: a null or empty result list throws PolicyNotFoundException naming the id. */
  function AssertPoliciesNotEmpty(policies: Option<seq<PolicyDto>>, policyId: Option<string>): (o: Outcome)
    ensures o.Pass? <==> policies.Some? && |policies.value| > 0
    ensures o.Fail? ==> o.error == PolicyNotFound("Policy/PolicySet cannot be found with given ID: " + JavaString(policyId))
  {
    if policies.None? || |policies.value| == 0 then
      Fail(PolicyNotFound("Policy/PolicySet cannot be found with given ID: " + JavaString(policyId)))
    else
      Pass
  }

  /** `assertPolicyId`: an id passes exactly when it is non-null and holds a non-whitespace character. */
  function AssertPolicyId(policyId: Option<string>): (o: Outcome)
    ensures o.Pass? <==> policyId.Some? && exists i :: 0 <= i < |policyId.value| && !IsWhitespace(policyId.value[i])
    ensures o.Fail? ==> o.error == PolicyIdNotFound("Policy ID must have a text!")
  {
    if !HasText(policyId) then Fail(PolicyIdNotFound("Policy ID must have a text!")) else Pass
  }

  /** The null id, the empty id and an all-whitespace id are refused alike. */
  lemma BlankPolicyIdsRefused()
    ensures AssertPolicyId(None).Fail?
    ensures AssertPolicyId(Some("")).Fail?
    ensures AssertPolicyId(Some(" \t\n")).Fail?
    ensures AssertPolicyId(Some(" a ")).Pass?
  {
    assert !IsWhitespace(" a "[1]);
  }
}
