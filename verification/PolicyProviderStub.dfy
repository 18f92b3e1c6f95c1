// The test double the integration tests run the service against: it recognises two mock
// patients, fails on purpose for a third identifier and rejects everything else.

module PolicyProviderStub {
  import opened Common
  import opened Dto
  import PolicySetService

  const MockMrn := "mockMrn"
  const MockSsn := "mockSSN"
  const MockMrnOid := "1.3.6.1.4.1.21367.13.20.200"
  const OidSsn := "2.16.840.1.113883.4.1"
  const UnhandledErrorPatientIdRoot := "UNHANDLED_ERROR_PATIENT_ID_ROOT"
  const UnhandledErrorPatientIdExtension := "UNHANDLED_ERROR_PATIENT_ID_EXTENSION"

  const PatientId := Identifier(MockMrnOid, MockMrn)
  const PatientIdSsn := Identifier(OidSsn, MockSsn)
  const UnhandledErrorPatientId := Identifier(UnhandledErrorPatientIdRoot, UnhandledErrorPatientIdExtension)

  /** The message of the NoPolicyFoundException for an unknown patient. */
  function MismatchMessage(patientIdentifier: Identifier): string
  {
    "Test request content doesn't match.\nExpected: " + IdentifierText(PatientId)
    + "\nActual: " + IdentifierText(patientIdentifier)
  }

  /**
   * `getPolicies`: identifiers are compared field by field. The unhandled-error identifier throws
   * PolicyProviderException; the two mock patients get the fixture file as their only policy,
   * combined under deny-overrides (an IOException reading it becomes a RuntimeException); any
   * other identifier throws NoPolicyFoundException.
   */
  function PoliciesFor(request: XacmlRequest, fixture: Attempt<seq<byte>>,
                       env: PolicySetService.AssemblyEnv, setId: string): (r: Result<seq<Evaluatable>>)
    ensures request.patientIdentifier == UnhandledErrorPatientId ==> r == Err(PolicyProviderError("Unhandled exception"))
    ensures request.patientIdentifier !in {UnhandledErrorPatientId, PatientId, PatientIdSsn} ==>
      r == Err(NoPolicyFound(MismatchMessage(request.patientIdentifier)))
    ensures request.patientIdentifier in {PatientId, PatientIdSsn} && fixture.Threw? ==> r == Err(Runtime(fixture.message))
    ensures request.patientIdentifier in {PatientId, PatientIdSsn} && fixture.Done? ==>
      r == match PolicySetService.CombinedAsPolicySet(env, [PolicyDto("consentReferenceId", false, fixture.value)],
                                                      Some(setId), Some(PolicySetService.DenyOverrides), setId)
           case Ok(policySet) => Ok([policySet])
           case Err(e) => Err(e)
    ensures r.Ok? ==> |r.value| == 1
  {
    var patientIdentifier := request.patientIdentifier;
    if patientIdentifier == UnhandledErrorPatientId then Err(PolicyProviderError("Unhandled exception"))
    else if patientIdentifier == PatientId || patientIdentifier == PatientIdSsn then
      match fixture
      case Threw(m) => Err(Runtime(m))
      case Done(bytes) =>
        var policyDto := PolicyDto("consentReferenceId", false, bytes);
        var policySet :- PolicySetService.CombinedAsPolicySet(env, [policyDto], Some(setId), Some(PolicySetService.DenyOverrides), setId);
        Ok([policySet])
    else Err(NoPolicyFound(MismatchMessage(patientIdentifier)))
  }

  /**
   * The mock SSN under any root but the SSN one (the tests use "INVALID_VALUE") is a different
   * identifier: the stub reports no policy.
   */
  lemma RootTakesPartInMatching(request: XacmlRequest, fixture: Attempt<seq<byte>>,
                                env: PolicySetService.AssemblyEnv, setId: string)
    requires request.patientIdentifier.value == MockSsn && request.patientIdentifier.oid != OidSsn
    ensures PoliciesFor(request, fixture, env, setId) == Err(NoPolicyFound(MismatchMessage(request.patientIdentifier)))
  {
    assert request.patientIdentifier != PatientId by {
      assert MockSsn[4] != MockMrn[4];
    }
    assert request.patientIdentifier != UnhandledErrorPatientId by {
      assert |MockSsn| != |UnhandledErrorPatientIdExtension|;
    }
  }

  /** The provider method. */
  method GetPolicies(request: XacmlRequest, fixture: Attempt<seq<byte>>,
                     env: PolicySetService.AssemblyEnv, setId: string) returns (r: Result<seq<Evaluatable>>)
    ensures r == PoliciesFor(request, fixture, env, setId)
  {
    var patientIdentifier := request.patientIdentifier;
    if patientIdentifier == UnhandledErrorPatientId {
      return Err(PolicyProviderError("Unhandled exception"));
    } else if patientIdentifier == PatientId || patientIdentifier == PatientIdSsn {
      if fixture.Threw? {
        return Err(Runtime(fixture.message));
      }
      var policyDto := PolicyDto("consentReferenceId", false, fixture.value);
      var policySet := PolicySetService.GetPoliciesCombinedAsPolicySet(
        env, [policyDto], Some(setId), Some(PolicySetService.DenyOverrides), setId);
      if policySet.Err? {
        return Err(policySet.error);
      }
      return Ok([policySet.value]);
    } else {
      return Err(NoPolicyFound(MismatchMessage(patientIdentifier)));
    }
  }
}
