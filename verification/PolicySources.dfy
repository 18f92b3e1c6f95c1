// The configured policy provider behind the PDP: exactly one of the policy sources is
// wired in, and the PDP only ever calls its `getPolicies(XacmlRequestDto)`.
//
// The FHIR provider is not among them: its `getPolicies` returns null on success, which
// the PDP could not deploy, so it is modelled on its own.

module PolicySources {
  import opened Common
  import opened Dto
  import PolicySetService
  import JdbcPolicyProvider
  import PolRepPolicyProvider
  import PcmPolicyProvider
  import PolicyProviderStub

  /** The provider bean and what it reads besides the request. */
  datatype PolicySource =
    | Jdbc(pidType: string, db: JdbcPolicyProvider.Database)
    | PolRep(fields: PolRepPolicyProvider.PolRepFields)
    | Pcm(exportXacmlConsent: XacmlRequest -> PcmPolicyProvider.Export)
    | Stub(fixture: Attempt<seq<byte>>)

  /**
   * `policyProvider.getPolicies(request)` for the configured source. Every source that
   * returns at all returns one policy set, and a source reports a missing consent with its
   * own exception type: only the PCM export's 404, the stub's unknown patient and a 4xx
   * during assembly are NoPolicyFoundException; the JDBC source's empty query is not.
   */
  function PoliciesFrom(source: PolicySource, request: XacmlRequest,
                        env: PolicySetService.AssemblyEnv, setId: string): (r: Result<seq<Evaluatable>>)
    ensures r.Ok? ==> |r.value| == 1
    ensures source.PolRep? ==> r == Err(NullPointer)
  {
    match source
    case Jdbc(pidType, db) => JdbcPolicyProvider.PoliciesFor(request, pidType, db, env, setId)
    case PolRep(fields) => PolRepPolicyProvider.PoliciesFor(request, fields)
    case Pcm(exportConsent) => PcmPolicyProvider.PoliciesFor(request, exportConsent, env, setId)
    case Stub(fixture) => PolicyProviderStub.PoliciesFor(request, fixture, env, setId)
  }

  /** With the JDBC source, no consent in force reaches the PDP as PolicyNotFoundException, not NoPolicyFoundException. */
  lemma JdbcEmptyQueryIsPolicyNotFound(pidType: string, db: JdbcPolicyProvider.Database, request: XacmlRequest,
                                       env: PolicySetService.AssemblyEnv, setId: string)
    requires JdbcPolicyProvider.QueryConsents(db.consents, JdbcPolicyProvider.RequestKey(request, pidType), db.now) == []
    ensures PoliciesFrom(Jdbc(pidType, db), request, env, setId).Err?
    ensures PoliciesFrom(Jdbc(pidType, db), request, env, setId).error.PolicyNotFound?
  {
    JdbcPolicyProvider.NoConsentIsPolicyNotFound(request, pidType, db, env, setId);
  }

  /** The provider call, dispatched to the configured source's method. */
  method GetPolicies(source: PolicySource, request: XacmlRequest,
                     env: PolicySetService.AssemblyEnv, setId: string) returns (r: Result<seq<Evaluatable>>)
    ensures r == PoliciesFrom(source, request, env, setId)
  {
    match source
    case Jdbc(pidType, db) =>
      r := JdbcPolicyProvider.GetPolicies(request, pidType, db, env, setId);
    case PolRep(fields) =>
      r := PolRepPolicyProvider.PoliciesFor(request, fields);
    case Pcm(exportConsent) =>
      r := PcmPolicyProvider.GetPolicies(request, exportConsent, env, setId);
    case Stub(fixture) =>
      r := PolicyProviderStub.GetPolicies(request, fixture, env, setId);
  }
}
