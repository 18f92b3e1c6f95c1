// The context handler's entry point: `enforcePolicy` stamps the request with a fresh
// message id, asks the PDP service for a decision, and turns a NoPolicyFoundException
// into an ordinary response without obligations. Every other exception reaches the caller.

module ContextHandler {
  import opened Common
  import opened Dto
  import PolicyDecisionPoint
  import PolicyProviderStub
  import RequestGenerator

  /**
   * The response `enforcePolicy` gives for the PDP's response or exception, as written: a
   * NoPolicyFoundException becomes a response whose decision is first DENY and is then
   * overwritten with the exception's class name.
   */
  function Enforced(pdp: Result<PolicyDecisionPoint.Verdict>): (r: Result<PolicyDecisionPoint.Verdict>)
    ensures pdp.Ok? ==> r == pdp
    ensures pdp.Err? && !pdp.error.NoPolicyFound? ==> r == pdp
    ensures r.Ok? <==> pdp.Ok? || pdp.error.NoPolicyFound?
    ensures pdp.Err? && pdp.error.NoPolicyFound? ==> r.value.obligations == [] && r.value.decision == ClassName(pdp.error)
  {
    match pdp
    case Ok(_) => pdp
    case Err(e) =>
      if e.NoPolicyFound? then Ok(PolicyDecisionPoint.Verdict(ClassName(e), [])) else pdp
  }

  /** As written, a request for which no policy is found is not answered DENY. */
  lemma NoPolicyFoundIsNotDenied(message: string)
    ensures Enforced(Err(NoPolicyFound(message))).Ok?
    ensures Enforced(Err(NoPolicyFound(message))).value.decision
         == "gov.samhsa.c2s.contexthandler.service.exception.NoPolicyFoundException"
    ensures Enforced(Err(NoPolicyFound(message))).value.decision != DecisionDeny
  {
    var decision := Enforced(Err(NoPolicyFound(message))).value.decision;
    assert |decision| != |DecisionDeny|;
  }

  /** The response the tests expect: DENY with no obligations when no policy is found. */
  function EnforcedAsTested(pdp: Result<PolicyDecisionPoint.Verdict>): (r: Result<PolicyDecisionPoint.Verdict>)
    ensures pdp.Err? && pdp.error.NoPolicyFound? ==> r == Ok(PolicyDecisionPoint.Verdict(DecisionDeny, []))
    ensures pdp.Ok? || !pdp.error.NoPolicyFound? ==> r == pdp
  {
    match pdp
    case Ok(_) => pdp
    case Err(e) =>
      if e.NoPolicyFound? then Ok(PolicyDecisionPoint.Verdict(DecisionDeny, [])) else pdp
  }

  /** The two readings differ only in the decision string of the no-policy response. */
  lemma AsTestedDiffersOnlyOnNoPolicy(pdp: Result<PolicyDecisionPoint.Verdict>)
    ensures (pdp.Err? && pdp.error.NoPolicyFound?) <==> EnforcedAsTested(pdp) != Enforced(pdp)
    ensures EnforcedAsTested(pdp).Ok? == Enforced(pdp).Ok?
    ensures EnforcedAsTested(pdp).Ok? ==> EnforcedAsTested(pdp).value.obligations == Enforced(pdp).value.obligations
  {
    if pdp.Err? && pdp.error.NoPolicyFound? {
      NoPolicyFoundIsNotDenied(pdp.error.message);
    }
  }

  /** The request the PDP sees: the caller's request with the fresh message id in place of its own. */
  function Stamped(request: XacmlRequest, messageId: string): (r: XacmlRequest)
    ensures r.messageId == Some(messageId)
    ensures r.(messageId := request.messageId) == request
  {
    request.(messageId := Some(messageId))
  }

  /** `enforcePolicy(xacmlRequest)` as written; `messageId` is the UUID drawn for this call. */
  method EnforcePolicy(request: XacmlRequestDto, messageId: string,
                       repo: PolicyDecisionPoint.PolicyRepository, env: PolicyDecisionPoint.PdpEnv)
    returns (r: Result<XacmlResponseDto>)
    modifies request, repo
    ensures request.Snapshot() == Stamped(old(request.Snapshot()), messageId)
    ensures r.Ok? ==> fresh(r.value)
    ensures var c := PolicyDecisionPoint.CycleAsWritten(old(repo.deployment), request.Snapshot(),
                                                          PolicyDecisionPoint.Parsed(request.Snapshot(), env), env);
      PolicyDecisionPoint.Answers(r, Enforced(c.response)) && repo.deployment == c.deployment
  {
    request.SetMessageId(Some(messageId));
    var response, delivered := PolicyDecisionPoint.EvaluateRequest(repo, request.Snapshot(), env);
    if response.Err? && response.error.NoPolicyFound? {
      var denied := new XacmlResponseDto(DecisionDeny, []);
      denied.pdpDecision := ClassName(response.error);
      return Ok(denied);
    }
    r := response;
  }

  /** `enforcePolicy` answering DENY when no policy is found, over the PDP cycle with the cleanup. */
  method EnforcePolicyAsTested(request: XacmlRequestDto, messageId: string,
                               repo: PolicyDecisionPoint.PolicyRepository, env: PolicyDecisionPoint.PdpEnv)
    returns (r: Result<XacmlResponseDto>)
    modifies request, repo
    ensures request.Snapshot() == Stamped(old(request.Snapshot()), messageId)
    ensures r.Ok? ==> fresh(r.value)
    ensures var c := PolicyDecisionPoint.CycleWithCleanup(old(repo.deployment), request.Snapshot(),
                                                            PolicyDecisionPoint.Parsed(request.Snapshot(), env), env);
      PolicyDecisionPoint.Answers(r, EnforcedAsTested(c.response)) && repo.deployment == c.deployment
  {
    request.SetMessageId(Some(messageId));
    var response, delivered := PolicyDecisionPoint.EvaluateRequestWithCleanup(repo, request.Snapshot(), env);
    if response.Err? && response.error.NoPolicyFound? {
      var denied := new XacmlResponseDto(DecisionDeny, []);
      return Ok(denied);
    }
    r := response;
  }

  /**
   * With the stub as the source, an unknown patient is not an error for the caller: the
   * request is answered, with no obligations, and nothing is left deployed.
   */
  lemma UnknownPatientIsAnswered(deployment: seq<Evaluatable>, request: XacmlRequest,
                                 parsed: Option<RequestGenerator.RequestType>,
                                 env: PolicyDecisionPoint.PdpEnv)
    requires env.source.Stub?
    requires request.patientIdentifier !in {PolicyProviderStub.UnhandledErrorPatientId,
                                            PolicyProviderStub.PatientId,
                                            PolicyProviderStub.PatientIdSsn}
    ensures var c := PolicyDecisionPoint.CycleAsWritten(deployment, request, parsed, env);
      && Enforced(c.response).Ok? && Enforced(c.response).value.obligations == []
      && EnforcedAsTested(c.response) == Ok(PolicyDecisionPoint.Verdict(DecisionDeny, []))
      && c.deployment == deployment
  {
  }

  /** With the stub as the source, its unhandled-error patient makes `enforcePolicy` throw PolicyProviderException. */
  lemma UnhandledErrorPropagates(deployment: seq<Evaluatable>, request: XacmlRequest,
                                 parsed: Option<RequestGenerator.RequestType>,
                                 env: PolicyDecisionPoint.PdpEnv)
    requires env.source.Stub?
    requires request.patientIdentifier == PolicyProviderStub.UnhandledErrorPatientId
    ensures Enforced(PolicyDecisionPoint.CycleAsWritten(deployment, request, parsed, env).response)
         == Err(PolicyProviderError("Unhandled exception"))
  {
  }
}
