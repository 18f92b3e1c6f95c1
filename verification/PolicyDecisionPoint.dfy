// The policy decision point service: one evaluation cycle fetches the request's policies
// from the configured source, deploys them into the PDP's policy repository, audits each
// deployed policy (rolling everything back on the first audit failure), evaluates the
// request, undeploys everything, and folds the evaluator's results into one response.
//
// The evaluator is a parameter: it is given the repository's deployment and the parsed
// request and returns a list of results or throws. The repository belongs to the shared
// PDP and outlives a cycle, so what one cycle leaves deployed the next one sees.

module PolicyDecisionPoint {
  import opened Common
  import opened Dto
  import PolicySetService
  import PolicySources
  import RequestGenerator

  /** The evaluator's decision for one result. */
  datatype Decision = Permit | Deny | Indeterminate | NotApplicable

  /** The decision's `toString`, which is its constant name. */
  function DecisionName(d: Decision): (s: string)
    ensures s == DecisionDeny <==> d == Deny
  {
    match d
    case Permit => "PERMIT"
    case Deny => "DENY"
    case Indeterminate => "INDETERMINATE"
    case NotApplicable => "NOT_APPLICABLE"
  }

  /** An attribute assignment of an obligation: its content objects, as their `toString`. */
  datatype AttributeAssignment = AttributeAssignment(content: seq<string>)

  datatype Obligation = Obligation(assignments: seq<AttributeAssignment>)

  /** One result: a decision and an obligations block, which may be null. */
  datatype XacmlResult = XacmlResult(decision: Decision, obligations: Option<seq<Obligation>>)

  /** The contents of a list of attribute assignments, in order. */
  function Contents(assignments: seq<AttributeAssignment>): seq<string>
  {
    if assignments == [] then []
    else Contents(assignments[..|assignments| - 1]) + assignments[|assignments| - 1].content
  }

  /** An obligations block flattened: obligation by obligation, assignment by assignment, content by content. */
  function Flatten(obligations: seq<Obligation>): seq<string>
  {
    if obligations == [] then []
    else Flatten(obligations[..|obligations| - 1]) + Contents(obligations[|obligations| - 1].assignments)
  }

  lemma {:induction false} ContentsHoldsEveryContent(assignments: seq<AttributeAssignment>, c: string)
    ensures c in Contents(assignments) <==> exists j :: 0 <= j < |assignments| && c in assignments[j].content
    decreases |assignments|
  {
    if assignments != [] {
      var n := |assignments| - 1;
      ContentsHoldsEveryContent(assignments[..n], c);
      assert forall j :: 0 <= j < n ==> assignments[..n][j] == assignments[j];
    }
  }

  /** A string is among the flattened obligations exactly when some assignment of some obligation holds it. */
  lemma {:induction false} FlattenHoldsEveryContent(obligations: seq<Obligation>, c: string)
    ensures c in Flatten(obligations) <==>
      exists i, j :: 0 <= i < |obligations| && 0 <= j < |obligations[i].assignments| && c in obligations[i].assignments[j].content
    decreases |obligations|
  {
    if obligations != [] {
      var n := |obligations| - 1;
      FlattenHoldsEveryContent(obligations[..n], c);
      ContentsHoldsEveryContent(obligations[n].assignments, c);
      assert forall i :: 0 <= i < n ==> obligations[..n][i] == obligations[i];
    }
  }

  /** Flattening keeps the obligations' order: two blocks one after the other flatten to one list after the other. */
  lemma {:induction false} FlattenKeepsOrder(first: seq<Obligation>, second: seq<Obligation>)
    ensures Flatten(first + second) == Flatten(first) + Flatten(second)
    decreases |second|
  {
    if second == [] {
      assert first + second == first;
    } else {
      var n := |second| - 1;
      assert (first + second)[..|first + second| - 1] == first + second[..n];
      assert (first + second)[|first + second| - 1] == second[n];
      FlattenKeepsOrder(first, second[..n]);
      assert Flatten(first + second) == Flatten(first + second[..n]) + Contents(second[n].assignments);
    }
  }

  /** The nested loops over one obligations block, filling a new list. */
  method CollectObligations(obligations: seq<Obligation>) returns (list: seq<string>)
    ensures list == Flatten(obligations)
  {
    list := [];
    for i := 0 to |obligations|
      invariant list == Flatten(obligations[..i])
    {
      var assignments := obligations[i].assignments;
      for j := 0 to |assignments|
        invariant list == Flatten(obligations[..i]) + Contents(assignments[..j])
      {
        var content := assignments[j].content;
        for k := 0 to |content|
          invariant list == Flatten(obligations[..i]) + Contents(assignments[..j]) + content[..k]
        {
          assert content[..k + 1] == content[..k] + [content[k]];
          list := list + [content[k]];
        }
        assert assignments[..j + 1][..j] == assignments[..j];
        assert content[..|content|] == content;
      }
      assert obligations[..i + 1][..i] == obligations[..i];
      assert assignments[..|assignments|] == assignments;
    }
    assert obligations[..|obligations|] == obligations;
  }

  /** A response's content: the decision string and the obligation strings. */
  datatype Verdict = Verdict(decision: string, obligations: seq<string>)

  /** One turn of the result loop: the decision is overwritten, the obligations only by a non-null block. */
  function Step(v: Verdict, r: XacmlResult): Verdict
  {
    Verdict(DecisionName(r.decision), if r.obligations.Some? then Flatten(r.obligations.value) else v.obligations)
  }

  /** The response after the loop has gone over `results`, starting from DENY with no obligations. */
  function Folded(results: seq<XacmlResult>): Verdict
  {
    if results == [] then Verdict(DecisionDeny, [])
    else Step(Folded(results[..|results| - 1]), results[|results| - 1])
  }

  /** Result `i` carries the last non-null obligations block. */
  predicate LastBlockAt(results: seq<XacmlResult>, i: int)
  {
    0 <= i < |results| && results[i].obligations.Some?
    && forall j :: i < j < |results| ==> results[j].obligations.None?
  }

  /**
   * The fold against its reference reading: the decision is the last result's (DENY when there
   * is none), the obligations are the flattened last non-null block, and without any non-null
   * block they are empty.
   */
  lemma {:induction false} FoldedIsLastResult(results: seq<XacmlResult>)
    ensures Folded(results).decision == if results == [] then DecisionDeny else DecisionName(results[|results| - 1].decision)
    ensures forall i :: LastBlockAt(results, i) ==> Folded(results).obligations == Flatten(results[i].obligations.value)
    ensures (forall i :: 0 <= i < |results| ==> results[i].obligations.None?) ==> Folded(results).obligations == []
    decreases |results|
  {
    if results != [] {
      var n := |results| - 1;
      var earlier := results[..n];
      FoldedIsLastResult(earlier);
      assert Folded(results) == Step(Folded(earlier), results[n]);
      if results[n].obligations.None? {
        forall i | LastBlockAt(results, i)
          ensures LastBlockAt(earlier, i)
        {
          assert i != n;
          assert forall j :: i < j < n ==> earlier[j] == results[j];
        }
        if forall i :: 0 <= i < |results| ==> results[i].obligations.None? {
          assert forall i :: 0 <= i < n ==> earlier[i] == results[i];
        }
      } else {
        forall i | LastBlockAt(results, i)
          ensures i == n
        {
        }
      }
    }
  }

  /** There is no precedence: a PERMIT after a DENY makes the response PERMIT. */
  lemma LaterPermitOverridesDeny(obligations: Option<seq<Obligation>>)
    ensures Folded([XacmlResult(Deny, obligations), XacmlResult(Permit, None)]).decision == "PERMIT"
  {
    var results := [XacmlResult(Deny, obligations), XacmlResult(Permit, None)];
    assert results[..1][..0] == [];
  }

  /** `evaluateRequest(pdp, request)`'s loop over the results, updating one response object. */
  method EvaluateResults(results: seq<XacmlResult>) returns (response: XacmlResponseDto)
    ensures fresh(response)
    ensures Verdict(response.pdpDecision, response.pdpObligations) == Folded(results)
  {
    response := new XacmlResponseDto(DecisionDeny, []);
    for i := 0 to |results|
      invariant Verdict(response.pdpDecision, response.pdpObligations) == Folded(results[..i])
    {
      response.pdpDecision := DecisionName(results[i].decision);
      if results[i].obligations.Some? {
        var obligations := CollectObligations(results[i].obligations.value);
        response.pdpObligations := obligations;
      }
      assert results[..i + 1][..i] == results[..i];
    }
    assert results[..|results|] == results;
  }

  /** The deployment without the policies that have the given id. */
  function Undeployed(deployment: seq<Evaluatable>, id: string): (r: seq<Evaluatable>)
    ensures forall p :: p in r <==> p in deployment && p.id != id
    ensures |r| <= |deployment|
  {
    if deployment == [] then []
    else (if deployment[0].id == id then [] else [deployment[0]]) + Undeployed(deployment[1..], id)
  }

  /** The PDP's policy repository: the policies deployed, in deployment order. */
  class PolicyRepository {
    var deployment: seq<Evaluatable>

    constructor ()
      ensures deployment == []
    {
      deployment := [];
    }

    method Deploy(policies: seq<Evaluatable>)
      modifies this
      ensures deployment == old(deployment) + policies
    {
      deployment := deployment + policies;
    }

    method Undeploy(id: string)
      modifies this
      ensures deployment == Undeployed(old(deployment), id)
    {
      deployment := Undeployed(deployment, id);
    }

    /** `getDeployment`, copied into a list of its own. */
    method GetDeployment() returns (policies: seq<Evaluatable>)
      ensures policies == deployment
    {
      policies := deployment;
    }
  }

  /** `undeployAllPolicies`: every id of a snapshot of the deployment is undeployed, leaving the repository empty. */
  method UndeployAllPolicies(repo: PolicyRepository)
    modifies repo
    ensures repo.deployment == []
  {
    var policies := repo.GetDeployment();
    for i := 0 to |policies|
      invariant forall p :: p in repo.deployment ==> p in policies && forall k :: 0 <= k < i ==> p.id != policies[k].id
    {
      repo.Undeploy(policies[i].id);
    }
  }

  /** The audit service's predicate keys the PDP fills. */
  datatype PredicateKey = XacmlPolicy | XacmlPolicyId

  datatype AuditVerb = DeployPolicy

  /** One audit call: message id, verb, the patient's MRN as the object, and the predicate map. */
  datatype AuditRecord = AuditRecord(messageId: Option<string>, verb: AuditVerb, objectId: string,
                                     predicates: map<PredicateKey, string>)

  /** What the audit transport does with a record: delivers it or throws an AuditException. */
  datatype Delivery = Delivered | Rejected(message: string)

  /** The libraries an audit uses. */
  datatype AuditEnv = AuditEnv(
    marshal: Evaluatable -> Attempt<string>,         // PolicyMarshaller.marshal into a StringWriter
    policyIdNodes: string -> Attempt<seq<string>>,   // loadDocument, then the values of the `//@PolicyId` nodes
    renderIds: set<string> -> string,                // HashSet.toString, whose element order the JDK leaves open
    send: AuditRecord -> Delivery)                   // auditService.audit

  /** The `PolicyId` values found in the marshalled policy, as a set; null when no node was found. */
  method CollectPolicyIds(nodes: seq<string>) returns (ids: Option<set<string>>)
    ensures ids.None? <==> |nodes| == 0
    ensures ids.Some? ==> (forall x :: x in ids.value <==> x in nodes) && |ids.value| <= |nodes|
  {
    ids := None;
    if |nodes| > 0 {
      var found: set<string> := {};
      for i := 0 to |nodes|
        invariant forall x :: x in found <==> x in nodes[..i]
        invariant |found| <= i
      {
        found := found + {nodes[i]};
      }
      assert nodes[..|nodes|] == nodes;
      ids := Some(found);
    }
  }

  /** The set of node values. */
  function IdSet(nodes: seq<string>): set<string>
  {
    set x | x in nodes
  }

  /**
   * The predicate map of an audit: the marshalled policy always, and the rendered id set
   * only when at least one PolicyId node was found.
   */
  function PredicatesFor(policyString: string, nodes: seq<string>, renderIds: set<string> -> string): (m: map<PredicateKey, string>)
    ensures XacmlPolicy in m && m[XacmlPolicy] == policyString
    ensures XacmlPolicyId in m <==> |nodes| > 0
    ensures |nodes| > 0 ==> m[XacmlPolicyId] == renderIds(IdSet(nodes))
  {
    var m := map[XacmlPolicy := policyString];
    if |nodes| > 0 then m[XacmlPolicyId := renderIds(IdSet(nodes))] else m
  }

  /** `auditPolicy`: marshalling, reading the ids and sending may each throw; the record carries the request's message id and MRN. */
  function AuditAttempt(env: AuditEnv, policy: Evaluatable, request: XacmlRequest): (r: Attempt<AuditRecord>)
    ensures env.marshal(policy).Threw? ==> r == Threw(env.marshal(policy).message)
    ensures r.Done? ==> env.marshal(policy).Done? && env.policyIdNodes(env.marshal(policy).value).Done?
    ensures r.Done? ==> && r.value.messageId == request.messageId && r.value.verb == DeployPolicy
                        && r.value.objectId == request.patientIdentifier.value
                        && XacmlPolicy in r.value.predicates && r.value.predicates[XacmlPolicy] == env.marshal(policy).value
                        && env.send(r.value) == Delivered
  {
    var policyString :- env.marshal(policy);
    var nodes :- env.policyIdNodes(policyString);
    var record := AuditRecord(request.messageId, DeployPolicy, request.patientIdentifier.value,
                              PredicatesFor(policyString, nodes, env.renderIds));
    match env.send(record)
    case Rejected(m) => Threw(m)
    case Delivered => Done(record)
  }

  method AuditPolicy(env: AuditEnv, policy: Evaluatable, request: XacmlRequest) returns (r: Attempt<AuditRecord>)
    ensures r == AuditAttempt(env, policy, request)
  {
    var policyString :- env.marshal(policy);
    var nodes :- env.policyIdNodes(policyString);
    var ids := CollectPolicyIds(nodes);
    var predicates := map[XacmlPolicy := policyString];
    if ids.Some? {
      assert ids.value == IdSet(nodes);
      predicates := predicates[XacmlPolicyId := env.renderIds(ids.value)];
    }
    var record := AuditRecord(request.messageId, DeployPolicy, request.patientIdentifier.value, predicates);
    match env.send(record)
    case Rejected(m) =>
      r := Threw(m);
    case Delivered =>
      r := Done(record);
  }

  /** The audits of a list of policies, in order: the records delivered, and the first failure's message. */
  datatype Audit = Audit(delivered: seq<AuditRecord>, failure: Option<string>)

  function AuditAll(env: AuditEnv, policies: seq<Evaluatable>, request: XacmlRequest): Audit
  {
    if policies == [] then Audit([], None)
    else
      var earlier := AuditAll(env, policies[..|policies| - 1], request);
      if earlier.failure.Some? then earlier
      else match AuditAttempt(env, policies[|policies| - 1], request)
        case Threw(m) => Audit(earlier.delivered, Some(m))
        case Done(record) => Audit(earlier.delivered + [record], None)
  }

  /** Policy `i` is the first whose audit fails. */
  predicate FirstAuditFailure(env: AuditEnv, policies: seq<Evaluatable>, request: XacmlRequest, i: int)
  {
    0 <= i < |policies| && AuditAttempt(env, policies[i], request).Threw?
    && forall k :: 0 <= k < i ==> AuditAttempt(env, policies[k], request).Done?
  }

  /**
   * The audits stop at the first failure: every policy before it has been audited, in order,
   * its message is the failure's, and with no failure every policy has been audited.
   */
  lemma {:induction false} AuditsStopAtFirstFailure(env: AuditEnv, policies: seq<Evaluatable>, request: XacmlRequest)
    ensures var a := AuditAll(env, policies, request);
      && |a.delivered| <= |policies|
      && (forall k :: 0 <= k < |a.delivered| ==> AuditAttempt(env, policies[k], request) == Done(a.delivered[k]))
      && (a.failure.None? <==> forall k :: 0 <= k < |policies| ==> AuditAttempt(env, policies[k], request).Done?)
      && (a.failure.None? ==> |a.delivered| == |policies|)
      && (a.failure.Some? ==> FirstAuditFailure(env, policies, request, |a.delivered|)
                              && a.failure.value == AuditAttempt(env, policies[|a.delivered|], request).message)
    decreases |policies|
  {
    if policies != [] {
      var n := |policies| - 1;
      var earlier := policies[..n];
      AuditsStopAtFirstFailure(env, earlier, request);
      assert forall k :: 0 <= k < n ==> earlier[k] == policies[k];
    }
  }

  /** Every delivered audit record carries the request's message id and names the request's patient. */
  lemma AuditRecordsNameTheRequest(env: AuditEnv, policies: seq<Evaluatable>, request: XacmlRequest)
    ensures forall r :: r in AuditAll(env, policies, request).delivered ==>
      r.messageId == request.messageId && r.objectId == request.patientIdentifier.value
  {
    AuditsStopAtFirstFailure(env, policies, request);
  }

  /** Once an audit has failed, later policies are not audited. */
  lemma {:induction false} AuditFailureSticks(env: AuditEnv, policies: seq<Evaluatable>, request: XacmlRequest, n: nat)
    requires n <= |policies|
    requires AuditAll(env, policies[..n], request).failure.Some?
    ensures AuditAll(env, policies, request) == AuditAll(env, policies[..n], request)
    decreases |policies| - n
  {
    if n < |policies| {
      var m := |policies| - 1;
      assert policies[..m][..n] == policies[..n];
      AuditFailureSticks(env, policies[..m], request, n);
    } else {
      assert policies[..n] == policies;
    }
  }

  /** The repository and the audit trail after `deployPolicies(pdp, policies, request, isAudited)`. */
  datatype DeployResult = DeployResult(outcome: Outcome, deployment: seq<Evaluatable>, delivered: seq<AuditRecord>)

  function Deployment(deployment: seq<Evaluatable>, policies: seq<Evaluatable>, request: XacmlRequest,
                      isAudited: bool, env: AuditEnv): (d: DeployResult)
    ensures d.outcome.Pass? ==> d.deployment == deployment + policies
    ensures d.outcome.Fail? ==> d.deployment == [] && d.outcome.error.C2SAudit?
    ensures !isAudited ==> d.outcome.Pass? && d.delivered == []
  {
    if !isAudited then DeployResult(Pass, deployment + policies, [])
    else
      var a := AuditAll(env, policies, request);
      if a.failure.Some? then DeployResult(Fail(C2SAudit(a.failure.value)), [], a.delivered)
      else DeployResult(Pass, deployment + policies, a.delivered)
  }

  /**
   * An audited deployment fails exactly when some policy's audit fails; it then raises a
   * C2SAuditException with the first failure's message and leaves nothing deployed, not even
   * what was deployed before.
   */
  lemma AuditFailureRollsBack(deployment: seq<Evaluatable>, policies: seq<Evaluatable>, request: XacmlRequest, env: AuditEnv)
    ensures var d := Deployment(deployment, policies, request, true, env);
      && (d.outcome.Fail? <==> exists i :: 0 <= i < |policies| && AuditAttempt(env, policies[i], request).Threw?)
      && (forall i :: FirstAuditFailure(env, policies, request, i) ==>
            d == DeployResult(Fail(C2SAudit(AuditAttempt(env, policies[i], request).message)), [], d.delivered) && |d.delivered| == i)
  {
    AuditsStopAtFirstFailure(env, policies, request);
    var a := AuditAll(env, policies, request);
    forall i | FirstAuditFailure(env, policies, request, i)
      ensures a.failure.Some? && |a.delivered| == i
    {
    }
  }

  /** `deployPolicies(pdp, policies, request, isAudited)`. */
  method DeployPolicies(repo: PolicyRepository, policies: seq<Evaluatable>, request: XacmlRequest,
                        isAudited: bool, env: AuditEnv) returns (outcome: Outcome, delivered: seq<AuditRecord>)
    modifies repo
    ensures DeployResult(outcome, repo.deployment, delivered) == Deployment(old(repo.deployment), policies, request, isAudited, env)
  {
    repo.Deploy(policies);
    delivered := [];
    if isAudited {
      for i := 0 to |policies|
        invariant repo.deployment == old(repo.deployment) + policies
        invariant AuditAll(env, policies[..i], request) == Audit(delivered, None)
      {
        var attempt := AuditPolicy(env, policies[i], request);
        assert policies[..i + 1][..i] == policies[..i];
        if attempt.Threw? {
          AuditFailureSticks(env, policies, request, i + 1);
          UndeployAllPolicies(repo);
          return Fail(C2SAudit(attempt.message)), delivered;
        }
        delivered := delivered + [attempt.value];
      }
      assert policies[..|policies|] == policies;
    }
    outcome := Pass;
  }

  /** What an evaluation cycle needs besides the request: the policy source, the libraries and the drawn ids. */
  datatype PdpEnv = PdpEnv(
    source: PolicySources.PolicySource,
    assembly: PolicySetService.AssemblyEnv,
    setId: string,                                      // the UUID the provider draws for the policy set
    audit: AuditEnv,
    transform: XacmlRequest -> Attempt<string>,         // the request stylesheet
    getBytes: string -> seq<byte>,                      // String.getBytes() in the platform's default charset
    unmarshal: seq<byte> -> Attempt<RequestGenerator.RequestType>,
    evaluate: (seq<Evaluatable>, Option<RequestGenerator.RequestType>) -> Attempt<seq<XacmlResult>>)

  /** After fetching and deploying: the policies (or the exception), the repository, the audit trail. */
  datatype Stage = Stage(policies: Result<seq<Evaluatable>>, deployment: seq<Evaluatable>, delivered: seq<AuditRecord>)

  /**
   * `deployPolicies(pdp, request)`: the policies are fetched before anything is deployed, so
   * a source that throws leaves the repository as it was.
   */
  function FetchedAndDeployed(deployment: seq<Evaluatable>, request: XacmlRequest, env: PdpEnv): (s: Stage)
    ensures var fetched := PolicySources.PoliciesFrom(env.source, request, env.assembly, env.setId);
      && (fetched.Err? ==> s == Stage(fetched, deployment, []))
      && (s.policies.Ok? ==> s.policies == fetched && s.deployment == deployment + fetched.value)
      && (fetched.Ok? && s.policies.Err? ==> s.policies.error.C2SAudit? && s.deployment == [])
    ensures var fetched := PolicySources.PoliciesFrom(env.source, request, env.assembly, env.setId);
      fetched.Ok? ==>
        var d := Deployment(deployment, fetched.value, request, true, env.audit);
        && (s.policies.Ok? <==> d.outcome.Pass?)
        && (d.outcome.Fail? ==> s.policies == Err(d.outcome.error))
        && s.deployment == d.deployment
        && s.delivered == d.delivered
  {
    match PolicySources.PoliciesFrom(env.source, request, env.assembly, env.setId)
    case Err(e) => Stage(Err(e), deployment, [])
    case Ok(policies) =>
      var d := Deployment(deployment, policies, request, true, env.audit);
      Stage(if d.outcome.Fail? then Err(d.outcome.error) else Ok(policies), d.deployment, d.delivered)
  }

  method DeployRequestPolicies(repo: PolicyRepository, request: XacmlRequest, env: PdpEnv)
    returns (r: Result<seq<Evaluatable>>, delivered: seq<AuditRecord>)
    modifies repo
    ensures Stage(r, repo.deployment, delivered) == FetchedAndDeployed(old(repo.deployment), request, env)
  {
    var fetched := PolicySources.GetPolicies(env.source, request, env.assembly, env.setId);
    delivered := [];
    if fetched.Err? {
      return fetched, delivered;
    }
    var outcome;
    outcome, delivered := DeployPolicies(repo, fetched.value, request, true, env.audit);
    if outcome.Fail? {
      return Err(outcome.error), delivered;
    }
    r := fetched;
  }

  /** The response (or exception), the repository after the cycle, and the audit trail. */
  datatype Cycle = Cycle(response: Result<Verdict>, deployment: seq<Evaluatable>, delivered: seq<AuditRecord>)

  /** The deployment the evaluator is handed, when the cycle gets that far. */
  function EvaluatedDeployment(deployment: seq<Evaluatable>, request: XacmlRequest, env: PdpEnv): Option<seq<Evaluatable>>
  {
    var s := FetchedAndDeployed(deployment, request, env);
    if s.policies.Err? then None else Some(s.deployment)
  }

  /**
   * `managePoliciesAndEvaluateRequest` as written: the evaluation is not in a `try`/`finally`,
   * so an evaluator that throws leaves the deployment in place.
   */
  function CycleAsWritten(deployment: seq<Evaluatable>, request: XacmlRequest,
                          parsed: Option<RequestGenerator.RequestType>, env: PdpEnv): (c: Cycle)
    ensures c.response.Ok? ==> c.deployment == []
    ensures var s := FetchedAndDeployed(deployment, request, env);
      && c.delivered == s.delivered
      && (s.policies.Err? ==> c.response == Err(s.policies.error) && c.deployment == s.deployment)
      && (s.policies.Ok? && env.evaluate(s.deployment, parsed).Done? ==>
            c.response == Ok(Folded(env.evaluate(s.deployment, parsed).value)))
  {
    var s := FetchedAndDeployed(deployment, request, env);
    if s.policies.Err? then Cycle(Err(s.policies.error), s.deployment, s.delivered)
    else match env.evaluate(s.deployment, parsed)
      case Threw(m) => Cycle(Err(Runtime(m)), s.deployment, s.delivered)
      case Done(results) => Cycle(Ok(Folded(results)), [], s.delivered)
  }

  /** The cycle with the undeploy in a `finally`: whatever the evaluator does, nothing stays deployed. */
  function CycleWithCleanup(deployment: seq<Evaluatable>, request: XacmlRequest,
                            parsed: Option<RequestGenerator.RequestType>, env: PdpEnv): (c: Cycle)
    ensures var s := FetchedAndDeployed(deployment, request, env);
      && c.delivered == s.delivered
      && (s.policies.Err? ==> c.response == Err(s.policies.error) && c.deployment == s.deployment)
      && (s.policies.Ok? ==> c.deployment == [])
      && (s.policies.Ok? && env.evaluate(s.deployment, parsed).Done? ==>
            c.response == Ok(Folded(env.evaluate(s.deployment, parsed).value)))
  {
    var s := FetchedAndDeployed(deployment, request, env);
    if s.policies.Err? then Cycle(Err(s.policies.error), s.deployment, s.delivered)
    else match env.evaluate(s.deployment, parsed)
      case Threw(m) => Cycle(Err(Runtime(m)), [], s.delivered)
      case Done(results) => Cycle(Ok(Folded(results)), [], s.delivered)
  }

  /** The two cycles differ only when the evaluator throws. */
  lemma CleanupOnlyChangesThrowingEvaluations(deployment: seq<Evaluatable>, request: XacmlRequest,
                                              parsed: Option<RequestGenerator.RequestType>, env: PdpEnv)
    ensures var s := FetchedAndDeployed(deployment, request, env);
      (s.policies.Err? || env.evaluate(s.deployment, parsed).Done?) ==>
        CycleWithCleanup(deployment, request, parsed, env) == CycleAsWritten(deployment, request, parsed, env)
    ensures CycleWithCleanup(deployment, request, parsed, env).response == CycleAsWritten(deployment, request, parsed, env).response
  {
  }

  /** A source that throws: the exception reaches the caller, nothing is deployed or audited. */
  lemma SourceFailureChangesNothing(deployment: seq<Evaluatable>, request: XacmlRequest,
                                    parsed: Option<RequestGenerator.RequestType>, env: PdpEnv)
    requires PolicySources.PoliciesFrom(env.source, request, env.assembly, env.setId).Err?
    ensures CycleAsWritten(deployment, request, parsed, env)
         == Cycle(Err(PolicySources.PoliciesFrom(env.source, request, env.assembly, env.setId).error), deployment, [])
  {
  }

  /**
   * As written, an evaluator that throws leaves the request's policy set deployed on top of
   * what was there before.
   */
  lemma ThrowingEvaluatorLeavesPoliciesDeployed(deployment: seq<Evaluatable>, request: XacmlRequest,
                                                parsed: Option<RequestGenerator.RequestType>, env: PdpEnv)
    requires FetchedAndDeployed(deployment, request, env).policies.Ok?
    requires env.evaluate(FetchedAndDeployed(deployment, request, env).deployment, parsed).Threw?
    ensures var c := CycleAsWritten(deployment, request, parsed, env);
      && c.response.Err? && c.response.error.Runtime?
      && c.deployment == deployment + PolicySources.PoliciesFrom(env.source, request, env.assembly, env.setId).value
      && c.deployment != []
  {
  }

  /**
   * The stale set reaches the next request: after a cycle whose evaluator threw, the next
   * cycle's evaluator is handed the earlier request's policy set as well as its own. With the
   * cleanup, starting from an empty repository, it is handed only its own.
   */
  lemma StalePolicySetReachesNextRequest(first: XacmlRequest, firstParsed: Option<RequestGenerator.RequestType>,
                                         firstEnv: PdpEnv, second: XacmlRequest, secondEnv: PdpEnv)
    requires FetchedAndDeployed([], first, firstEnv).policies.Ok?
    requires firstEnv.evaluate(FetchedAndDeployed([], first, firstEnv).deployment, firstParsed).Threw?
    requires FetchedAndDeployed(CycleAsWritten([], first, firstParsed, firstEnv).deployment, second, secondEnv).policies.Ok?
    ensures var stale := PolicySources.PoliciesFrom(firstEnv.source, first, firstEnv.assembly, firstEnv.setId).value;
      && EvaluatedDeployment(CycleAsWritten([], first, firstParsed, firstEnv).deployment, second, secondEnv)
         == Some(stale + PolicySources.PoliciesFrom(secondEnv.source, second, secondEnv.assembly, secondEnv.setId).value)
      && |stale| == 1
    ensures FetchedAndDeployed([], second, secondEnv).policies.Ok? ==>
      EvaluatedDeployment(CycleWithCleanup([], first, firstParsed, firstEnv).deployment, second, secondEnv)
      == Some(PolicySources.PoliciesFrom(secondEnv.source, second, secondEnv.assembly, secondEnv.setId).value)
  {
    var stale := PolicySources.PoliciesFrom(firstEnv.source, first, firstEnv.assembly, firstEnv.setId).value;
    ThrowingEvaluatorLeavesPoliciesDeployed([], first, firstParsed, firstEnv);
    assert [] + stale == stale;
    var own := PolicySources.PoliciesFrom(secondEnv.source, second, secondEnv.assembly, secondEnv.setId);
    var cleaned := CycleWithCleanup([], first, firstParsed, firstEnv);
    assert cleaned.deployment == [];
    if FetchedAndDeployed([], second, secondEnv).policies.Ok? {
      assert [] + own.value == own.value;
      assert FetchedAndDeployed(cleaned.deployment, second, secondEnv).deployment == own.value;
    }
  }

  /** What a response object holds against the expected response or exception. */
  predicate Answers(r: Result<XacmlResponseDto>, expected: Result<Verdict>)
    reads if r.Ok? then {r.value} else {}
  {
    (r.Ok? <==> expected.Ok?)
    && (r.Ok? ==> Verdict(r.value.pdpDecision, r.value.pdpObligations) == expected.value)
    && (r.Err? ==> r.error == expected.error)
  }

  /** `evaluateRequest(pdp, request)`: the evaluator is called on the repository's deployment, then its results are folded. */
  method EvaluateDeployed(repo: PolicyRepository, parsed: Option<RequestGenerator.RequestType>,
                          evaluate: (seq<Evaluatable>, Option<RequestGenerator.RequestType>) -> Attempt<seq<XacmlResult>>)
    returns (r: Result<XacmlResponseDto>)
    ensures r.Ok? ==> fresh(r.value)
    ensures Answers(r, match evaluate(repo.deployment, parsed)
                       case Threw(m) => Err(Runtime(m))
                       case Done(results) => Ok(Folded(results)))
  {
    var deployment := repo.GetDeployment();
    match evaluate(deployment, parsed)
    case Threw(m) =>
      r := Err(Runtime(m));
    case Done(results) =>
      var response := EvaluateResults(results);
      r := Ok(response);
  }

  /** `managePoliciesAndEvaluateRequest(pdp, request)` as written: the undeploy runs only when evaluation returns. */
  method EvaluateAndUndeploy(repo: PolicyRepository, parsed: Option<RequestGenerator.RequestType>,
                             evaluate: (seq<Evaluatable>, Option<RequestGenerator.RequestType>) -> Attempt<seq<XacmlResult>>)
    returns (r: Result<XacmlResponseDto>)
    modifies repo
    ensures r.Ok? ==> fresh(r.value)
    ensures Answers(r, match evaluate(old(repo.deployment), parsed)
                       case Threw(m) => Err(Runtime(m))
                       case Done(results) => Ok(Folded(results)))
    ensures repo.deployment == if r.Ok? then [] else old(repo.deployment)
  {
    r := EvaluateDeployed(repo, parsed, evaluate);
    if r.Err? {
      return;
    }
    UndeployAllPolicies(repo);
  }

  /** The same with the undeploy in a `finally`. */
  method EvaluateAndUndeployWithCleanup(repo: PolicyRepository, parsed: Option<RequestGenerator.RequestType>,
                                        evaluate: (seq<Evaluatable>, Option<RequestGenerator.RequestType>) -> Attempt<seq<XacmlResult>>)
    returns (r: Result<XacmlResponseDto>)
    modifies repo
    ensures r.Ok? ==> fresh(r.value)
    ensures Answers(r, match evaluate(old(repo.deployment), parsed)
                       case Threw(m) => Err(Runtime(m))
                       case Done(results) => Ok(Folded(results)))
    ensures repo.deployment == []
  {
    r := EvaluateDeployed(repo, parsed, evaluate);
    UndeployAllPolicies(repo);
  }

  /** `managePoliciesAndEvaluateRequest(request, xacmlRequest)` as written. */
  method ManagePoliciesAndEvaluateRequest(repo: PolicyRepository, parsed: Option<RequestGenerator.RequestType>,
                                          request: XacmlRequest, env: PdpEnv)
    returns (r: Result<XacmlResponseDto>, delivered: seq<AuditRecord>)
    modifies repo
    ensures r.Ok? ==> fresh(r.value)
    ensures var c := CycleAsWritten(old(repo.deployment), request, parsed, env);
      Answers(r, c.response) && repo.deployment == c.deployment && delivered == c.delivered
  {
    var policies;
    policies, delivered := DeployRequestPolicies(repo, request, env);
    if policies.Err? {
      return Err(policies.error), delivered;
    }
    r := EvaluateAndUndeploy(repo, parsed, env.evaluate);
  }

  /** The same cycle with the undeploy in a `finally`. */
  method ManagePoliciesAndEvaluateRequestWithCleanup(repo: PolicyRepository, parsed: Option<RequestGenerator.RequestType>,
                                                     request: XacmlRequest, env: PdpEnv)
    returns (r: Result<XacmlResponseDto>, delivered: seq<AuditRecord>)
    modifies repo
    ensures r.Ok? ==> fresh(r.value)
    ensures var c := CycleWithCleanup(old(repo.deployment), request, parsed, env);
      Answers(r, c.response) && repo.deployment == c.deployment && delivered == c.delivered
  {
    var policies;
    policies, delivered := DeployRequestPolicies(repo, request, env);
    if policies.Err? {
      return Err(policies.error), delivered;
    }
    r := EvaluateAndUndeployWithCleanup(repo, parsed, env.evaluate);
  }

  /** The parsed request a request DTO turns into (null when the generated text does not parse). */
  function Parsed(request: XacmlRequest, env: PdpEnv): Option<RequestGenerator.RequestType>
  {
    RequestGenerator.GenerateRequest(request, env.transform, env.getBytes, env.unmarshal)
  }

  /** `evaluateRequest(xacmlRequest)` as written: the request is generated, then the cycle runs. */
  method EvaluateRequest(repo: PolicyRepository, request: XacmlRequest, env: PdpEnv)
    returns (r: Result<XacmlResponseDto>, delivered: seq<AuditRecord>)
    modifies repo
    ensures r.Ok? ==> fresh(r.value)
    ensures var c := CycleAsWritten(old(repo.deployment), request, Parsed(request, env), env);
      Answers(r, c.response) && repo.deployment == c.deployment && delivered == c.delivered
  {
    var parsed := RequestGenerator.GenerateRequest(request, env.transform, env.getBytes, env.unmarshal);
    r, delivered := ManagePoliciesAndEvaluateRequest(repo, parsed, request, env);
  }

  /** `evaluateRequest(xacmlRequest)` over the cycle with the cleanup. */
  method EvaluateRequestWithCleanup(repo: PolicyRepository, request: XacmlRequest, env: PdpEnv)
    returns (r: Result<XacmlResponseDto>, delivered: seq<AuditRecord>)
    modifies repo
    ensures r.Ok? ==> fresh(r.value)
    ensures var c := CycleWithCleanup(old(repo.deployment), request, Parsed(request, env), env);
      Answers(r, c.response) && repo.deployment == c.deployment && delivered == c.delivered
  {
    var parsed := RequestGenerator.GenerateRequest(request, env.transform, env.getBytes, env.unmarshal);
    r, delivered := ManagePoliciesAndEvaluateRequestWithCleanup(repo, parsed, request, env);
  }
}
