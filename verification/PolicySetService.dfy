// Combining a list of XACML policies into one policy set built from a template.
//
// The XML document is abstracted to the three things the service touches: the
// PolicySetId attribute, the PolicyCombiningAlgId attribute and the list of child
// elements of the root. Parsing, serialising, schema validation and unmarshalling
// are calls into libraries and are given as functions.

module PolicySetService {
  import opened Common
  import opened Dto
  import CombiningAlgValidator

  /** An XML element as a value: a deep clone of an element is the element itself. */
  datatype Element = Element(name: string, attributes: map<string, string>, children: seq<Element>, text: string)

  /** The policy set document: root attributes and root children. */
  datatype PolicySetDoc = PolicySetDoc(policySetId: string, policyCombiningAlgId: string, children: seq<Element>)

  /** The two exception types the service catches. */
  datatype Thrown =
    | SyntaxFailure(message: string)
    | HttpStatusFailure(status: int, message: string)

  /** What the validation utility does with the serialised policy set: a verdict, or an exception. */
  datatype Validation = Validated(valid: bool) | ValidationFailed(thrown: Thrown)

  /** The library calls the service makes. */
  datatype XmlEnv = XmlEnv(
    template: Attempt<PolicySetDoc>,          // reading and parsing PolicySetTemplate.xml
    parse: seq<byte> -> Attempt<Element>,     // bytesToDocument(...).getDocumentElement()
    serialize: PolicySetDoc -> seq<byte>,     // documentToBytes
    validate: seq<byte> -> Validation,        // PolicyValidationUtils.validate
    unmarshal: seq<byte> -> Attempt<Evaluatable>)  // PolicyMarshaller.unmarshal; Threw is a SyntaxException

  /** The service's collaborators: the library calls and the validator's configured table. */
  datatype AssemblyEnv = AssemblyEnv(xml: XmlEnv, combiningAlgs: map<string, string>)

  /** The combining algorithm URN the providers ask for (XACML 2.0, Appendix C.1). */
  const DenyOverrides := "urn:oasis:names:tc:xacml:1.0:policy-combining-algorithm:deny-overrides"

  /** The catch blocks: a syntax error and a non-4xx status become PolicyProviderException, a 4xx status NoPolicyFoundException. */
  function MapThrown(t: Thrown): (e: Error)
    ensures t.SyntaxFailure? ==> e == PolicyProviderError(t.message)
    ensures t.HttpStatusFailure? && 400 <= t.status < 500 ==> e == NoPolicyFound(t.message)
    ensures t.HttpStatusFailure? && !(400 <= t.status < 500) ==> e == PolicyProviderError(t.message)
    ensures e.NoPolicyFound? || e.PolicyProviderError?
  {
    match t
    case SyntaxFailure(m) => PolicyProviderError(m)
    case HttpStatusFailure(status, m) =>
      if status / 100 == 4 then NoPolicyFound(m) else PolicyProviderError(m)
  }

  /** The id the policy set gets: the requested one when it has text, else a fresh UUID. */
  function ChosenPolicySetId(policySetId: Option<string>, freshId: string): (id: string)
    ensures HasText(policySetId) ==> id == policySetId.value
    ensures !HasText(policySetId) ==> id == freshId
  {
    if HasText(policySetId) then policySetId.value else freshId
  }

  /**
   * The root elements of the policies, parsed in list order; the first policy that does not
   * parse stops the stream with its exception.
   */
  function Roots(parse: seq<byte> -> Attempt<Element>, policies: seq<PolicyDto>): (r: Attempt<seq<Element>>)
    ensures r.Done? ==> |r.value| == |policies|
    ensures r.Done? ==> forall i :: 0 <= i < |policies| ==> parse(policies[i].policy) == Done(r.value[i])
    ensures r.Threw? ==> exists i :: FirstUnparsable(parse, policies, i, r.message)
  {
    if policies == [] then Done([])
    else
      var n := |policies| - 1;
      var front := Roots(parse, policies[..n]);
      assert forall i :: 0 <= i < n ==> policies[..n][i] == policies[i];
      if front.Threw? then
        FirstUnparsableInPrefix(parse, policies, n, front.message);
        front
      else match parse(policies[n].policy)
        case Threw(m) =>
          assert FirstUnparsable(parse, policies, n, m);
          Threw(m)
        case Done(e) => Done(front.value + [e])
  }

  lemma FirstUnparsableInPrefix(parse: seq<byte> -> Attempt<Element>, policies: seq<PolicyDto>, n: nat, message: string)
    requires n <= |policies|
    requires exists i :: FirstUnparsable(parse, policies[..n], i, message)
    ensures exists i :: FirstUnparsable(parse, policies, i, message)
  {
    var i :| FirstUnparsable(parse, policies[..n], i, message);
    assert forall j :: 0 <= j <= i ==> policies[..n][j] == policies[j];
    assert FirstUnparsable(parse, policies, i, message);
  }

  /** Policy `i` is the first one that does not parse, and it throws `message`. */
  predicate FirstUnparsable(parse: seq<byte> -> Attempt<Element>, policies: seq<PolicyDto>, i: int, message: string)
  {
    0 <= i < |policies| && parse(policies[i].policy) == Threw(message)
    && forall j :: 0 <= j < i ==> parse(policies[j].policy).Done?
  }

  /** The template with its id and algorithm set and the policies' roots appended after its own children. */
  function Assembled(template: PolicySetDoc, id: string, alg: string, roots: seq<Element>): PolicySetDoc
  {
    PolicySetDoc(id, alg, template.children + roots)
  }

  /** Serialise, validate (the verdict is not looked at) and unmarshal the assembled document. */
  function Finish(xml: XmlEnv, doc: PolicySetDoc): (r: Result<Evaluatable>)
    ensures xml.validate(xml.serialize(doc)).ValidationFailed? ==> r == Err(MapThrown(xml.validate(xml.serialize(doc)).thrown))
    ensures xml.validate(xml.serialize(doc)).Validated? ==>
      r == match xml.unmarshal(xml.serialize(doc))
           case Done(e) => Ok(e)
           case Threw(m) => Err(PolicyProviderError(m))
  {
    var bytes := xml.serialize(doc);
    match xml.validate(bytes)
    case ValidationFailed(t) => Err(MapThrown(t))
    case Validated(_) =>
      match xml.unmarshal(bytes)
      case Done(e) => Ok(e)
      case Threw(m) => Err(PolicyProviderError(m))
  }

  /** The document `getPoliciesCombinedAsPolicySet` builds before serialising it. */
  function AssembledDocument(xml: XmlEnv, policies: seq<PolicyDto>, policySetId: Option<string>, alg: string, freshId: string): (r: Result<PolicySetDoc>)
    ensures xml.template.Threw? ==> r == Err(Runtime(xml.template.message))
    ensures xml.template.Done? && Roots(xml.parse, policies).Threw? ==> r == Err(DomUtils(Roots(xml.parse, policies).message))
    ensures xml.template.Done? && Roots(xml.parse, policies).Done? ==>
      r == Ok(Assembled(xml.template.value, ChosenPolicySetId(policySetId, freshId), alg, Roots(xml.parse, policies).value))
    ensures r.Ok? ==> r.value.policySetId == ChosenPolicySetId(policySetId, freshId)
    ensures r.Ok? ==> r.value.policyCombiningAlgId == alg
    ensures r.Ok? ==> |r.value.children| == |xml.template.value.children| + |policies|
    ensures r.Ok? ==> r.value.children[..|xml.template.value.children|] == xml.template.value.children
    ensures r.Ok? ==> forall i :: 0 <= i < |policies| ==>
      xml.parse(policies[i].policy) == Done(r.value.children[|xml.template.value.children| + i])
  {
    if xml.template.Threw? then Err(Runtime(xml.template.message))
    else
      var roots := Roots(xml.parse, policies);
      if roots.Threw? then Err(DomUtils(roots.message))
      else Ok(Assembled(xml.template.value, ChosenPolicySetId(policySetId, freshId), alg, roots.value))
  }

  /**
   * `getPoliciesCombinedAsPolicySet`: the algorithm id is validated before anything else,
   * then the template is filled in and the result unmarshalled.
   */
  function CombinedAsPolicySet(env: AssemblyEnv, policies: seq<PolicyDto>, policySetId: Option<string>,
                               algId: Option<string>, freshId: string): (r: Result<Evaluatable>)
    ensures CombiningAlgValidator.ValidateAndReturn(env.combiningAlgs, algId).Err? ==>
      r == Err(CombiningAlgValidator.ValidateAndReturn(env.combiningAlgs, algId).error)
    ensures r.Ok? ==> CombiningAlgValidator.ValidateAndReturn(env.combiningAlgs, algId).Ok?
    ensures r.Ok? ==>
      var doc := AssembledDocument(env.xml, policies, policySetId,
                                   CombiningAlgValidator.ValidateAndReturn(env.combiningAlgs, algId).value, freshId);
      doc.Ok? && Finish(env.xml, doc.value) == r
    ensures CombiningAlgValidator.ValidateAndReturn(env.combiningAlgs, algId).Ok? ==>
      var doc := AssembledDocument(env.xml, policies, policySetId,
                                   CombiningAlgValidator.ValidateAndReturn(env.combiningAlgs, algId).value, freshId);
      doc.Err? ==> r == Err(doc.error)
    ensures CombiningAlgValidator.ValidateAndReturn(env.combiningAlgs, algId).Ok? ==>
      var doc := AssembledDocument(env.xml, policies, policySetId,
                                   CombiningAlgValidator.ValidateAndReturn(env.combiningAlgs, algId).value, freshId);
      doc.Ok? ==> r == Finish(env.xml, doc.value)
  {
    var alg :- CombiningAlgValidator.ValidateAndReturn(env.combiningAlgs, algId);
    var doc :- AssembledDocument(env.xml, policies, policySetId, alg, freshId);
    Finish(env.xml, doc)
  }

  /** The validity verdict does not influence the result: only an exception from validation does. */
  lemma ValidityVerdictIgnored(env: AssemblyEnv, other: seq<byte> -> Validation, policies: seq<PolicyDto>,
                               policySetId: Option<string>, algId: Option<string>, freshId: string)
    requires forall b :: env.xml.validate(b).Validated? && other(b).Validated?
    ensures CombinedAsPolicySet(env, policies, policySetId, algId, freshId)
         == CombinedAsPolicySet(env.(xml := env.xml.(validate := other)), policies, policySetId, algId, freshId)
  {
  }

  /** With no policies the policy set has exactly the template's children. */
  lemma NoPoliciesKeepsTemplateChildren(xml: XmlEnv, policySetId: Option<string>, alg: string, freshId: string)
    requires xml.template.Done?
    ensures AssembledDocument(xml, [], policySetId, alg, freshId)
         == Ok(PolicySetDoc(ChosenPolicySetId(policySetId, freshId), alg, xml.template.value.children))
  {
    assert xml.template.value.children + [] == xml.template.value.children;
  }

  /** The DOM of the policy set while it is being filled in. */
  class PolicySetDocument {
    var policySetId: string
    var policyCombiningAlgId: string
    var children: seq<Element>

    function Value(): PolicySetDoc
      reads this
    {
      PolicySetDoc(policySetId, policyCombiningAlgId, children)
    }

    /** `initPolicySetTemplate`: a fresh copy of the template. */
    constructor (template: PolicySetDoc)
      ensures Value() == template
    {
      policySetId := template.policySetId;
      policyCombiningAlgId := template.policyCombiningAlgId;
      children := template.children;
    }

    /** `setNodeValue` on the PolicySetId attribute. */
    method SetPolicySetId(id: string)
      modifies this
      ensures Value() == old(Value()).(policySetId := id)
    {
      policySetId := id;
    }

    /** `setNodeValue` on the PolicyCombiningAlgId attribute. */
    method SetPolicyCombiningAlgId(alg: string)
      modifies this
      ensures Value() == old(Value()).(policyCombiningAlgId := alg)
    {
      policyCombiningAlgId := alg;
    }

    /** `appendChild` on the root element. */
    method AppendChild(e: Element)
      modifies this
      ensures Value() == old(Value()).(children := old(children) + [e])
    {
      children := children + [e];
    }
  }

  /** The service method: fills a fresh template document in place, policy by policy. */
  method GetPoliciesCombinedAsPolicySet(env: AssemblyEnv, policies: seq<PolicyDto>, policySetId: Option<string>,
                                        algId: Option<string>, freshId: string) returns (r: Result<Evaluatable>)
    ensures r == CombinedAsPolicySet(env, policies, policySetId, algId, freshId)
  {
    var validated := CombiningAlgValidator.ValidateAndReturn(env.combiningAlgs, algId);
    if validated.Err? {
      return Err(validated.error);
    }
    var alg := validated.value;
    if env.xml.template.Threw? {
      return Err(Runtime(env.xml.template.message));
    }
    var template := env.xml.template.value;
    var policySet := new PolicySetDocument(template);
    var id := ChosenPolicySetId(policySetId, freshId);
    policySet.SetPolicySetId(id);
    policySet.SetPolicyCombiningAlgId(alg);
    var failure := AppendPolicyRoots(policySet, env.xml.parse, policies);
    if failure.Some? {
      return Err(DomUtils(failure.value));
    }
    assert AssembledDocument(env.xml, policies, policySetId, alg, freshId) == Ok(policySet.Value());
    assert CombinedAsPolicySet(env, policies, policySetId, algId, freshId) == Finish(env.xml, policySet.Value());
    var bytes := env.xml.serialize(policySet.Value());
    var validation := env.xml.validate(bytes);
    if validation.ValidationFailed? {
      return Err(MapThrown(validation.thrown));
    }
    var response := PolicyDto(id, validation.valid, bytes);
    var evaluatable := env.xml.unmarshal(response.policy);
    if evaluatable.Threw? {
      return Err(PolicyProviderError(evaluatable.message));
    }
    return Ok(evaluatable.value);
  }

  /**
   * The loop of `getPoliciesCombinedAsPolicySet`: each policy is parsed and its root appended
   * to the policy set, in order; the first policy that does not parse stops the loop with
   * its exception.
   */
  method AppendPolicyRoots(policySet: PolicySetDocument, parse: seq<byte> -> Attempt<Element>,
                           policies: seq<PolicyDto>) returns (failure: Option<string>)
    modifies policySet
    ensures failure.None? <==> Roots(parse, policies).Done?
    ensures failure.Some? ==> Roots(parse, policies) == Threw(failure.value)
    ensures failure.None? ==>
      policySet.Value() == old(policySet.Value()).(children := old(policySet.children) + Roots(parse, policies).value)
  {
    var i := 0;
    while i < |policies|
      invariant 0 <= i <= |policies|
      invariant Roots(parse, policies[..i]).Done?
      invariant policySet.Value() == old(policySet.Value()).(children := old(policySet.children) + Roots(parse, policies[..i]).value)
    {
      assert policies[..i + 1][..i] == policies[..i];
      var root := parse(policies[i].policy);
      if root.Threw? {
        RootsOfExtension(parse, policies, i);
        return Some(root.message);
      }
      policySet.AppendChild(root.value);
      i := i + 1;
    }
    assert policies[..i] == policies;
    return None;
  }

  /** When the prefix parsed and policy `i` does not, the whole stream fails with policy `i`'s exception. */
  lemma {:induction false} RootsOfExtension(parse: seq<byte> -> Attempt<Element>, policies: seq<PolicyDto>, i: nat)
    requires i < |policies|
    requires Roots(parse, policies[..i]).Done?
    requires parse(policies[i].policy).Threw?
    ensures Roots(parse, policies) == Threw(parse(policies[i].policy).message)
    decreases |policies|
  {
    var n := |policies| - 1;
    assert policies[..n] == policies[..|policies| - 1];
    if i == n {
      assert policies[..i] == policies[..n];
    } else {
      assert policies[..n][..i] == policies[..i];
      RootsOfExtension(parse, policies[..n], i);
    }
  }
}
