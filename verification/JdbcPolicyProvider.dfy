// The policy source that reads signed consents straight from the consent table.
//
// The query selects every consent whose reference id matches a LIKE pattern built
// from the request, whose status is CONSENT_SIGNED and whose validity window contains
// the database clock; the matching XACML documents are combined into one policy set.

module JdbcPolicyProvider {
  import opened Common
  import opened Dto
  import AssertionUtils
  import PolicySetService

  /** A row of the consent table, as far as the query reads it; a NULL date is None. */
  datatype ConsentRow = ConsentRow(
    consentReferenceId: string,
    xacmlCcd: seq<byte>,
    status: string,
    startDate: Option<int>,
    endDate: Option<int>)

  /** The consent table and the database's `now()`. */
  datatype Database = Database(consents: seq<ConsentRow>, now: int)

  const SignedStatus := "CONSENT_SIGNED"

  /** SQL `LIKE`: `%` matches any run of characters, `_` any one character, and a backslash makes the next character literal. */
  predicate Like(pattern: string, s: string)
    decreases |pattern| + |s|
  {
    if pattern == [] then s == []
    else if pattern[0] == '%' then Like(pattern[1..], s) || (s != [] && Like(pattern, s[1..]))
    else if pattern[0] == '_' then s != [] && Like(pattern[1..], s[1..])
    else if pattern[0] == '\\' && |pattern| > 1 then s != [] && s[0] == pattern[1] && Like(pattern[2..], s[1..])
    else s != [] && s[0] == pattern[0] && Like(pattern[1..], s[1..])
  }

  /** A pattern piece with no character LIKE treats specially. */
  predicate Literal(p: string)
  {
    forall i :: 0 <= i < |p| ==> p[i] != '%' && p[i] != '_' && p[i] != '\\'
  }

  /** `toPolicyId`: patient id, `:&`, patient domain, `&`, the configured pid type, then both NPIs, each after a `:`, then `:%`. */
  function ToPolicyId(pid: string, pidDomain: string, pidType: string, recipientNpi: string, intermediaryNpi: string): string
  {
    KeyPrefix(pid, pidDomain, pidType, recipientNpi, intermediaryNpi) + "%"
  }

  /** The literal part of the key, everything before the trailing `%`. */
  function KeyPrefix(pid: string, pidDomain: string, pidType: string, recipientNpi: string, intermediaryNpi: string): string
  {
    pid + ":" + "&" + pidDomain + "&" + pidType + ":" + recipientNpi + ":" + intermediaryNpi + ":"
  }

  /** The WHERE clause: the id matches, the consent is signed, and `now()` lies between two non-NULL dates, both inclusive. */
  predicate Selected(row: ConsentRow, policyId: string, now: int)
  {
    Like(policyId, row.consentReferenceId)
    && row.status == SignedStatus
    && row.startDate.Some? && row.endDate.Some?
    && row.startDate.value <= now <= row.endDate.value
  }

  /** PolicyDtoRowMapper: the reference id becomes the id, the xacml_ccd blob the policy. */
  function RowToPolicyDto(row: ConsentRow): PolicyDto
  {
    PolicyDto(row.consentReferenceId, false, row.xacmlCcd)
  }

  /** `getPoliciesFromDb`: the mapped rows the query selects, in table order. */
  function QueryConsents(consents: seq<ConsentRow>, policyId: string, now: int): (r: seq<PolicyDto>)
    ensures |r| <= |consents|
  {
    if consents == [] then []
    else
      var rest := QueryConsents(consents[1..], policyId, now);
      if Selected(consents[0], policyId, now) then [RowToPolicyDto(consents[0])] + rest else rest
  }

  /** The query returns exactly the selected rows: a policy is returned iff some selected row maps to it. */
  lemma {:induction false} QueryReturnsSelectedRows(consents: seq<ConsentRow>, policyId: string, now: int, d: PolicyDto)
    ensures d in QueryConsents(consents, policyId, now)
        <==> exists k :: 0 <= k < |consents| && Selected(consents[k], policyId, now) && RowToPolicyDto(consents[k]) == d
  {
    if consents != [] {
      QueryReturnsSelectedRows(consents[1..], policyId, now, d);
      assert forall k :: 1 <= k < |consents| ==> consents[1..][k - 1] == consents[k];
      if exists k :: 0 <= k < |consents| && Selected(consents[k], policyId, now) && RowToPolicyDto(consents[k]) == d {
        var k :| 0 <= k < |consents| && Selected(consents[k], policyId, now) && RowToPolicyDto(consents[k]) == d;
        if k > 0 {
          assert consents[1..][k - 1] == consents[k];
        }
      }
    }
  }

  /** `%` alone matches every string. */
  lemma {:induction false} PercentMatchesAll(s: string)
    ensures Like("%", s)
    decreases |s|
  {
    if s != [] {
      PercentMatchesAll(s[1..]);
    }
  }

  /** A literal followed by `%` matches exactly the strings that start with that literal. */
  lemma {:induction false} LiteralThenPercent(p: string, s: string)
    requires Literal(p)
    ensures Like(p + "%", s) <==> |p| <= |s| && s[..|p|] == p
    decreases |p|
  {
    if p == [] {
      assert p + "%" == "%";
      PercentMatchesAll(s);
    } else {
      assert (p + "%")[0] == p[0];
      assert (p + "%")[1..] == p[1..] + "%";
      assert Literal(p[1..]) by {
        forall i | 0 <= i < |p[1..]| ensures p[1..][i] != '%' && p[1..][i] != '_' && p[1..][i] != '\\' {
          assert p[1..][i] == p[i + 1];
        }
      }
      assert p[0] != '%' && p[0] != '_' && p[0] != '\\';
      if s != [] {
        LiteralThenPercent(p[1..], s[1..]);
        if |p| <= |s| {
          assert s[..|p|] == [s[0]] + s[1..][..|p| - 1];
          assert p == [p[0]] + p[1..];
        }
      }
    }
  }

  /** With no LIKE metacharacter in the request's identifiers, the key selects exactly the reference ids that start with its literal part. */
  lemma KeySelectsItsPrefix(pid: string, pidDomain: string, pidType: string, recipientNpi: string, intermediaryNpi: string, s: string)
    requires Literal(KeyPrefix(pid, pidDomain, pidType, recipientNpi, intermediaryNpi))
    ensures var prefix := KeyPrefix(pid, pidDomain, pidType, recipientNpi, intermediaryNpi);
      Like(ToPolicyId(pid, pidDomain, pidType, recipientNpi, intermediaryNpi), s) <==> |prefix| <= |s| && s[..|prefix|] == prefix
  {
    LiteralThenPercent(KeyPrefix(pid, pidDomain, pidType, recipientNpi, intermediaryNpi), s);
  }

  /**
   * The identifiers are put into the pattern unescaped: a patient id `_` selects the consents
   * of every patient whose id is one character long, whatever that character is.
   */
  lemma UnderscorePatientIdMatchesOtherPatients(c: char, pidDomain: string, pidType: string,
                                                 recipientNpi: string, intermediaryNpi: string, suffix: string)
    requires Literal(":" + "&" + pidDomain + "&" + pidType + ":" + recipientNpi + ":" + intermediaryNpi + ":")
    ensures Like(ToPolicyId("_", pidDomain, pidType, recipientNpi, intermediaryNpi),
                 KeyPrefix([c], pidDomain, pidType, recipientNpi, intermediaryNpi) + suffix)
  {
    var tail := ":" + "&" + pidDomain + "&" + pidType + ":" + recipientNpi + ":" + intermediaryNpi + ":";
    var pattern := ToPolicyId("_", pidDomain, pidType, recipientNpi, intermediaryNpi);
    var s := KeyPrefix([c], pidDomain, pidType, recipientNpi, intermediaryNpi) + suffix;
    assert pattern == "_" + (tail + "%");
    assert s == [c] + (tail + suffix);
    LiteralThenPercent(tail, tail + suffix);
    assert (tail + suffix)[..|tail|] == tail;
    assert pattern[1..] == tail + "%" && s[1..] == tail + suffix;
  }

  /**
   * `getPolicies(String)`: a key without text throws PolicyIdNotFoundException whatever the
   * table holds; an empty result throws PolicyNotFoundException naming the key.
   */
  function PoliciesForKey(policyId: string, db: Database): (r: Result<seq<PolicyDto>>)
    ensures !ContainsText(policyId) ==> r == Err(PolicyIdNotFound("Policy ID must have a text!"))
    ensures ContainsText(policyId) && QueryConsents(db.consents, policyId, db.now) == [] ==>
      r == Err(PolicyNotFound("Policy/PolicySet cannot be found with given ID: " + policyId))
    ensures r.Ok? ==> r.value == QueryConsents(db.consents, policyId, db.now) && |r.value| > 0
    ensures ContainsText(policyId) && QueryConsents(db.consents, policyId, db.now) != [] ==>
      r == Ok(QueryConsents(db.consents, policyId, db.now))
  {
    match AssertionUtils.AssertPolicyId(Some(policyId))
    case Fail(e) => Err(e)
    case Pass =>
      var policies := QueryConsents(db.consents, policyId, db.now);
      match AssertionUtils.AssertPoliciesNotEmpty(Some(policies), Some(policyId))
      case Fail(e) => Err(e)
      case Pass => Ok(policies)
  }

  /** The key this provider builds for a request. */
  function RequestKey(request: XacmlRequest, pidType: string): string
  {
    ToPolicyId(request.patientIdentifier.value, request.patientIdentifier.oid, pidType,
               request.recipientIdentifier.value, request.intermediaryIdentifier.value)
  }

  /** The key always ends in `%`, so it always has text and the id guard never fires for a request. */
  lemma RequestKeyHasText(request: XacmlRequest, pidType: string)
    ensures ContainsText(RequestKey(request, pidType))
  {
    var key := RequestKey(request, pidType);
    assert key[|key| - 1] == '%';
  }

  /**
   * `getPolicies(XacmlRequestDto)`: the selected consents combined, under a fresh id and
   * deny-overrides, into a one-element list.
   */
  function PoliciesFor(request: XacmlRequest, pidType: string, db: Database,
                       env: PolicySetService.AssemblyEnv, setId: string): (r: Result<seq<Evaluatable>>)
    ensures r.Ok? ==> |r.value| == 1
    ensures PoliciesForKey(RequestKey(request, pidType), db).Err? ==> r == Err(PoliciesForKey(RequestKey(request, pidType), db).error)
    ensures r.Ok? ==> QueryConsents(db.consents, RequestKey(request, pidType), db.now) != []
    ensures r.Ok? ==>
      Ok(r.value[0]) == PolicySetService.CombinedAsPolicySet(env, QueryConsents(db.consents, RequestKey(request, pidType), db.now),
                                                            Some(setId), Some(PolicySetService.DenyOverrides), setId)
    ensures PoliciesForKey(RequestKey(request, pidType), db).Ok? ==>
      var combined := PolicySetService.CombinedAsPolicySet(env, QueryConsents(db.consents, RequestKey(request, pidType), db.now),
                                                           Some(setId), Some(PolicySetService.DenyOverrides), setId);
      combined.Err? ==> r == Err(combined.error)
    ensures PoliciesForKey(RequestKey(request, pidType), db).Ok? ==>
      var combined := PolicySetService.CombinedAsPolicySet(env, QueryConsents(db.consents, RequestKey(request, pidType), db.now),
                                                           Some(setId), Some(PolicySetService.DenyOverrides), setId);
      combined.Ok? ==> r == Ok([combined.value])
  {
    var policies :- PoliciesForKey(RequestKey(request, pidType), db);
    var policySet :- PolicySetService.CombinedAsPolicySet(env, policies, Some(setId), Some(PolicySetService.DenyOverrides), setId);
    Ok([policySet])
  }

  /** No signed consent in force for the key: the provider throws PolicyNotFoundException, not NoPolicyFoundException. */
  lemma NoConsentIsPolicyNotFound(request: XacmlRequest, pidType: string, db: Database,
                                  env: PolicySetService.AssemblyEnv, setId: string)
    requires QueryConsents(db.consents, RequestKey(request, pidType), db.now) == []
    ensures PoliciesFor(request, pidType, db, env, setId).Err?
    ensures PoliciesFor(request, pidType, db, env, setId).error.PolicyNotFound?
  {
    RequestKeyHasText(request, pidType);
  }

  /** The provider method: it hands the query result to the policy set service. */
  method GetPolicies(request: XacmlRequest, pidType: string, db: Database,
                     env: PolicySetService.AssemblyEnv, setId: string) returns (r: Result<seq<Evaluatable>>)
    ensures r == PoliciesFor(request, pidType, db, env, setId)
  {
    var policyId := RequestKey(request, pidType);
    var policies := PoliciesForKey(policyId, db);
    if policies.Err? {
      return Err(policies.error);
    }
    var policySet := PolicySetService.GetPoliciesCombinedAsPolicySet(
      env, policies.value, Some(setId), Some(PolicySetService.DenyOverrides), setId);
    if policySet.Err? {
      return Err(policySet.error);
    }
    return Ok([policySet.value]);
  }
}
