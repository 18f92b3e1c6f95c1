# Context handler: a verified Dafny model

This project models the core of the Consent2Share context handler, a Spring service that decides
whether to share a patient's health data. A caller sends an XACML request DTO with these fields:

- recipient
- intermediary
- purpose of use
- patient identifier
- action

The context handler stamps the request with a fresh message id and hands it to its policy decision
point (PDP) service. That service does three things:

- It fetches the patient's consent policies from the configured policy provider. The providers are
  a JDBC consent table, the policy repository, the PCM export service, a FHIR server and the test
  stub.
- It deploys the policies into a single herasaf PDP, auditing each one.
- It evaluates a generated XACML 2.0 request and then undeploys everything.

The response is the final decision string and the obligation strings. A NoPolicyFoundException is
turned into a response without obligations. Every other exception reaches the caller.

Each core source file is one Dafny module:

- Pure code is written as datatypes, functions and lemmas:
  - the assertions;
  - the mapping;
  - the combining-algorithm validator;
  - the purpose-of-use enum;
  - the attribute ids;
  - the request string generator.
- Code that changes state is written as classes with `modifies` clauses:
  - the PDP's policy repository;
  - the policy-set DOM being filled in;
  - the response DTO;
  - the request's message id;
  - the FHIR consent DTOs that are blanked in place;
  - the name/value-pair builder.
- Each method is proved against a specification function. The properties are proved about those
  functions.

Collaborators the core only calls are parameters of the model:

- XML parsing, serialisation and schema validation;
- JAXB and the XSL transform;
- PDP evaluation;
- the audit transport;
- the database;
- the PCM and FHIR clients;
- UUIDs and the clock.

Each collaborator is given as a function, and its exception as an `Attempt`'s `Threw`.

Modules:

| module | models |
|---|---|
| `Common` | exceptions as `Error`, `Result`/`Attempt`/`Outcome`, `StringUtils.hasText`, UTF-8 encoding |
| `Dto` | `XacmlRequestDto`, `XacmlResponseDto`, `PolicyDto`, `IdentifierDto` |
| `PurposeOfUse`, `PdpAttributeIds` | the two enums |
| `AssertionUtils`, `MappingUtils` | the utility classes of those names |
| `CombiningAlgValidator` | `PolicyCombiningAlgIdValidatorImpl` |
| `PolicySetService` | `XacmlPolicySetServiceImpl` |
| `JdbcPolicyProvider`, `PolRepPolicyProvider`, `PcmPolicyProvider`, `FhirPolicyProvider`, `PolicyProviderStub` | the policy providers |
| `PolicySources` | the configured provider bean |
| `RequestGenerator` | `RequestGenerator` |
| `NvpBuilder` | `NVPBuilder` |
| `PolicyDecisionPoint` | `PolicyDecisionPointServiceImpl` |
| `ContextHandler` | `ContextHandlerServiceImpl.enforcePolicy` |

**Behaviour of the code worth knowing before reading the contracts.**

- **Result fold.** The PDP's results are folded in order with no precedence. Each result
  overwrites the decision, so the decision is the last result's decision. A later non-null
  obligations block replaces the earlier list. `PolicyDecisionPoint.Folded` is that fold.
- **Request accessors.** The providers and the audit call `getPatientId().getExtension()` /
  `getRoot()`, `getRecipientNpi()` and `getIntermediaryNpi()`. `XacmlRequestDto` does not declare
  these accessors (`service/dto/XacmlRequestDto.java:22-48`). The model reads:
  - `patientIdentifier.value` and `patientIdentifier.oid`;
  - `recipientIdentifier.value`;
  - `intermediaryIdentifier.value`.
- **Obligations shape.** The DTO declares `List<ObligationDto>`. The PDP fills it with strings, so
  the model keeps a `seq<string>`.

## Model

| member | source | states |
|---|---|---|
| Common.ContainsText | context-handler/src/main/java/gov/samhsa/c2s/contexthandler/service/util/AssertionUtils.java:25 | a string has text exactly when some character is not whitespace |
| Common.Utf8 | context-handler/src/main/java/gov/samhsa/c2s/contexthandler/service/PcmServicePolicyProviderImpl.java:69 | the UTF-8 bytes are one to four per character, and ASCII text is its own encoding byte for byte |
| Common.Utf8Char | context-handler/src/main/java/gov/samhsa/c2s/contexthandler/service/PcmServicePolicyProviderImpl.java:69 | one byte exactly for code points below 0x80, equal to the code point; otherwise two to four |
| Dto.XacmlRequestDto.constructor | context-handler/src/main/java/gov/samhsa/c2s/contexthandler/service/dto/XacmlRequestDto.java:22-48 | a request object holds exactly the given field values |
| Dto.XacmlRequestDto.SetMessageId | context-handler/src/main/java/gov/samhsa/c2s/contexthandler/service/dto/XacmlRequestDto.java:46-47 | only the message id changes |
| Dto.XacmlResponseDto.constructor | context-handler/src/main/java/gov/samhsa/c2s/contexthandler/service/dto/XacmlResponseDto.java:13-19 | a response object holds exactly the given decision and obligations |
| PurposeOfUse.FromValue | context-handler/src/main/java/gov/samhsa/c2s/contexthandler/service/dto/SubjectPurposeOfUse.java:21-23 | `fromValue` matches constant names, and throws IllegalArgumentException with the JDK message for any other text |
| PurposeOfUse.FindPurpose | context-handler/src/main/java/gov/samhsa/c2s/contexthandler/service/dto/SubjectPurposeOfUse.java:26-30 | the loop finds the first constant with the abbreviation, or reports that none has it |
| PurposeOfUse.FromPurpose | context-handler/src/main/java/gov/samhsa/c2s/contexthandler/service/dto/SubjectPurposeOfUse.java:25-36 | succeeds iff some constant has the abbreviation and returns one with it; otherwise the "not defined in this enum" exception |
| PurposeOfUse.PurposeRoundTrip | context-handler/src/main/java/gov/samhsa/c2s/contexthandler/service/dto/SubjectPurposeOfUse.java:8-40 | `fromPurpose(p.getPurpose()) == p` for every constant |
| PurposeOfUse.TreatmentLookupsDiffer | context-handler/src/main/java/gov/samhsa/c2s/contexthandler/service/dto/SubjectPurposeOfUse.java:8-36 | `fromValue("TREATMENT")` throws while `fromPurpose("TREATMENT")` succeeds, and the converse holds for "HEALTHCARE_TREATMENT" |
| PdpAttributeIds.WithType | context-handler/src/main/java/gov/samhsa/c2s/contexthandler/service/util/PdpAttributeIds.java:20-23 | the two-argument constructor keeps both arguments |
| PdpAttributeIds.StringTyped | context-handler/src/main/java/gov/samhsa/c2s/contexthandler/service/util/PdpAttributeIds.java:24-27 | the one-argument constructor defaults the type to xs:string |
| PdpAttributeIds.AttributeTypes | context-handler/src/main/java/gov/samhsa/c2s/contexthandler/service/util/PdpAttributeIds.java:8-14 | only the current-dateTime constant is xs:dateTime; all others are xs:string |
| PdpAttributeIds.AttributeIdsDistinct | context-handler/src/main/java/gov/samhsa/c2s/contexthandler/service/util/PdpAttributeIds.java:8-14 | no two constants share an attribute id |
| PdpAttributeIds.IdentifierLength | context-handler/src/main/java/gov/samhsa/c2s/contexthandler/service/util/PdpAttributeIds.java:8-14 | the length of each constant's attribute id |
| AssertionUtils.AssertPoliciesNotEmpty | context-handler/src/main/java/gov/samhsa/c2s/contexthandler/service/util/AssertionUtils.java:13-22 | passes iff the list is non-null and non-empty; otherwise PolicyNotFoundException naming the id |
| AssertionUtils.AssertPolicyId | context-handler/src/main/java/gov/samhsa/c2s/contexthandler/service/util/AssertionUtils.java:24-28 | passes iff the id is non-null with a non-whitespace character; otherwise PolicyIdNotFoundException |
| AssertionUtils.BlankPolicyIdsRefused | context-handler/src/main/java/gov/samhsa/c2s/contexthandler/service/util/AssertionUtils.java:24-28 | null, empty and all-whitespace ids are refused; an id with text passes |
| MappingUtils.ToPolicyDto | context-handler/src/main/java/gov/samhsa/c2s/contexthandler/service/util/MappingUtils.java:19-42 | a document that does not parse gives DOMUtilsException; otherwise succeeds iff the document has a PolicySetId or a PolicyId; PolicySetId takes precedence; the bytes are kept; otherwise PolicyIdNotFoundException |
| MappingUtils.ContentToPolicyDto | context-handler/src/main/java/gov/samhsa/c2s/contexthandler/service/util/MappingUtils.java:44-46 | the wrapper is mapped like its bytes and keeps them |
| CombiningAlgValidator.ValidateAndReturn | context-handler/src/main/java/gov/samhsa/c2s/contexthandler/service/PolicyCombiningAlgIdValidatorImpl.java:27-46 | succeeds iff the id has text and is a configured alias or URN; the result is always a configured URN; an alias resolves to its URN and a URN is returned as given; each of the two failures raises its own exception with the source's message |
| CombiningAlgValidator.AliasWinsOverValue | context-handler/src/main/java/gov/samhsa/c2s/contexthandler/service/PolicyCombiningAlgIdValidatorImpl.java:32-33 | an id that is both an alias and another entry's URN resolves as an alias |
| CombiningAlgValidator.ValidateIsIdempotent | context-handler/src/main/java/gov/samhsa/c2s/contexthandler/service/PolicyCombiningAlgIdValidatorImpl.java:27-46 | validating a result again returns it unchanged, unless that result is blank or also an alias |
| CombiningAlgValidator.BlankUrnBreaksIdempotence | context-handler/src/main/java/gov/samhsa/c2s/contexthandler/service/PolicyCombiningAlgIdValidatorImpl.java:28-33 | an alias configured with a blank URN validates once, and its result is refused on the second pass |
| PolicySetService.MapThrown | context-handler/src/main/java/gov/samhsa/c2s/contexthandler/service/XacmlPolicySetServiceImpl.java:98-109 | a SyntaxException becomes PolicyProviderException; a 4xx status becomes NoPolicyFoundException; any other status becomes PolicyProviderException |
| PolicySetService.ChosenPolicySetId | context-handler/src/main/java/gov/samhsa/c2s/contexthandler/service/XacmlPolicySetServiceImpl.java:69-71 | a requested id with text is kept; otherwise the fresh UUID is used |
| PolicySetService.Roots | context-handler/src/main/java/gov/samhsa/c2s/contexthandler/service/XacmlPolicySetServiceImpl.java:78-84 | on success, one root per policy, in order, each the parse of that policy; on failure, the exception of the first policy that does not parse |
| PolicySetService.FirstUnparsableInPrefix | context-handler/src/main/java/gov/samhsa/c2s/contexthandler/service/XacmlPolicySetServiceImpl.java:78-84 | the first unparsable policy of a prefix is the first unparsable policy of the whole list |
| PolicySetService.RootsOfExtension | context-handler/src/main/java/gov/samhsa/c2s/contexthandler/service/XacmlPolicySetServiceImpl.java:78-84 | when every policy before `i` parses and policy `i` does not, the stream fails with policy `i`'s exception |
| PolicySetService.Finish | context-handler/src/main/java/gov/samhsa/c2s/contexthandler/service/XacmlPolicySetServiceImpl.java:89-97 | the serialised set is validated, and only a validation exception is reported; then it is unmarshalled, with an unmarshalling error becoming PolicyProviderException |
| PolicySetService.AssembledDocument | context-handler/src/main/java/gov/samhsa/c2s/contexthandler/service/XacmlPolicySetServiceImpl.java:64-87 | an unreadable template gives RuntimeException and the first unparsable policy gives DOMUtilsException; when the template and every policy parse, the result is Ok: the set has the chosen id and the validated algorithm, and the template's children come first, followed by each policy's root in order |
| PolicySetService.CombinedAsPolicySet | context-handler/src/main/java/gov/samhsa/c2s/contexthandler/service/XacmlPolicySetServiceImpl.java:57-110 | the algorithm is validated before anything else, and its exception is passed through unchanged; a document error passes through; the result is Ok only if both succeed, and when both succeed it is exactly `Finish` of the `AssembledDocument` built with the validated algorithm |
| PolicySetService.ValidityVerdictIgnored | context-handler/src/main/java/gov/samhsa/c2s/contexthandler/service/XacmlPolicySetServiceImpl.java:92-96 | the validator's true/false verdict never changes the result |
| PolicySetService.NoPoliciesKeepsTemplateChildren | context-handler/src/main/java/gov/samhsa/c2s/contexthandler/service/XacmlPolicySetServiceImpl.java:64-87 | with no policies the set has exactly the template's children |
| PolicySetService.PolicySetDocument.constructor | context-handler/src/main/java/gov/samhsa/c2s/contexthandler/service/XacmlPolicySetServiceImpl.java:112-122 | the document starts as a copy of the template |
| PolicySetService.PolicySetDocument.SetPolicySetId | context-handler/src/main/java/gov/samhsa/c2s/contexthandler/service/XacmlPolicySetServiceImpl.java:72-73 | only the PolicySetId changes |
| PolicySetService.PolicySetDocument.SetPolicyCombiningAlgId | context-handler/src/main/java/gov/samhsa/c2s/contexthandler/service/XacmlPolicySetServiceImpl.java:74-75 | only the algorithm id changes |
| PolicySetService.PolicySetDocument.AppendChild | context-handler/src/main/java/gov/samhsa/c2s/contexthandler/service/XacmlPolicySetServiceImpl.java:85-87 | the element is added after the existing children |
| PolicySetService.AppendPolicyRoots | context-handler/src/main/java/gov/samhsa/c2s/contexthandler/service/XacmlPolicySetServiceImpl.java:78-87 | the loop appends every policy's root in order, or stops with the first parse failure |
| PolicySetService.GetPoliciesCombinedAsPolicySet | context-handler/src/main/java/gov/samhsa/c2s/contexthandler/service/XacmlPolicySetServiceImpl.java:57-110 | filling the document in place yields exactly `CombinedAsPolicySet` |
| JdbcPolicyProvider.QueryConsents | context-handler/src/main/java/gov/samhsa/c2s/contexthandler/service/JdbcPolicyProviderImpl.java:61-65 | the query returns no more rows than the table holds |
| JdbcPolicyProvider.QueryReturnsSelectedRows | context-handler/src/main/java/gov/samhsa/c2s/contexthandler/service/JdbcPolicyProviderImpl.java:61-65 | a policy is returned iff some row matching the WHERE clause (LIKE key, signed, now within the dates) maps to it |
| JdbcPolicyProvider.PercentMatchesAll | context-handler/src/main/java/gov/samhsa/c2s/contexthandler/service/JdbcPolicyProviderImpl.java:69 | the pattern `%` matches every string |
| JdbcPolicyProvider.LiteralThenPercent | context-handler/src/main/java/gov/samhsa/c2s/contexthandler/service/JdbcPolicyProviderImpl.java:141-142 | a literal followed by `%` matches exactly the strings starting with that literal |
| JdbcPolicyProvider.KeySelectsItsPrefix | context-handler/src/main/java/gov/samhsa/c2s/contexthandler/service/JdbcPolicyProviderImpl.java:128-144 | a key built from metacharacter-free parts selects exactly the reference ids beginning with its literal part |
| JdbcPolicyProvider.UnderscorePatientIdMatchesOtherPatients | context-handler/src/main/java/gov/samhsa/c2s/contexthandler/service/JdbcPolicyProviderImpl.java:128-131 | patient ids are not escaped, so the patient id `_` selects the consents of every one-character patient id |
| JdbcPolicyProvider.PoliciesForKey | context-handler/src/main/java/gov/samhsa/c2s/contexthandler/service/JdbcPolicyProviderImpl.java:146-158 | a key without text gives PolicyIdNotFoundException; an empty result gives PolicyNotFoundException naming the key; otherwise it is Ok of the non-empty query result |
| JdbcPolicyProvider.RequestKeyHasText | context-handler/src/main/java/gov/samhsa/c2s/contexthandler/service/JdbcPolicyProviderImpl.java:128-144 | the key always ends in `%`, so for a request the id check never fails |
| JdbcPolicyProvider.PoliciesFor | context-handler/src/main/java/gov/samhsa/c2s/contexthandler/service/JdbcPolicyProviderImpl.java:106-126 | the key errors pass through; when the key step succeeds, the result is Ok of the one-element list holding the query result combined by `CombinedAsPolicySet` under deny-overrides with the fresh id, or that combination's error |
| JdbcPolicyProvider.NoConsentIsPolicyNotFound | context-handler/src/main/java/gov/samhsa/c2s/contexthandler/service/JdbcPolicyProviderImpl.java:146-155 | with no matching consent the provider throws PolicyNotFoundException, not NoPolicyFoundException |
| JdbcPolicyProvider.GetPolicies | context-handler/src/main/java/gov/samhsa/c2s/contexthandler/service/JdbcPolicyProviderImpl.java:106-126 | the provider method returns `PoliciesFor` |
| PolRepPolicyProvider.RequestKeyIgnoresPatientRoot | context-handler/src/main/java/gov/samhsa/c2s/contexthandler/service/PolRepPolicyProvider.java:70-78 | the key uses the never-assigned domain field, so the request's patient root has no effect on it |
| PolRepPolicyProvider.UnassignedKeyText | context-handler/src/main/java/gov/samhsa/c2s/contexthandler/service/PolRepPolicyProvider.java:100-116 | with both fields unset the key reads `pid:&null&null:recipient:intermediary:*` |
| PolRepPolicyProvider.AlwaysThrowsNullPointer | context-handler/src/main/java/gov/samhsa/c2s/contexthandler/service/PolRepPolicyProvider.java:79-86 | `new PolicyDto()` has null bytes, so every call throws NullPointerException, which neither catch block handles |
| PcmPolicyProvider.ConvertedPolicies | context-handler/src/main/java/gov/samhsa/c2s/contexthandler/service/PcmServicePolicyProviderImpl.java:60-90 | succeeds iff the export succeeds, giving the one exported consent with its id and UTF-8 XACML; a 404 gives NoPolicyFoundException and any other status PcmClientInterfaceException, each with its message |
| PcmPolicyProvider.PoliciesFor | context-handler/src/main/java/gov/samhsa/c2s/contexthandler/service/PcmServicePolicyProviderImpl.java:44-57 | conversion errors pass through; when conversion succeeds, the result is Ok of the one-element list holding the converted consent combined by `CombinedAsPolicySet` under deny-overrides with the fresh id, or that combination's error |
| PcmPolicyProvider.GetPolicies | context-handler/src/main/java/gov/samhsa/c2s/contexthandler/service/PcmServicePolicyProviderImpl.java:44-57 | the provider method returns `PoliciesFor` |
| PolicyProviderStub.PoliciesFor | context-handler/src/test/java/gov/samhsa/c2s/contexthandler/service/PolicyProviderStub.java:40-67 | identifiers are compared on both fields: the unhandled-error identifier gives PolicyProviderException; either mock patient gets the fixture combined under deny-overrides (an unreadable fixture gives RuntimeException); any other identifier gives NoPolicyFoundException with the mismatch message |
| PolicyProviderStub.RootTakesPartInMatching | context-handler/src/test/java/gov/samhsa/c2s/contexthandler/ContextHandlerApplicationTest.java:114-131 | the mock SSN under any root but the SSN one, as in the test's `IdentifierDto.of(INVALID_VALUE, MOCK_SSN)`, is an unknown patient and gives NoPolicyFoundException with the mismatch message |
| PolicyProviderStub.GetPolicies | context-handler/src/test/java/gov/samhsa/c2s/contexthandler/service/PolicyProviderStub.java:40-67 | the stub method returns `PoliciesFor` |
| FhirPolicyProvider.TempGetFhirConsent | context-handler/src/main/java/gov/samhsa/c2s/contexthandler/service/FhirServerPolicyProviderImpl.java:177-216 | no patient for the MRN iff PatientNotFound; more than one iff MultiplePatientsFound; one patient with no active consent iff ConsentNotFound, each with the source's message including the date; one patient with active consents gives Ok of those consents and that patient |
| FhirPolicyProvider.PreparedKeepsIdentity | context-handler/src/main/java/gov/samhsa/c2s/contexthandler/service/FhirServerPolicyProviderImpl.java:114-132 | blanking keeps the first name, last name, MRN, consent reference id and terms |
| FhirPolicyProvider.PreparedRemovesDemographics | context-handler/src/main/java/gov/samhsa/c2s/contexthandler/service/FhirServerPolicyProviderImpl.java:114-132 | every other patient field becomes "" and the birth date becomes the current time; version is 0 and the legal representative is an empty patient |
| FhirPolicyProvider.PreparedForgetsClearedFields | context-handler/src/main/java/gov/samhsa/c2s/contexthandler/service/FhirServerPolicyProviderImpl.java:114-132 | two consents that agree on the kept fields are identical after blanking |
| FhirPolicyProvider.PreparedIsIdempotent | context-handler/src/main/java/gov/samhsa/c2s/contexthandler/service/FhirServerPolicyProviderImpl.java:114-132 | blanking twice equals blanking once |
| FhirPolicyProvider.PatientDto.constructor | context-handler/src/main/java/gov/samhsa/c2s/contexthandler/service/FhirServerPolicyProviderImpl.java:114-117 | a patient object holds exactly the given fields |
| FhirPolicyProvider.PatientDto.BlankAddress | context-handler/src/main/java/gov/samhsa/c2s/contexthandler/service/FhirServerPolicyProviderImpl.java:118-123 | sets the id number and the five address fields to "", and nothing else changes |
| FhirPolicyProvider.PatientDto.BlankDemographics | context-handler/src/main/java/gov/samhsa/c2s/contexthandler/service/FhirServerPolicyProviderImpl.java:124-130 | sets gender, email, enterprise id, prefix, SSN and telephone to "" and the birth date to the current time; nothing else changes |
| FhirPolicyProvider.PatientDto.Blank | context-handler/src/main/java/gov/samhsa/c2s/contexthandler/service/FhirServerPolicyProviderImpl.java:117-132 | the patient object becomes `Blanked` of its old value |
| FhirPolicyProvider.ConsentDto.constructor | context-handler/src/main/java/gov/samhsa/c2s/contexthandler/service/FhirServerPolicyProviderImpl.java:75 | a consent object holds exactly the converted consent, with its own patient object |
| FhirPolicyProvider.PrepareConsent | context-handler/src/main/java/gov/samhsa/c2s/contexthandler/service/FhirServerPolicyProviderImpl.java:114-132 | the consent and its patient object become `Prepared` of their old value, in place |
| FhirPolicyProvider.PoliciesFor | context-handler/src/main/java/gov/samhsa/c2s/contexthandler/service/FhirServerPolicyProviderImpl.java:62-147 | lookup errors pass through; a conversion error gives PolicyProviderException("Unable to process FHIR consent"); it succeeds iff both conversions of the first consent succeed, and even then returns null, never a list |
| FhirPolicyProvider.OnlyFirstConsentMatters | context-handler/src/main/java/gov/samhsa/c2s/contexthandler/service/FhirServerPolicyProviderImpl.java:70-71 | two searches whose first active consent is the same give the same outcome |
| FhirPolicyProvider.GetPolicies | context-handler/src/main/java/gov/samhsa/c2s/contexthandler/service/FhirServerPolicyProviderImpl.java:62-147 | the method returns `PoliciesFor`, and on success its consent object is the prepared consent |
| PolicySources.PoliciesFrom | context-handler/src/main/java/gov/samhsa/c2s/contexthandler/service/PolicyDecisionPointServiceImpl.java:124-128 | every source that returns gives exactly one policy set; the repository source always throws NullPointerException |
| PolicySources.JdbcEmptyQueryIsPolicyNotFound | context-handler/src/main/java/gov/samhsa/c2s/contexthandler/service/PolicyDecisionPointServiceImpl.java:124-128 | with the JDBC source, an empty query reaches the PDP as PolicyNotFoundException, not NoPolicyFoundException |
| PolicySources.GetPolicies | context-handler/src/main/java/gov/samhsa/c2s/contexthandler/service/PolicyDecisionPointServiceImpl.java:124-128 | the dispatching method returns `PoliciesFrom` |
| RequestGenerator.ValuesVerbatimInOrder | context-handler/src/main/java/gov/samhsa/c2s/contexthandler/service/util/RequestGenerator.java:113-168 | the five values appear verbatim and in order, each between `<AttributeValue>` and `</AttributeValue>` |
| RequestGenerator.Envelope | context-handler/src/main/java/gov/samhsa/c2s/contexthandler/service/util/RequestGenerator.java:118-119 | the text opens with `<Request` and the XACML 2.0 context namespace, and ends with `</Request>` |
| RequestGenerator.SectionsInOrder | context-handler/src/main/java/gov/samhsa/c2s/contexthandler/service/util/RequestGenerator.java:121-165 | Subject, Resource, Action and Environment open in that order, and the action id is always `write` |
| RequestGenerator.TakeText | context-handler/src/main/java/gov/samhsa/c2s/contexthandler/service/util/RequestGenerator.java:126-163 | the reader splits at the first `<`; the parts rejoin to the input, and the first part has no `<` |
| RequestGenerator.TakeTextOfValue | context-handler/src/main/java/gov/samhsa/c2s/contexthandler/service/util/RequestGenerator.java:126-163 | a `<`-free value followed by markup is read back exactly |
| RequestGenerator.FieldOf | context-handler/src/main/java/gov/samhsa/c2s/contexthandler/service/util/RequestGenerator.java:126-163 | a fixed piece followed by a `<`-free value is read back as that value |
| RequestGenerator.AssembleRoundTrip | context-handler/src/main/java/gov/samhsa/c2s/contexthandler/service/util/RequestGenerator.java:113-168 | for any delimited markup, reading back the assembled text yields the values |
| RequestGenerator.RequestStringRoundTrip | context-handler/src/main/java/gov/samhsa/c2s/contexthandler/service/util/RequestGenerator.java:113-168 | values free of `<` are read back exactly from the generated request |
| RequestGenerator.MarkupInRecipientBreaks | context-handler/src/main/java/gov/samhsa/c2s/contexthandler/service/util/RequestGenerator.java:126-130 | a recipient containing `<` makes the text unreadable as a request of that markup |
| RequestGenerator.UnescapedMarkupBreaksRequest | context-handler/src/main/java/gov/samhsa/c2s/contexthandler/service/util/RequestGenerator.java:126-130 | with recipient `a<b` the generated request no longer has the request's shape |
| RequestGenerator.GenerateRequestStringFromDto | context-handler/src/main/java/gov/samhsa/c2s/contexthandler/service/util/RequestGenerator.java:89-99 | the transform's output, or "" when the transform throws |
| RequestGenerator.GenerateRequest | context-handler/src/main/java/gov/samhsa/c2s/contexthandler/service/util/RequestGenerator.java:72-86 | an unmarshalling SyntaxException gives null, otherwise the parsed request of the text's bytes in the platform's default charset (the parameter `getBytes`); a failed transform is not reported, and the empty string is unmarshalled |
| NvpBuilder.PairList.constructor | context-handler/src/main/java/gov/samhsa/c2s/contexthandler/service/util/NVPBuilder.java:11 | a new list is empty |
| NvpBuilder.PairList.Add | context-handler/src/main/java/gov/samhsa/c2s/contexthandler/service/util/NVPBuilder.java:23 | the pair is appended |
| NvpBuilder.NVPBuilder.constructor | context-handler/src/main/java/gov/samhsa/c2s/contexthandler/service/util/NVPBuilder.java:11 | a new builder owns a fresh empty list |
| NvpBuilder.NVPBuilder.Identity | context-handler/src/main/java/gov/samhsa/c2s/contexthandler/service/util/NVPBuilder.java:13-15 | `identity()` is a fresh empty list |
| NvpBuilder.NVPBuilder.WithParam | context-handler/src/main/java/gov/samhsa/c2s/contexthandler/service/util/NVPBuilder.java:17-20 | a fresh builder holding exactly that one pair |
| NvpBuilder.NVPBuilder.And | context-handler/src/main/java/gov/samhsa/c2s/contexthandler/service/util/NVPBuilder.java:22-25 | appends the pair and returns the same builder |
| NvpBuilder.NVPBuilder.Build | context-handler/src/main/java/gov/samhsa/c2s/contexthandler/service/util/NVPBuilder.java:27-29 | returns the builder's own list, not a copy |
| NvpBuilder.ChainedParams | context-handler/src/main/java/gov/samhsa/c2s/contexthandler/service/util/NVPBuilder.java:17-29 | `withParam(a).and(b).and(c).build()` is `[a, b, c]` |
| NvpBuilder.BuiltListSeesLaterAnd | context-handler/src/main/java/gov/samhsa/c2s/contexthandler/service/util/NVPBuilder.java:22-29 | a list already taken from `build` shows a later `and` |
| PolicyDecisionPoint.DecisionName | context-handler/src/main/java/gov/samhsa/c2s/contexthandler/service/PolicyDecisionPointServiceImpl.java:146 | the decision's text is "DENY" exactly for the Deny decision |
| PolicyDecisionPoint.ContentsHoldsEveryContent | context-handler/src/main/java/gov/samhsa/c2s/contexthandler/service/PolicyDecisionPointServiceImpl.java:153-158 | a string is collected iff some attribute assignment holds it |
| PolicyDecisionPoint.FlattenHoldsEveryContent | context-handler/src/main/java/gov/samhsa/c2s/contexthandler/service/PolicyDecisionPointServiceImpl.java:149-160 | a string is among the obligations iff some assignment of some obligation holds it |
| PolicyDecisionPoint.FlattenKeepsOrder | context-handler/src/main/java/gov/samhsa/c2s/contexthandler/service/PolicyDecisionPointServiceImpl.java:149-160 | flattening splits over concatenation, so order is kept |
| PolicyDecisionPoint.CollectObligations | context-handler/src/main/java/gov/samhsa/c2s/contexthandler/service/PolicyDecisionPointServiceImpl.java:149-160 | the three nested loops build exactly the flattened list |
| PolicyDecisionPoint.FoldedIsLastResult | context-handler/src/main/java/gov/samhsa/c2s/contexthandler/service/PolicyDecisionPointServiceImpl.java:140-162 | the decision is the last result's, or "DENY" when there are no results; the obligations are the flattened last non-null block, or empty when there is none |
| PolicyDecisionPoint.LaterPermitOverridesDeny | context-handler/src/main/java/gov/samhsa/c2s/contexthandler/service/PolicyDecisionPointServiceImpl.java:144-146 | a PERMIT after a DENY makes the response PERMIT: there is no precedence |
| PolicyDecisionPoint.EvaluateResults | context-handler/src/main/java/gov/samhsa/c2s/contexthandler/service/PolicyDecisionPointServiceImpl.java:138-168 | the loop leaves the fresh response holding exactly `Folded(results)` |
| PolicyDecisionPoint.Undeployed | context-handler/src/main/java/gov/samhsa/c2s/contexthandler/service/PolicyDecisionPointServiceImpl.java:197 | after undeploying an id, a policy remains iff it was deployed and has another id |
| PolicyDecisionPoint.PolicyRepository.constructor | context-handler/src/main/java/gov/samhsa/c2s/contexthandler/service/PolicyDecisionPointServiceImpl.java:107-112 | the PDP starts with nothing deployed |
| PolicyDecisionPoint.PolicyRepository.Deploy | context-handler/src/main/java/gov/samhsa/c2s/contexthandler/service/PolicyDecisionPointServiceImpl.java:175-177 | the policies are added after those already deployed |
| PolicyDecisionPoint.PolicyRepository.Undeploy | context-handler/src/main/java/gov/samhsa/c2s/contexthandler/service/PolicyDecisionPointServiceImpl.java:197 | the deployment becomes `Undeployed` of its old value |
| PolicyDecisionPoint.PolicyRepository.GetDeployment | context-handler/src/main/java/gov/samhsa/c2s/contexthandler/service/PolicyDecisionPointServiceImpl.java:194-195 | the snapshot equals the deployment |
| PolicyDecisionPoint.UndeployAllPolicies | context-handler/src/main/java/gov/samhsa/c2s/contexthandler/service/PolicyDecisionPointServiceImpl.java:191-199 | undeploying each id of a snapshot empties the repository |
| PolicyDecisionPoint.CollectPolicyIds | context-handler/src/main/java/gov/samhsa/c2s/contexthandler/service/PolicyDecisionPointServiceImpl.java:212-218 | null iff no PolicyId node was found; otherwise exactly the node values, as a set no larger than the node list |
| PolicyDecisionPoint.PredicatesFor | context-handler/src/main/java/gov/samhsa/c2s/contexthandler/service/PolicyDecisionPointServiceImpl.java:219-222 | XACML_POLICY always maps to the marshalled policy; XACML_POLICY_ID is present iff ids were found, and maps to the rendered id set |
| PolicyDecisionPoint.AuditAttempt | context-handler/src/main/java/gov/samhsa/c2s/contexthandler/service/PolicyDecisionPointServiceImpl.java:201-225 | a marshalling error is the audit's error; a delivered record carries the request's message id, DEPLOY_POLICY, the patient id and the marshalled policy |
| PolicyDecisionPoint.AuditPolicy | context-handler/src/main/java/gov/samhsa/c2s/contexthandler/service/PolicyDecisionPointServiceImpl.java:201-225 | the method returns `AuditAttempt` |
| PolicyDecisionPoint.AuditsStopAtFirstFailure | context-handler/src/main/java/gov/samhsa/c2s/contexthandler/service/PolicyDecisionPointServiceImpl.java:178-182 | the policies are audited in order; the records delivered are those before the first failure; the failure is that policy's exception, and there is none iff every audit succeeds |
| PolicyDecisionPoint.AuditRecordsNameTheRequest | context-handler/src/main/java/gov/samhsa/c2s/contexthandler/service/PolicyDecisionPointServiceImpl.java:223-224 | every delivered record names the request's message id and patient |
| PolicyDecisionPoint.AuditFailureSticks | context-handler/src/main/java/gov/samhsa/c2s/contexthandler/service/PolicyDecisionPointServiceImpl.java:178-188 | once a prefix has failed, later policies are not audited |
| PolicyDecisionPoint.Deployment | context-handler/src/main/java/gov/samhsa/c2s/contexthandler/service/PolicyDecisionPointServiceImpl.java:171-189 | on success the policies are appended to the deployment; an audit failure empties it and raises C2SAuditException; without auditing it always succeeds |
| PolicyDecisionPoint.AuditFailureRollsBack | context-handler/src/main/java/gov/samhsa/c2s/contexthandler/service/PolicyDecisionPointServiceImpl.java:183-188 | deployment fails iff some audit throws; the first failure's message becomes C2SAuditException, and the deployment is emptied |
| PolicyDecisionPoint.DeployPolicies | context-handler/src/main/java/gov/samhsa/c2s/contexthandler/service/PolicyDecisionPointServiceImpl.java:171-189 | the method leaves the outcome, the repository and the delivered records as `Deployment` says |
| PolicyDecisionPoint.FetchedAndDeployed | context-handler/src/main/java/gov/samhsa/c2s/contexthandler/service/PolicyDecisionPointServiceImpl.java:116-122 | a provider error leaves the deployment unchanged and audits nothing; otherwise the stage is that of `Deployment` with auditing on: Ok of the fetched policies iff every audit passes, the policies added after the current deployment, the audit failure as the error with the deployment emptied, and the delivered records those of `Deployment` |
| PolicyDecisionPoint.DeployRequestPolicies | context-handler/src/main/java/gov/samhsa/c2s/contexthandler/service/PolicyDecisionPointServiceImpl.java:116-122 | the method leaves the state as `FetchedAndDeployed` says |
| PolicyDecisionPoint.CycleAsWritten | context-handler/src/main/java/gov/samhsa/c2s/contexthandler/service/PolicyDecisionPointServiceImpl.java:107-136 | a provider or audit error is passed through; a successful evaluation is answered with the fold of the results and leaves nothing deployed |
| PolicyDecisionPoint.CycleWithCleanup | context-handler/src/main/java/gov/samhsa/c2s/contexthandler/service/PolicyDecisionPointServiceImpl.java:131-136 | as `CycleAsWritten`, but once policies are deployed nothing stays deployed, whether evaluation throws or not |
| PolicyDecisionPoint.CleanupOnlyChangesThrowingEvaluations | context-handler/src/main/java/gov/samhsa/c2s/contexthandler/service/PolicyDecisionPointServiceImpl.java:131-136 | the corrected cycle gives the same response always, and the same state unless evaluation throws |
| PolicyDecisionPoint.SourceFailureChangesNothing | context-handler/src/main/java/gov/samhsa/c2s/contexthandler/service/PolicyDecisionPointServiceImpl.java:116-128 | a provider exception reaches the caller, with nothing deployed or audited |
| PolicyDecisionPoint.ThrowingEvaluatorLeavesPoliciesDeployed | context-handler/src/main/java/gov/samhsa/c2s/contexthandler/service/PolicyDecisionPointServiceImpl.java:131-136 | if evaluation throws, the fetched policies stay deployed |
| PolicyDecisionPoint.StalePolicySetReachesNextRequest | context-handler/src/main/java/gov/samhsa/c2s/contexthandler/service/PolicyDecisionPointServiceImpl.java:107-136 | after a throwing evaluation, the next request is evaluated against the stale policy set plus its own; with the cleanup only against its own |
| PolicyDecisionPoint.EvaluateDeployed | context-handler/src/main/java/gov/samhsa/c2s/contexthandler/service/PolicyDecisionPointServiceImpl.java:138-168 | a fresh response with the fold of the results, or the evaluator's exception |
| PolicyDecisionPoint.EvaluateAndUndeploy | context-handler/src/main/java/gov/samhsa/c2s/contexthandler/service/PolicyDecisionPointServiceImpl.java:131-136 | the response is as above; the repository is emptied only when evaluation returned |
| PolicyDecisionPoint.EvaluateAndUndeployWithCleanup | context-handler/src/main/java/gov/samhsa/c2s/contexthandler/service/PolicyDecisionPointServiceImpl.java:131-136 | the same response, and the repository is always emptied |
| PolicyDecisionPoint.ManagePoliciesAndEvaluateRequest | context-handler/src/main/java/gov/samhsa/c2s/contexthandler/service/PolicyDecisionPointServiceImpl.java:107-114 | the synchronized cycle leaves response, repository and audit records as `CycleAsWritten` says |
| PolicyDecisionPoint.ManagePoliciesAndEvaluateRequestWithCleanup | context-handler/src/main/java/gov/samhsa/c2s/contexthandler/service/PolicyDecisionPointServiceImpl.java:107-136 | the same, against `CycleWithCleanup` |
| PolicyDecisionPoint.EvaluateRequest | context-handler/src/main/java/gov/samhsa/c2s/contexthandler/service/PolicyDecisionPointServiceImpl.java:96-104 | the generated request is evaluated through `CycleAsWritten` |
| PolicyDecisionPoint.EvaluateRequestWithCleanup | context-handler/src/main/java/gov/samhsa/c2s/contexthandler/service/PolicyDecisionPointServiceImpl.java:96-136 | the same, through `CycleWithCleanup` |
| ContextHandler.Enforced | context-handler/src/main/java/gov/samhsa/c2s/contexthandler/service/ContextHandlerServiceImpl.java:34-50 | the PDP's response passes through unchanged; a NoPolicyFoundException gives a response with no obligations whose decision is the exception's class name; any other exception passes through |
| ContextHandler.NoPolicyFoundIsNotDenied | context-handler/src/main/java/gov/samhsa/c2s/contexthandler/service/ContextHandlerServiceImpl.java:46-47 | when no policy is found, the decision is "gov.samhsa.c2s.contexthandler.service.exception.NoPolicyFoundException", not "DENY" |
| ContextHandler.EnforcedAsTested | context-handler/src/test/java/gov/samhsa/c2s/contexthandler/ContextHandlerApplicationTest.java:114-131 | when no policy is found, the response is DENY with no obligations; everything else passes through |
| ContextHandler.AsTestedDiffersOnlyOnNoPolicy | context-handler/src/main/java/gov/samhsa/c2s/contexthandler/service/ContextHandlerServiceImpl.java:44-48 | the two readings differ exactly on NoPolicyFoundException, and then only in the decision |
| ContextHandler.Stamped | context-handler/src/main/java/gov/samhsa/c2s/contexthandler/service/ContextHandlerServiceImpl.java:38 | the stamped request has the new message id, and all its other fields are unchanged |
| ContextHandler.EnforcePolicy | context-handler/src/main/java/gov/samhsa/c2s/contexthandler/service/ContextHandlerServiceImpl.java:34-50 | the caller's request object is stamped in place; the answer and the repository are those of `Enforced` over `CycleAsWritten` |
| ContextHandler.EnforcePolicyAsTested | context-handler/src/main/java/gov/samhsa/c2s/contexthandler/service/ContextHandlerServiceImpl.java:34-50 | the same, answering `EnforcedAsTested` over `CycleWithCleanup` |
| ContextHandler.UnknownPatientIsAnswered | context-handler/src/test/java/gov/samhsa/c2s/contexthandler/ContextHandlerApplicationTest.java:114-150 | with the stub, an unknown patient is answered without obligations and with nothing deployed; the tested reading answers DENY |
| ContextHandler.UnhandledErrorPropagates | context-handler/src/test/java/gov/samhsa/c2s/contexthandler/ContextHandlerApplicationTest.java:427-441 | with the stub, the unhandled-error patient makes `enforcePolicy` throw PolicyProviderException("Unhandled exception") |

## Left out

- PDP evaluation (herasaf `PDP.evaluate`) is the parameter `evaluate`, and its results are taken as
  given. The XACML combining semantics inside it are not modelled.
- The herasaf policy repository is a `seq` of policies in deployment order.
  - `undeploy(id)` removes every deployed policy with that id.
  - The library's internal indexing and its behaviour on duplicate ids are not modelled.
- The singleton `getSimplePDP()` and the `synchronized` keyword are not modelled. The repository is
  one object passed to each call, and calls are sequential. Concurrency is not modelled.
- XML is a value:
  - The policy-set document is three fields: its id, its algorithm, and its children as values.
  - DOM parsing, `cloneNode`/`importNode`, serialisation and schema validation are functions given
    as parameters. So are the `PolicyId` XPath lookup, JAXB marshalling and the XSL transform.
- The JDBC `DataSource`, the PCM Feign client and the FHIR client are inputs:
  - the JDBC `DataSource` as a table of rows plus `now()`;
  - the PCM Feign client as a function from request to export outcome;
  - the FHIR client as two search functions.
- LIKE's default escape character, backslash, is modelled: `Like` treats `\` as an escape and
  `Literal` excludes it. SQL collation and NULL handling beyond NULL dates are not modelled.
- The audit transport is `send`. `auditService.createPredicateMap()` is taken to return an empty
  map.
- `HashSet.toString` is the parameter `renderIds`, because its element order is left open by the JDK.
- UUIDs, `new Date()` and `RequestGenerator.getDate()` are parameters. Time is an integer.
- The platform default charset of `String.getBytes()` in `generateRequest` is the parameter
  `getBytes`, because it depends on the JVM's configuration.
- `RequestGenerator.main`, `main1` and the `RequestMarshaller` helper are not modelled. They are not
  called by the service.
- The FHIR provider is not one of the configured sources in `PolicySources`. On success its
  `getPolicies` returns null, which the PDP would dereference. It is modelled on its own.
  - The logging of the provider lists is left out.
  - The mock-file reading helper (`FhirServerPolicyProviderImpl.java:150-172`) is not modelled.
  - The converters are the parameter `ConsentBuilder`.
- `StringBuilder.append(null)` is modelled only where the source can append null: the
  repository provider's unassigned fields. Elsewhere values are non-null strings.
- `XacmlResponseDto.pdpObligations` is a list of strings, as the PDP fills it. `ObligationDto` is not
  modelled.
- Spring configuration and beans, properties classes, logging and the exception class hierarchy are
  left out. The exceptions appear only as constructors of `Common.Error` carrying their message.
- PolicyDtoRowMapper is the function `RowToPolicyDto`. The blob is taken as read.
- JdbcPolicyProvider.QueryConsents: its contract gives only the size bound.
  `QueryReturnsSelectedRows` states which rows are returned. Row order is table order, not a SQL
  guarantee.
- PolicySources.PoliciesFrom: it does not restate each provider's full contract. Each provider's own
  `PoliciesFor` states it, and `JdbcEmptyQueryIsPolicyNotFound` states the JDBC source's empty
  query through the dispatch.

## Findings

| source | as written | input that shows it | evidently intended | confidence | as-written member | corrected member |
|---|---|---|---|---|---|---|
| context-handler/src/main/java/gov/samhsa/c2s/contexthandler/service/ContextHandlerServiceImpl.java:46-47 | when no policy is found, the response decision "DENY" is overwritten with the exception's class name | a stub request for an unknown patient, e.g. the mock SSN under the root "INVALID_VALUE" | decision "DENY" with no obligations, as `ContextHandlerApplicationTest.java:129` asserts | not executed | ContextHandler.NoPolicyFoundIsNotDenied | ContextHandler.EnforcedAsTested |
| context-handler/src/main/java/gov/samhsa/c2s/contexthandler/service/PolicyDecisionPointServiceImpl.java:131-136 | undeploying is not in a `finally` block, so an evaluator exception leaves the request's policies deployed in the shared PDP | any request whose policies deploy and whose evaluation throws, followed by a second request | the PDP is emptied whatever evaluation does, so the next request sees only its own policies | not executed | PolicyDecisionPoint.StalePolicySetReachesNextRequest | PolicyDecisionPoint.EvaluateRequestWithCleanup |
