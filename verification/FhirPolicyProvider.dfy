// The policy source backed by a FHIR server.
//
// A patient is looked up by MRN, the patient's active consents by patient and date;
// the first consent is converted to a ConsentDto, the patient's demographic fields are
// blanked in place, and the result is turned into XACML. The provider then returns null:
// the generated XACML is not handed back to the caller.

module FhirPolicyProvider {
  import opened Common
  import opened Dto

  /** A Patient resource; only its resource id is used. */
  datatype FhirPatient = FhirPatient(resourceId: string)

  /** A Consent resource, kept as the resource id the server gave it. */
  datatype FhirConsent = FhirConsent(resourceId: string)

  /**
   * The two FHIR searches: patients by MRN, and active consents by patient resource id
   * and date. None is a null bundle; otherwise the bundle's entries.
   */
  datatype FhirSearch = FhirSearch(
    patientsByMrn: string -> Option<seq<FhirPatient>>,
    activeConsents: (string, string) -> Option<seq<FhirConsent>>)

  /** A ConsentBundleAndPatientDto: the consent search's entries and the one patient found. */
  datatype ConsentBundleAndPatient = ConsentBundleAndPatient(consents: seq<FhirConsent>, patient: FhirPatient)

  /** No entries: a null bundle or an empty one. */
  predicate NoEntries<T>(bundle: Option<seq<T>>)
  {
    bundle.None? || |bundle.value| < 1
  }

  /**
   * `tempGetFhirConsent(mrn)`, with `today` the formatted date: no patient throws
   * PatientNotFound, several throw MultiplePatientsFound, and for the single patient no
   * active consent throws ConsentNotFound.
   */
  function TempGetFhirConsent(search: FhirSearch, mrn: string, today: string): (r: Result<ConsentBundleAndPatient>)
    ensures NoEntries(search.patientsByMrn(mrn)) <==> r == Err(PatientNotFound("No patient found for the given MRN:" + mrn))
    ensures !NoEntries(search.patientsByMrn(mrn)) && |search.patientsByMrn(mrn).value| > 1
        <==> r == Err(MultiplePatientsFound("Multiple patients found for the given MRN:" + mrn))
    ensures r.Ok? ==> |search.patientsByMrn(mrn).value| == 1 && r.value.patient == search.patientsByMrn(mrn).value[0]
    ensures r.Ok? ==> (!NoEntries(search.activeConsents(r.value.patient.resourceId, today))
                       && r.value.consents == search.activeConsents(r.value.patient.resourceId, today).value)
    ensures (r.Err? && r.error.ConsentNotFound?) <==>
      (!NoEntries(search.patientsByMrn(mrn)) && |search.patientsByMrn(mrn).value| == 1
       && NoEntries(search.activeConsents(search.patientsByMrn(mrn).value[0].resourceId, today)))
    ensures r.Err? && r.error.ConsentNotFound? ==>
      r.error == ConsentNotFound("No active consent found for date:" + today + " and for the given MRN:" + mrn)
    ensures !NoEntries(search.patientsByMrn(mrn)) && |search.patientsByMrn(mrn).value| == 1 ==>
      var patient := search.patientsByMrn(mrn).value[0];
      !NoEntries(search.activeConsents(patient.resourceId, today)) ==>
        r == Ok(ConsentBundleAndPatient(search.activeConsents(patient.resourceId, today).value, patient))
  {
    var patients := search.patientsByMrn(mrn);
    if NoEntries(patients) then Err(PatientNotFound("No patient found for the given MRN:" + mrn))
    else if |patients.value| > 1 then Err(MultiplePatientsFound("Multiple patients found for the given MRN:" + mrn))
    else
      var patient := patients.value[0];
      var consents := search.activeConsents(patient.resourceId, today);
      if NoEntries(consents) then
        Err(ConsentNotFound("No active consent found for date:" + today + " and for the given MRN:" + mrn))
      else Ok(ConsentBundleAndPatient(consents.value, patient))
  }

  /** A PatientDto's fields; a field never set is None, the birth date is a clock reading. */
  datatype PatientValue = PatientValue(
    firstName: Option<string>,
    lastName: Option<string>,
    medicalRecordNumber: Option<string>,
    patientIdNumber: Option<string>,
    addressCity: Option<string>,
    addressCountryCode: Option<string>,
    addressPostalCode: Option<string>,
    addressStateCode: Option<string>,
    addressStreetAddressLine: Option<string>,
    administrativeGenderCode: Option<string>,
    birthDate: Option<int>,
    email: Option<string>,
    enterpriseIdentifier: Option<string>,
    prefix: Option<string>,
    socialSecurityNumber: Option<string>,
    telephoneTypeTelephone: Option<string>)

  /** `new PatientDto()`: every field null. */
  const EmptyPatient := PatientValue(None, None, None, None, None, None, None, None, None, None, None, None, None, None, None, None)

  /**
   * A ConsentDto's state: the patient, the legal representative (None when null), the
   * version, and the rest of the consent, which the provider never touches.
   */
  datatype ConsentValue = ConsentValue(
    patient: PatientValue,
    legalRepresentative: Option<PatientValue>,
    version: int,
    consentReferenceId: Option<string>,
    terms: seq<string>)

  /** The patient with every demographic field the provider clears set to "" and the birth date set to `now`. */
  function Blanked(p: PatientValue, now: int): PatientValue
  {
    PatientValue(p.firstName, p.lastName, p.medicalRecordNumber, Some(""), Some(""), Some(""),
                 Some(""), Some(""), Some(""), Some(""), Some(now), Some(""),
                 Some(""), Some(""), Some(""), Some(""))
  }

  /** The consent as it goes to XACML generation: empty legal representative, version 0, blanked patient. */
  function Prepared(c: ConsentValue, now: int): ConsentValue
  {
    c.(legalRepresentative := Some(EmptyPatient), version := 0, patient := Blanked(c.patient, now))
  }

  /** What the preparation keeps: the patient's name and MRN and the consent's own terms. */
  lemma PreparedKeepsIdentity(c: ConsentValue, now: int)
    ensures var d := Prepared(c, now);
      && d.patient.firstName == c.patient.firstName && d.patient.lastName == c.patient.lastName
      && d.patient.medicalRecordNumber == c.patient.medicalRecordNumber
      && d.consentReferenceId == c.consentReferenceId && d.terms == c.terms
  {
  }

  /** What the preparation removes: no identifying demographic survives, whatever the converted consent held. */
  lemma PreparedRemovesDemographics(c: ConsentValue, now: int)
    ensures var p := Prepared(c, now).patient;
      && p.patientIdNumber == p.addressCity == p.addressCountryCode == p.addressPostalCode == Some("")
      && p.addressStateCode == p.addressStreetAddressLine == p.administrativeGenderCode == Some("")
      && p.email == p.enterpriseIdentifier == p.prefix == p.socialSecurityNumber == p.telephoneTypeTelephone == Some("")
      && p.birthDate == Some(now)
    ensures Prepared(c, now).version == 0 && Prepared(c, now).legalRepresentative == Some(EmptyPatient)
  {
  }

  /** Two consents that differ only in the cleared fields become the same consent. */
  lemma PreparedForgetsClearedFields(c: ConsentValue, d: ConsentValue, now: int)
    requires c.patient.firstName == d.patient.firstName && c.patient.lastName == d.patient.lastName
    requires c.patient.medicalRecordNumber == d.patient.medicalRecordNumber
    requires c.consentReferenceId == d.consentReferenceId && c.terms == d.terms
    ensures Prepared(c, now) == Prepared(d, now)
  {
  }

  /** Preparing twice with the same clock reading changes nothing more. */
  lemma PreparedIsIdempotent(c: ConsentValue, now: int)
    ensures Prepared(Prepared(c, now), now) == Prepared(c, now)
  {
  }

  /** The PatientDto object, updated through its setters. */
  class PatientDto {
    var firstName: Option<string>
    var lastName: Option<string>
    var medicalRecordNumber: Option<string>
    var patientIdNumber: Option<string>
    var addressCity: Option<string>
    var addressCountryCode: Option<string>
    var addressPostalCode: Option<string>
    var addressStateCode: Option<string>
    var addressStreetAddressLine: Option<string>
    var administrativeGenderCode: Option<string>
    var birthDate: Option<int>
    var email: Option<string>
    var enterpriseIdentifier: Option<string>
    var prefix: Option<string>
    var socialSecurityNumber: Option<string>
    var telephoneTypeTelephone: Option<string>

    constructor (p: PatientValue)
      ensures Value() == p
    {
      firstName, lastName, medicalRecordNumber := p.firstName, p.lastName, p.medicalRecordNumber;
      patientIdNumber, addressCity, addressCountryCode := p.patientIdNumber, p.addressCity, p.addressCountryCode;
      addressPostalCode, addressStateCode := p.addressPostalCode, p.addressStateCode;
      addressStreetAddressLine, administrativeGenderCode := p.addressStreetAddressLine, p.administrativeGenderCode;
      birthDate, email, enterpriseIdentifier := p.birthDate, p.email, p.enterpriseIdentifier;
      prefix, socialSecurityNumber, telephoneTypeTelephone := p.prefix, p.socialSecurityNumber, p.telephoneTypeTelephone;
    }

    function Value(): PatientValue
      reads this
    {
      PatientValue(firstName, lastName, medicalRecordNumber, patientIdNumber, addressCity, addressCountryCode,
                   addressPostalCode, addressStateCode, addressStreetAddressLine, administrativeGenderCode,
                   birthDate, email, enterpriseIdentifier, prefix, socialSecurityNumber, telephoneTypeTelephone)
    }

    /** The setter calls that clear the identifiers and the address. */
    method BlankAddress()
      modifies this
      ensures firstName == old(firstName) && lastName == old(lastName) && medicalRecordNumber == old(medicalRecordNumber)
      ensures patientIdNumber == addressCity == addressCountryCode == addressPostalCode == Some("")
      ensures addressStateCode == addressStreetAddressLine == Some("")
      ensures administrativeGenderCode == old(administrativeGenderCode) && birthDate == old(birthDate)
      ensures email == old(email) && enterpriseIdentifier == old(enterpriseIdentifier) && prefix == old(prefix)
      ensures socialSecurityNumber == old(socialSecurityNumber) && telephoneTypeTelephone == old(telephoneTypeTelephone)
    {
      patientIdNumber := Some("");
      addressCity := Some("");
      addressCountryCode := Some("");
      addressPostalCode := Some("");
      addressStateCode := Some("");
      addressStreetAddressLine := Some("");
    }

    /** The setter calls that clear the remaining demographics and stamp the birth date. */
    method BlankDemographics(now: int)
      modifies this
      ensures firstName == old(firstName) && lastName == old(lastName) && medicalRecordNumber == old(medicalRecordNumber)
      ensures patientIdNumber == old(patientIdNumber) && addressCity == old(addressCity)
      ensures addressCountryCode == old(addressCountryCode) && addressPostalCode == old(addressPostalCode)
      ensures addressStateCode == old(addressStateCode) && addressStreetAddressLine == old(addressStreetAddressLine)
      ensures administrativeGenderCode == email == enterpriseIdentifier == prefix == Some("")
      ensures socialSecurityNumber == telephoneTypeTelephone == Some("")
      ensures birthDate == Some(now)
    {
      administrativeGenderCode := Some("");
      birthDate := Some(now);
      email := Some("");
      enterpriseIdentifier := Some("");
      prefix := Some("");
      socialSecurityNumber := Some("");
      telephoneTypeTelephone := Some("");
    }

    /** The thirteen setter calls of the provider, in place. */
    method Blank(now: int)
      modifies this
      ensures Value() == Blanked(old(Value()), now)
    {
      BlankAddress();
      BlankDemographics(now);
    }
  }

  /** The ConsentDto object: its patient and legal representative are PatientDto objects of their own. */
  class ConsentDto {
    var patientDto: PatientDto
    var legalRepresentative: PatientDto?
    var version: int
    var consentReferenceId: Option<string>
    var terms: seq<string>

    constructor (c: ConsentValue)
      ensures Value() == c
      ensures fresh(patientDto) && (legalRepresentative == null || fresh(legalRepresentative))
      ensures legalRepresentative != patientDto
    {
      patientDto := new PatientDto(c.patient);
      if c.legalRepresentative.Some? {
        legalRepresentative := new PatientDto(c.legalRepresentative.value);
      } else {
        legalRepresentative := null;
      }
      version := c.version;
      consentReferenceId := c.consentReferenceId;
      terms := c.terms;
    }

    function Value(): ConsentValue
      reads this, patientDto, legalRepresentative
    {
      ConsentValue(patientDto.Value(),
                   if legalRepresentative == null then None else Some(legalRepresentative.Value()),
                   version, consentReferenceId, terms)
    }
  }

  /**
   * The in-place preparation in `getPolicies`: a new empty legal representative,
   * version 0, and the patient's demographics blanked through its setters.
   */
  method PrepareConsent(consent: ConsentDto, now: int)
    modifies consent, consent.patientDto
    ensures consent.Value() == Prepared(old(consent.Value()), now)
    ensures consent.patientDto == old(consent.patientDto)
  {
    var representative := new PatientDto(EmptyPatient);
    consent.legalRepresentative := representative;
    consent.version := 0;
    var patient := consent.patientDto;
    patient.Blank(now);
    consent.patientDto := patient;
  }

  /** The consent-builder library: FHIR to ConsentDto, and ConsentDto to XACML; either may throw ConsentGenException. */
  datatype ConsentBuilder = ConsentBuilder(
    fhirToConsent: (FhirConsent, FhirPatient) -> Attempt<ConsentValue>,
    consentToXacml: ConsentValue -> Attempt<string>)

  const UnableToProcess := "Unable to process FHIR consent"

  /**
   * `getPolicies(request)`: the lookup's error, or a PolicyProviderException when either
   * conversion fails, or else null (None). Only the first consent of the bundle is converted.
   */
  function PoliciesFor(request: XacmlRequest, search: FhirSearch, today: string, now: int,
                       builder: ConsentBuilder): (r: Result<Option<seq<Evaluatable>>>)
    ensures r.Ok? ==> r.value.None?
    ensures TempGetFhirConsent(search, request.patientIdentifier.value, today).Err? ==>
      r == Err(TempGetFhirConsent(search, request.patientIdentifier.value, today).error)
    ensures var found := TempGetFhirConsent(search, request.patientIdentifier.value, today);
      found.Ok? && builder.fhirToConsent(found.value.consents[0], found.value.patient).Threw? ==>
        r == Err(PolicyProviderError(UnableToProcess))
    ensures var found := TempGetFhirConsent(search, request.patientIdentifier.value, today);
      r.Ok? <==>
        (&& found.Ok?
         && builder.fhirToConsent(found.value.consents[0], found.value.patient).Done?
         && builder.consentToXacml(Prepared(builder.fhirToConsent(found.value.consents[0], found.value.patient).value, now)).Done?)
  {
    var found :- TempGetFhirConsent(search, request.patientIdentifier.value, today);
    match builder.fhirToConsent(found.consents[0], found.patient)
    case Threw(_) => Err(PolicyProviderError(UnableToProcess))
    case Done(consent) =>
      match builder.consentToXacml(Prepared(consent, now))
      case Threw(_) => Err(PolicyProviderError(UnableToProcess))
      case Done(_) => Ok(None)
  }

  /** Consents after the first never affect the outcome. */
  lemma OnlyFirstConsentMatters(request: XacmlRequest, search: FhirSearch, other: FhirSearch, today: string, now: int,
                                builder: ConsentBuilder)
    requires var mrn := request.patientIdentifier.value;
      && search.patientsByMrn(mrn) == other.patientsByMrn(mrn)
      && var found := TempGetFhirConsent(search, mrn, today);
      && found.Ok?
      && var alt := other.activeConsents(found.value.patient.resourceId, today);
      && alt.Some? && |alt.value| > 0 && alt.value[0] == found.value.consents[0]
    ensures PoliciesFor(request, search, today, now, builder) == PoliciesFor(request, other, today, now, builder)
  {
  }

  /**
   * The provider method: the consent is converted, prepared in place, and turned into
   * XACML; `prepared` is the ConsentDto the XACML was generated from.
   */
  method GetPolicies(request: XacmlRequest, search: FhirSearch, today: string, now: int, builder: ConsentBuilder)
    returns (r: Result<Option<seq<Evaluatable>>>, prepared: ConsentDto?)
    ensures r == PoliciesFor(request, search, today, now, builder)
    ensures var found := TempGetFhirConsent(search, request.patientIdentifier.value, today);
      r.Ok? ==> (prepared != null
                 && prepared.Value() == Prepared(builder.fhirToConsent(found.value.consents[0], found.value.patient).value, now))
  {
    prepared := null;
    var found := TempGetFhirConsent(search, request.patientIdentifier.value, today);
    if found.Err? {
      return Err(found.error), prepared;
    }
    var fhirConsent := found.value.consents[0];
    var converted := builder.fhirToConsent(fhirConsent, found.value.patient);
    if converted.Threw? {
      return Err(PolicyProviderError(UnableToProcess)), prepared;
    }
    var consentDto := new ConsentDto(converted.value);
    PrepareConsent(consentDto, now);
    var xacml := builder.consentToXacml(consentDto.Value());
    if xacml.Threw? {
      return Err(PolicyProviderError(UnableToProcess)), consentDto;
    }
    return Ok(None), consentDto;
  }
}
