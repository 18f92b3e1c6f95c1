// The purposes of use a request may carry, with their wire abbreviations.

module PurposeOfUse {
  import opened Common

  datatype SubjectPurposeOfUse = HealthcareTreatment | Payment | Research

  /** `values()`, in declaration order. */
  const AllPurposes: seq<SubjectPurposeOfUse> := [HealthcareTreatment, Payment, Research]

  /** `getPurpose()`: the abbreviation each constant was declared with. */
  function Purpose(p: SubjectPurposeOfUse): string
  {
    match p
    case HealthcareTreatment => "TREATMENT"
    case Payment => "PAYMENT"
    case Research => "RESEARCH"
  }

  /** `name()`: the constant's own name, which `valueOf` matches against. */
  function Name(p: SubjectPurposeOfUse): string
  {
    match p
    case HealthcareTreatment => "HEALTHCARE_TREATMENT"
    case Payment => "PAYMENT"
    case Research => "RESEARCH"
  }

  /** `fromValue`, which is `valueOf`: it matches constant names, not abbreviations. */
  function FromValue(v: string): (r: Result<SubjectPurposeOfUse>)
    ensures r.Ok? ==> Name(r.value) == v
    ensures r.Err? ==> forall p :: Name(p) != v
    ensures r.Err? ==> r.error == IllegalArgument("No enum constant gov.samhsa.c2s.contexthandler.service.dto.SubjectPurposeOfUse." + v)
  {
    if v == "HEALTHCARE_TREATMENT" then Ok(HealthcareTreatment)
    else if v == "PAYMENT" then Ok(Payment)
    else if v == "RESEARCH" then Ok(Research)
    else Err(IllegalArgument("No enum constant gov.samhsa.c2s.contexthandler.service.dto.SubjectPurposeOfUse." + v))
  }

  /** The loop of `fromPurpose` over `candidates`: the first constant whose abbreviation equals `s`. */
  function FindPurpose(candidates: seq<SubjectPurposeOfUse>, s: string): (r: Option<nat>)
    ensures r.Some? ==> r.value < |candidates| && Purpose(candidates[r.value]) == s
    ensures r.Some? ==> forall k :: 0 <= k < r.value ==> Purpose(candidates[k]) != s
    ensures r.None? ==> forall k :: 0 <= k < |candidates| ==> Purpose(candidates[k]) != s
  {
    if candidates == [] then None
    else if Purpose(candidates[0]) == s then Some(0)
    else match FindPurpose(candidates[1..], s)
      case None => None
      case Some(k) => Some(k + 1)
  }

  /** `fromPurpose`: the constant with the given abbreviation, or IllegalArgumentException. */
  function FromPurpose(s: string): (r: Result<SubjectPurposeOfUse>)
    ensures r.Ok? <==> exists p :: Purpose(p) == s
    ensures r.Ok? ==> Purpose(r.value) == s
    ensures r.Err? ==> r.error == IllegalArgument("The abbreviation '" + s + "' is not defined in this enum.")
  {
    match FindPurpose(AllPurposes, s)
    case Some(k) => Ok(AllPurposes[k])
    case None =>
      assert Purpose(AllPurposes[0]) != s && Purpose(AllPurposes[1]) != s && Purpose(AllPurposes[2]) != s;
      Err(IllegalArgument("The abbreviation '" + s + "' is not defined in this enum."))
  }

  /** Abbreviations are distinct, so `fromPurpose` inverts `getPurpose`. */
  lemma PurposeRoundTrip(p: SubjectPurposeOfUse)
    ensures FromPurpose(Purpose(p)) == Ok(p)
  {
  }

  /** The two lookups disagree on the treatment constant: "TREATMENT" is an abbreviation, not a name. */
  lemma TreatmentLookupsDiffer()
    ensures FromPurpose("TREATMENT") == Ok(HealthcareTreatment)
    ensures FromValue("TREATMENT").Err?
    ensures FromValue("HEALTHCARE_TREATMENT") == Ok(HealthcareTreatment)
    ensures FromPurpose("HEALTHCARE_TREATMENT").Err?
  {
    PurposeRoundTrip(HealthcareTreatment);
    assert "TREATMENT"[0] != "HEALTHCARE_TREATMENT"[0];
    assert "TREATMENT"[0] != "PAYMENT"[0] && "TREATMENT"[0] != "RESEARCH"[0];
    assert "HEALTHCARE_TREATMENT"[0] != "TREATMENT"[0];
    assert "HEALTHCARE_TREATMENT"[0] != "PAYMENT"[0] && "HEALTHCARE_TREATMENT"[0] != "RESEARCH"[0];
  }
}
