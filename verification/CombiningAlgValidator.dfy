// Validation of a requested policy-combining algorithm against the configured table,
// whose keys are short aliases and whose values are the algorithm URNs.

module CombiningAlgValidator {
  import opened Common

  const BlankMessage := "policyCombiningAlgId must have a valid text!"

  function InvalidMessage(id: string): string
  {
    "The policyCombiningAlgId: " + id + " is not a valid value!"
  }

  /**
   * `validateAndReturn`: a blank id throws PolicyCombiningAlgIdNotFoundException; an alias
   * is resolved to its URN; a configured URN is returned unchanged; anything else throws
   * InvalidPolicyCombiningAlgIdException. The table itself is only read.
   */
  function ValidateAndReturn(combiningAlgs: map<string, string>, id: Option<string>): (r: Result<string>)
    ensures r.Ok? <==> HasText(id) && (id.value in combiningAlgs.Keys || id.value in combiningAlgs.Values)
    ensures r.Ok? ==> r.value in combiningAlgs.Values
    ensures r.Ok? && id.value in combiningAlgs ==> r.value == combiningAlgs[id.value]
    ensures r.Ok? && id.value !in combiningAlgs ==> r.value == id.value
    ensures !HasText(id) ==> r == Err(PolicyCombiningAlgIdNotFound(BlankMessage))
    ensures HasText(id) && r.Err? ==> r.error == InvalidPolicyCombiningAlgId(InvalidMessage(id.value))
  {
    if !HasText(id) then Err(PolicyCombiningAlgIdNotFound(BlankMessage))
    else if id.value in combiningAlgs then Ok(combiningAlgs[id.value])
    else if !(exists k :: k in combiningAlgs && combiningAlgs[k] == id.value) then
      Err(InvalidPolicyCombiningAlgId(InvalidMessage(id.value)))
    else Ok(id.value)
  }

  /** When an alias is also configured as a URN of another entry, the alias reading wins. */
  lemma AliasWinsOverValue(combiningAlgs: map<string, string>, id: string)
    requires id in combiningAlgs && id in combiningAlgs.Values && combiningAlgs[id] != id
    requires ContainsText(id)
    ensures ValidateAndReturn(combiningAlgs, Some(id)) == Ok(combiningAlgs[id])
    ensures ValidateAndReturn(combiningAlgs, Some(id)) != Ok(id)
  {
  }

  /**
   * Validating a validated id again returns it unchanged, unless the URN it resolved to is
   * itself blank or is also an alias: those are the only ways a second pass can differ.
   */
  lemma ValidateIsIdempotent(combiningAlgs: map<string, string>, id: Option<string>)
    requires ValidateAndReturn(combiningAlgs, id).Ok?
    ensures var v := ValidateAndReturn(combiningAlgs, id).value;
      ContainsText(v) && v !in combiningAlgs ==> ValidateAndReturn(combiningAlgs, Some(v)) == Ok(v)
  {
  }

  /** A table where an alias maps to a blank URN: the first pass succeeds and the second throws. */
  lemma BlankUrnBreaksIdempotence()
    ensures ValidateAndReturn(map["deny" := ""], Some("deny")) == Ok("")
    ensures ValidateAndReturn(map["deny" := ""], Some("")) == Err(PolicyCombiningAlgIdNotFound(BlankMessage))
  {
    assert !IsWhitespace("deny"[0]);
  }
}
