// The XACML 2.0 request the generator writes by string concatenation, and the
// failure results of its two library-backed entry points.
//
// The four-argument serialiser appends fixed markup and the caller's values to one
// builder; the values go in as they are, with no XML escaping. The clock reading it
// formats is a parameter here.

module RequestGenerator {
  import opened Common
  import opened Dto

  const ValueOpen := "<AttributeValue>"
  const ValueClose := "</AttributeValue>"
  const RequestOpen := "<Request xmlns=\"urn:oasis:names:tc:xacml:2.0:context:schema:os\""
  const RequestClose := "</Request>"
  const SubjectOpen := "<Subject>"
  const ResourceOpen := "<Resource>"
  const ActionOpen := "<Action>"
  const EnvironmentOpen := "<Environment>"
  /** The one action every generated request asks about. */
  const ActionValue := "write"

  const Namespaces := "     xmlns:xsi=\"http://www.w3.org/2001/XMLSchema-instance\">     "
  const RecipientAttribute :=
    "      <Attribute AttributeId=\"urn:oasis:names:tc:xacml:1.0:subject-category:recipient-subject\"       "
    + "DataType=\"http://www.w3.org/2001/XMLSchema#string\">       "
  /** Closes the recipient attribute and opens the intermediary one. */
  const IntermediaryAttribute :=
    "      </Attribute>      <Attribute AttributeId=\"urn:oasis:names:tc:xacml:1.0:subject-category:intermediary-subject\"       "
    + "DataType=\"http://www.w3.org/2001/XMLSchema#string\">       "
  /** Closes the intermediary attribute and opens the purpose-of-use one. */
  const PurposeAttribute :=
    "      </Attribute>\t  <Attribute AttributeId=\"gov.samhsa.consent2share.purpose-of-use-code\"       "
    + "DataType=\"http://www.w3.org/2001/XMLSchema#string\">       "
  const SubjectClose := "      </Attribute>     </Subject>     "
  const ResourceAttribute :=
    "      <Attribute AttributeId=\"urn:oasis:names:tc:xacml:1.0:resource:resource-id\"       "
    + "DataType=\"http://www.w3.org/2001/XMLSchema#string\">       "
  const ResourceClose := "      </Attribute>     </Resource>     "
  const ActionAttribute :=
    "      <Attribute AttributeId=\"urn:oasis:names:tc:xacml:1.0:action:action-id\"       "
    + "DataType=\"http://www.w3.org/2001/XMLSchema#string\">       "
  const ActionClose := "      </Attribute>     </Action>     "
  const EnvironmentAttribute :=
    "\t\t<Attribute AttributeId=\"urn:oasis:names:tc:xacml:1.0:environment:current-dateTime\"       "
    + "DataType=\"http://www.w3.org/2001/XMLSchema#dateTime\">       "
  const EnvironmentClose := "      </Attribute>\t </Environment>    "

  /** Everything up to the recipient value: the namespaces, `<Subject>` and the recipient attribute. */
  const RequestHead := RequestOpen + (Namespaces + (SubjectOpen + (RecipientAttribute + ValueOpen)))
  /** Between the recipient and the intermediary value. */
  const AfterRecipient := ValueClose + (IntermediaryAttribute + ValueOpen)
  /** Between the intermediary and the purpose of use. */
  const AfterIntermediary := ValueClose + (PurposeAttribute + ValueOpen)
  /** Between the purpose of use and the patient id: `</Subject>`, `<Resource>` and the resource-id attribute. */
  const AfterPurpose := ValueClose + (SubjectClose + (ResourceOpen + (ResourceAttribute + ValueOpen)))
  /** Between the patient id and the date: `</Resource>`, the whole `<Action>` and the start of `<Environment>`. */
  const AfterPatient := ValueClose + (ResourceClose + (ActionOpen + (ActionAttribute + (ValueOpen + (ActionValue
    + (ValueClose + (ActionClose + (EnvironmentOpen + (EnvironmentAttribute + ValueOpen)))))))))
  /** After the date: the closing tags. */
  const RequestTail := ValueClose + (EnvironmentClose + RequestClose)

  /** The fixed markup around the five values, in the order the builder appends it. */
  datatype Markup = Markup(head: string, afterRecipient: string, afterIntermediary: string,
                           afterPurpose: string, afterPatient: string, tail: string)

  const RequestMarkup := Markup(RequestHead, AfterRecipient, AfterIntermediary, AfterPurpose, AfterPatient, RequestTail)

  /** The five values a request carries: the date is the formatted clock reading. */
  datatype RequestValues = RequestValues(recipient: string, intermediary: string, purpose: string,
                                         patientId: string, date: string)

  /** The builder's appends: markup and values interleaved, head first and tail last. */
  function Assemble(m: Markup, v: RequestValues): string
  {
    m.head + (v.recipient + (m.afterRecipient + (v.intermediary + (m.afterIntermediary + (v.purpose
      + (m.afterPurpose + (v.patientId + (m.afterPatient + (v.date + m.tail)))))))))
  }

  /** `generateRequestString(recipient, intermediary, purpose, patientId)`, with `date` the formatted clock reading. */
  function GenerateRequestString(recipient: string, intermediary: string, purpose: string,
                                 patientId: string, date: string): string
  {
    Assemble(RequestMarkup, RequestValues(recipient, intermediary, purpose, patientId, date))
  }

  /** `t` occurs in `s` starting at index `k`. */
  predicate Occurs(t: string, s: string, k: int)
  {
    0 <= k && k + |t| <= |s| && s[k..k + |t|] == t
  }

  /** Where each value starts in an assembled request. */
  function RecipientAt(m: Markup): int { |m.head| }
  function IntermediaryAt(m: Markup, v: RequestValues): int { RecipientAt(m) + |v.recipient| + |m.afterRecipient| }
  function PurposeAt(m: Markup, v: RequestValues): int { IntermediaryAt(m, v) + |v.intermediary| + |m.afterIntermediary| }
  function PatientAt(m: Markup, v: RequestValues): int { PurposeAt(m, v) + |v.purpose| + |m.afterPurpose| }
  function DateAt(m: Markup, v: RequestValues): int { PatientAt(m, v) + |v.patientId| + |m.afterPatient| }

  /**
   * Walking through a string: at `j` a piece of markup, then a value starting at `at`,
   * then the rest starting at `next`.
   */
  lemma Walk(r: string, j: int, piece: string, value: string, rest: string, at: int, next: int)
    requires 0 <= j <= |r| && r[j..] == piece + (value + rest)
    requires at == j + |piece| && next == at + |value|
    ensures Occurs(piece, r, j) && Occurs(value, r, at)
    ensures next <= |r| && r[next..] == rest
  {
    assert r[j..j + |piece|] == r[j..][..|piece|];
    assert r[at..next] == r[j..][|piece|..|piece| + |value|];
    assert r[next..] == r[j..][|piece| + |value|..];
  }

  /** The last piece of a string, from `j` to the end. */
  lemma WalkEnd(r: string, j: int, piece: string)
    requires 0 <= j <= |r| && r[j..] == piece
    ensures Occurs(piece, r, j) && |r| == j + |piece|
  {
    assert r[j..j + |piece|] == r[j..];
  }

  /** An occurrence inside a part of `s` is an occurrence in `s`, shifted by where that part starts. */
  lemma OccursWithin(t: string, part: string, s: string, j: int, k: int, at: int)
    requires Occurs(part, s, j) && Occurs(t, part, k) && at == j + k
    ensures Occurs(t, s, at)
  {
    forall i | 0 <= i < |t|
      ensures s[at + i] == t[i]
    {
      assert t[i] == part[k + i] == s[j..j + |part|][k + i];
    }
    assert s[at..at + |t|] == t;
  }

  /** What follows each value in an assembled request. */
  function AfterRecipientValue(m: Markup, v: RequestValues): string
  {
    m.afterRecipient + (v.intermediary + AfterIntermediaryValue(m, v))
  }
  function AfterIntermediaryValue(m: Markup, v: RequestValues): string
  {
    m.afterIntermediary + (v.purpose + AfterPurposeValue(m, v))
  }
  function AfterPurposeValue(m: Markup, v: RequestValues): string
  {
    m.afterPurpose + (v.patientId + AfterPatientValue(m, v))
  }
  function AfterPatientValue(m: Markup, v: RequestValues): string
  {
    m.afterPatient + (v.date + m.tail)
  }

  lemma LayoutRecipient(m: Markup, v: RequestValues)
    ensures var r := Assemble(m, v);
      && Occurs(m.head, r, 0) && Occurs(v.recipient, r, RecipientAt(m))
      && RecipientAt(m) + |v.recipient| <= |r| && r[RecipientAt(m) + |v.recipient|..] == AfterRecipientValue(m, v)
  {
    var r := Assemble(m, v);
    assert r[0..] == r;
    Walk(r, 0, m.head, v.recipient, AfterRecipientValue(m, v), RecipientAt(m), RecipientAt(m) + |v.recipient|);
  }

  lemma LayoutIntermediary(m: Markup, v: RequestValues)
    ensures var r := Assemble(m, v);
      && Occurs(m.afterRecipient, r, RecipientAt(m) + |v.recipient|) && Occurs(v.intermediary, r, IntermediaryAt(m, v))
      && IntermediaryAt(m, v) + |v.intermediary| <= |r|
      && r[IntermediaryAt(m, v) + |v.intermediary|..] == AfterIntermediaryValue(m, v)
  {
    LayoutRecipient(m, v);
    Walk(Assemble(m, v), RecipientAt(m) + |v.recipient|, m.afterRecipient, v.intermediary, AfterIntermediaryValue(m, v),
         IntermediaryAt(m, v), IntermediaryAt(m, v) + |v.intermediary|);
  }

  lemma LayoutPurpose(m: Markup, v: RequestValues)
    ensures var r := Assemble(m, v);
      && Occurs(m.afterIntermediary, r, IntermediaryAt(m, v) + |v.intermediary|) && Occurs(v.purpose, r, PurposeAt(m, v))
      && PurposeAt(m, v) + |v.purpose| <= |r| && r[PurposeAt(m, v) + |v.purpose|..] == AfterPurposeValue(m, v)
  {
    LayoutIntermediary(m, v);
    Walk(Assemble(m, v), IntermediaryAt(m, v) + |v.intermediary|, m.afterIntermediary, v.purpose, AfterPurposeValue(m, v),
         PurposeAt(m, v), PurposeAt(m, v) + |v.purpose|);
  }

  lemma LayoutPatient(m: Markup, v: RequestValues)
    ensures var r := Assemble(m, v);
      && Occurs(m.afterPurpose, r, PurposeAt(m, v) + |v.purpose|) && Occurs(v.patientId, r, PatientAt(m, v))
      && PatientAt(m, v) + |v.patientId| <= |r| && r[PatientAt(m, v) + |v.patientId|..] == AfterPatientValue(m, v)
  {
    LayoutPurpose(m, v);
    Walk(Assemble(m, v), PurposeAt(m, v) + |v.purpose|, m.afterPurpose, v.patientId, AfterPatientValue(m, v),
         PatientAt(m, v), PatientAt(m, v) + |v.patientId|);
  }

  lemma LayoutDate(m: Markup, v: RequestValues)
    ensures var r := Assemble(m, v);
      && Occurs(m.afterPatient, r, PatientAt(m, v) + |v.patientId|) && Occurs(v.date, r, DateAt(m, v))
      && Occurs(m.tail, r, DateAt(m, v) + |v.date|) && |r| == DateAt(m, v) + |v.date| + |m.tail|
  {
    var r := Assemble(m, v);
    LayoutPatient(m, v);
    Walk(r, PatientAt(m, v) + |v.patientId|, m.afterPatient, v.date, m.tail, DateAt(m, v), DateAt(m, v) + |v.date|);
    WalkEnd(r, DateAt(m, v) + |v.date|, m.tail);
  }

  /** Where every piece of markup and every value lies in an assembled request. */
  lemma Layout(m: Markup, v: RequestValues)
    ensures var r := Assemble(m, v);
      && |r| == DateAt(m, v) + |v.date| + |m.tail|
      && Occurs(m.head, r, 0)
      && Occurs(v.recipient, r, RecipientAt(m))
      && Occurs(m.afterRecipient, r, RecipientAt(m) + |v.recipient|)
      && Occurs(v.intermediary, r, IntermediaryAt(m, v))
      && Occurs(m.afterIntermediary, r, IntermediaryAt(m, v) + |v.intermediary|)
      && Occurs(v.purpose, r, PurposeAt(m, v))
      && Occurs(m.afterPurpose, r, PurposeAt(m, v) + |v.purpose|)
      && Occurs(v.patientId, r, PatientAt(m, v))
      && Occurs(m.afterPatient, r, PatientAt(m, v) + |v.patientId|)
      && Occurs(v.date, r, DateAt(m, v))
      && Occurs(m.tail, r, DateAt(m, v) + |v.date|)
  {
    LayoutRecipient(m, v);
    LayoutIntermediary(m, v);
    LayoutPurpose(m, v);
    LayoutPatient(m, v);
    LayoutDate(m, v);
  }

  lemma MarkerLengths()
    ensures |ValueOpen| == 16 && |ValueClose| == 17 && |RequestOpen| == 63 && |RequestClose| == 10
    ensures |SubjectOpen| == 9 && |ResourceOpen| == 10 && |ActionOpen| == 8 && |EnvironmentOpen| == 13 && |ActionValue| == 5
  {
  }

  lemma SubjectLengths()
    ensures |Namespaces| == 64 && |RecipientAttribute| == 159 && |IntermediaryAttribute| == 180
    ensures |PurposeAttribute| == 155 && |SubjectClose| == 38
  {
  }

  lemma ResourceLengths()
    ensures |ResourceAttribute| == 145 && |ResourceClose| == 39 && |ActionAttribute| == 141
    ensures |ActionClose| == 37 && |EnvironmentAttribute| == 151 && |EnvironmentClose| == 38
  {
  }

  lemma HeadFacts()
    ensures |RequestHead| == 311
    ensures Occurs(RequestOpen, RequestHead, 0)
    ensures Occurs(SubjectOpen, RequestHead, 127)
    ensures Occurs(ValueOpen, RequestHead, 295)
  {
    var r := RequestHead;
    MarkerLengths();
    SubjectLengths();
    assert r[0..] == r;
    Walk(r, 0, RequestOpen, Namespaces, SubjectOpen + (RecipientAttribute + ValueOpen), 63, 127);
    Walk(r, 127, SubjectOpen, RecipientAttribute, ValueOpen, 136, 295);
    WalkEnd(r, 295, ValueOpen);
  }

  lemma AfterRecipientFacts()
    ensures |AfterRecipient| == 213 && Occurs(ValueClose, AfterRecipient, 0) && Occurs(ValueOpen, AfterRecipient, 197)
  {
    var r := AfterRecipient;
    MarkerLengths();
    SubjectLengths();
    assert r[0..] == r;
    Walk(r, 0, ValueClose, IntermediaryAttribute, ValueOpen, 17, 197);
    WalkEnd(r, 197, ValueOpen);
  }

  lemma AfterIntermediaryFacts()
    ensures |AfterIntermediary| == 188 && Occurs(ValueClose, AfterIntermediary, 0) && Occurs(ValueOpen, AfterIntermediary, 172)
  {
    var r := AfterIntermediary;
    MarkerLengths();
    SubjectLengths();
    assert r[0..] == r;
    Walk(r, 0, ValueClose, PurposeAttribute, ValueOpen, 17, 172);
    WalkEnd(r, 172, ValueOpen);
  }

  lemma AfterPurposeFacts()
    ensures |AfterPurpose| == 226 && Occurs(ValueClose, AfterPurpose, 0) && Occurs(ValueOpen, AfterPurpose, 210)
    ensures Occurs(ResourceOpen, AfterPurpose, 55)
  {
    var r := AfterPurpose;
    MarkerLengths();
    SubjectLengths();
    ResourceLengths();
    assert r[0..] == r;
    Walk(r, 0, ValueClose, SubjectClose, ResourceOpen + (ResourceAttribute + ValueOpen), 17, 55);
    Walk(r, 55, ResourceOpen, ResourceAttribute, ValueOpen, 65, 210);
    WalkEnd(r, 210, ValueOpen);
  }

  lemma AfterPatientFacts()
    ensures |AfterPatient| == 460 && Occurs(ValueClose, AfterPatient, 0) && Occurs(ValueOpen, AfterPatient, 444)
    ensures Occurs(ActionOpen, AfterPatient, 56)
    ensures Occurs(ValueOpen, AfterPatient, 205) && Occurs(ActionValue, AfterPatient, 221) && Occurs(ValueClose, AfterPatient, 226)
    ensures Occurs(EnvironmentOpen, AfterPatient, 280)
  {
    var r := AfterPatient;
    MarkerLengths();
    ResourceLengths();
    var environment := EnvironmentOpen + (EnvironmentAttribute + ValueOpen);
    var action := ValueOpen + (ActionValue + (ValueClose + (ActionClose + environment)));
    assert r[0..] == r;
    Walk(r, 0, ValueClose, ResourceClose, ActionOpen + (ActionAttribute + action), 17, 56);
    Walk(r, 56, ActionOpen, ActionAttribute, action, 64, 205);
    Walk(r, 205, ValueOpen, ActionValue, ValueClose + (ActionClose + environment), 221, 226);
    Walk(r, 226, ValueClose, ActionClose, environment, 243, 280);
    Walk(r, 280, EnvironmentOpen, EnvironmentAttribute, ValueOpen, 293, 444);
    WalkEnd(r, 444, ValueOpen);
  }

  lemma TailFacts()
    ensures |RequestTail| == 65 && Occurs(ValueClose, RequestTail, 0) && Occurs(RequestClose, RequestTail, 55)
  {
    var r := RequestTail;
    MarkerLengths();
    ResourceLengths();
    assert r[0..] == r;
    Walk(r, 0, ValueClose, EnvironmentClose, RequestClose, 17, 55);
    WalkEnd(r, 55, RequestClose);
  }

  /** The facts about the request's markup the layout lemmas rely on. */
  predicate RequestShaped(m: Markup)
  {
    && |m.head| == 311 && Occurs(RequestOpen, m.head, 0) && Occurs(SubjectOpen, m.head, 127) && Occurs(ValueOpen, m.head, 295)
    && |m.afterRecipient| == 213 && Occurs(ValueClose, m.afterRecipient, 0) && Occurs(ValueOpen, m.afterRecipient, 197)
    && |m.afterIntermediary| == 188 && Occurs(ValueClose, m.afterIntermediary, 0) && Occurs(ValueOpen, m.afterIntermediary, 172)
    && |m.afterPurpose| == 226 && Occurs(ValueClose, m.afterPurpose, 0) && Occurs(ValueOpen, m.afterPurpose, 210)
    && Occurs(ResourceOpen, m.afterPurpose, 55)
    && |m.afterPatient| == 460 && Occurs(ValueClose, m.afterPatient, 0) && Occurs(ValueOpen, m.afterPatient, 444)
    && Occurs(ActionOpen, m.afterPatient, 56) && Occurs(EnvironmentOpen, m.afterPatient, 280)
    && Occurs(ValueOpen, m.afterPatient, 205) && Occurs(ActionValue, m.afterPatient, 221) && Occurs(ValueClose, m.afterPatient, 226)
    && |m.tail| == 65 && Occurs(ValueClose, m.tail, 0) && Occurs(RequestClose, m.tail, 55)
  }

  lemma RequestMarkupShaped()
    ensures RequestShaped(RequestMarkup)
  {
    HeadFacts();
    AfterRecipientFacts();
    AfterIntermediaryFacts();
    AfterPurposeFacts();
    AfterPatientFacts();
    TailFacts();
  }

  /**
   * The five values lie verbatim in `r`, in the order recipient, intermediary, purpose,
   * patient id, date, at the offsets the markup `m` leaves for them.
   */
  predicate ValuesInPlace(r: string, m: Markup, v: RequestValues)
  {
    && Occurs(v.recipient, r, RecipientAt(m))
    && Occurs(v.intermediary, r, IntermediaryAt(m, v))
    && Occurs(v.purpose, r, PurposeAt(m, v))
    && Occurs(v.patientId, r, PatientAt(m, v))
    && Occurs(v.date, r, DateAt(m, v))
    && RecipientAt(m) + |v.recipient| < IntermediaryAt(m, v)
    && IntermediaryAt(m, v) + |v.intermediary| < PurposeAt(m, v)
    && PurposeAt(m, v) + |v.purpose| < PatientAt(m, v)
    && PatientAt(m, v) + |v.patientId| < DateAt(m, v)
  }

  /** Each value in `r` sits directly after `<AttributeValue>` and directly before `</AttributeValue>`. */
  predicate ValuesFramed(r: string, m: Markup, v: RequestValues)
  {
    && Occurs(ValueOpen, r, RecipientAt(m) - 16) && Occurs(ValueClose, r, RecipientAt(m) + |v.recipient|)
    && Occurs(ValueOpen, r, IntermediaryAt(m, v) - 16) && Occurs(ValueClose, r, IntermediaryAt(m, v) + |v.intermediary|)
    && Occurs(ValueOpen, r, PurposeAt(m, v) - 16) && Occurs(ValueClose, r, PurposeAt(m, v) + |v.purpose|)
    && Occurs(ValueOpen, r, PatientAt(m, v) - 16) && Occurs(ValueClose, r, PatientAt(m, v) + |v.patientId|)
    && Occurs(ValueOpen, r, DateAt(m, v) - 16) && Occurs(ValueClose, r, DateAt(m, v) + |v.date|)
  }

  lemma ValuesPlacedOf(m: Markup, v: RequestValues)
    requires RequestShaped(m)
    ensures ValuesInPlace(Assemble(m, v), m, v)
  {
    Layout(m, v);
  }

  lemma SubjectValuesFramed(m: Markup, v: RequestValues)
    requires RequestShaped(m)
    ensures var r := Assemble(m, v);
      && Occurs(ValueOpen, r, RecipientAt(m) - 16) && Occurs(ValueClose, r, RecipientAt(m) + |v.recipient|)
      && Occurs(ValueOpen, r, IntermediaryAt(m, v) - 16) && Occurs(ValueClose, r, IntermediaryAt(m, v) + |v.intermediary|)
      && Occurs(ValueOpen, r, PurposeAt(m, v) - 16)
  {
    var r := Assemble(m, v);
    LayoutRecipient(m, v);
    LayoutIntermediary(m, v);
    LayoutPurpose(m, v);
    OccursWithin(ValueOpen, m.head, r, 0, 295, RecipientAt(m) - 16);
    OccursWithin(ValueClose, m.afterRecipient, r, RecipientAt(m) + |v.recipient|, 0, RecipientAt(m) + |v.recipient|);
    OccursWithin(ValueOpen, m.afterRecipient, r, RecipientAt(m) + |v.recipient|, 197, IntermediaryAt(m, v) - 16);
    OccursWithin(ValueClose, m.afterIntermediary, r, IntermediaryAt(m, v) + |v.intermediary|, 0,
                 IntermediaryAt(m, v) + |v.intermediary|);
    OccursWithin(ValueOpen, m.afterIntermediary, r, IntermediaryAt(m, v) + |v.intermediary|, 172, PurposeAt(m, v) - 16);
  }

  lemma LaterValuesFramed(m: Markup, v: RequestValues)
    requires RequestShaped(m)
    ensures var r := Assemble(m, v);
      && Occurs(ValueClose, r, PurposeAt(m, v) + |v.purpose|)
      && Occurs(ValueOpen, r, PatientAt(m, v) - 16) && Occurs(ValueClose, r, PatientAt(m, v) + |v.patientId|)
      && Occurs(ValueOpen, r, DateAt(m, v) - 16) && Occurs(ValueClose, r, DateAt(m, v) + |v.date|)
  {
    var r := Assemble(m, v);
    LayoutPatient(m, v);
    LayoutDate(m, v);
    OccursWithin(ValueClose, m.afterPurpose, r, PurposeAt(m, v) + |v.purpose|, 0, PurposeAt(m, v) + |v.purpose|);
    OccursWithin(ValueOpen, m.afterPurpose, r, PurposeAt(m, v) + |v.purpose|, 210, PatientAt(m, v) - 16);
    OccursWithin(ValueClose, m.afterPatient, r, PatientAt(m, v) + |v.patientId|, 0, PatientAt(m, v) + |v.patientId|);
    OccursWithin(ValueOpen, m.afterPatient, r, PatientAt(m, v) + |v.patientId|, 444, DateAt(m, v) - 16);
    OccursWithin(ValueClose, m.tail, r, DateAt(m, v) + |v.date|, 0, DateAt(m, v) + |v.date|);
  }

  lemma ValuesOf(m: Markup, v: RequestValues)
    requires RequestShaped(m)
    ensures ValuesInPlace(Assemble(m, v), m, v) && ValuesFramed(Assemble(m, v), m, v)
  {
    ValuesPlacedOf(m, v);
    SubjectValuesFramed(m, v);
    LaterValuesFramed(m, v);
  }

  /**
   * The five values appear verbatim and in order, each directly after `<AttributeValue>`
   * and directly before `</AttributeValue>`. Nothing is escaped: every character of a
   * value, markup included, is copied as it is.
   */
  lemma ValuesVerbatimInOrder(recipient: string, intermediary: string, purpose: string, patientId: string, date: string)
    ensures var v := RequestValues(recipient, intermediary, purpose, patientId, date);
      && ValuesInPlace(GenerateRequestString(recipient, intermediary, purpose, patientId, date), RequestMarkup, v)
      && ValuesFramed(GenerateRequestString(recipient, intermediary, purpose, patientId, date), RequestMarkup, v)
  {
    RequestMarkupShaped();
    ValuesOf(RequestMarkup, RequestValues(recipient, intermediary, purpose, patientId, date));
  }

  lemma EnvelopeOf(m: Markup, v: RequestValues)
    requires RequestShaped(m)
    ensures var r := Assemble(m, v);
      Occurs(RequestOpen, r, 0) && Occurs(RequestClose, r, |r| - |RequestClose|)
  {
    var r := Assemble(m, v);
    Layout(m, v);
    MarkerLengths();
    OccursWithin(RequestOpen, m.head, r, 0, 0, 0);
    OccursWithin(RequestClose, m.tail, r, DateAt(m, v) + |v.date|, 55, |r| - |RequestClose|);
  }

  /** The request opens with the XACML 2.0 context namespace and closes with `</Request>`. */
  lemma Envelope(recipient: string, intermediary: string, purpose: string, patientId: string, date: string)
    ensures var r := GenerateRequestString(recipient, intermediary, purpose, patientId, date);
      Occurs(RequestOpen, r, 0) && Occurs(RequestClose, r, |r| - |RequestClose|)
  {
    RequestMarkupShaped();
    EnvelopeOf(RequestMarkup, RequestValues(recipient, intermediary, purpose, patientId, date));
  }

  /**
   * The sections of `r` open in the order Subject, Resource, Action, Environment, and the
   * action-id attribute carries the constant `write`.
   */
  predicate SectionsPlaced(r: string, m: Markup, v: RequestValues)
  {
    var resource := PurposeAt(m, v) + |v.purpose| + 55;
    var action := PatientAt(m, v) + |v.patientId| + 56;
    var environment := PatientAt(m, v) + |v.patientId| + 280;
    var write := PatientAt(m, v) + |v.patientId| + 221;
    && Occurs(SubjectOpen, r, 127)
    && Occurs(ResourceOpen, r, resource)
    && Occurs(ActionOpen, r, action)
    && Occurs(EnvironmentOpen, r, environment)
    && 127 < resource < action < write < environment
    && Occurs(ValueOpen, r, write - 16) && Occurs(ActionValue, r, write) && Occurs(ValueClose, r, write + 5)
  }

  lemma SectionsOf(m: Markup, v: RequestValues)
    requires RequestShaped(m)
    ensures SectionsPlaced(Assemble(m, v), m, v)
  {
    var r := Assemble(m, v);
    Layout(m, v);
    var j := PatientAt(m, v) + |v.patientId|;
    OccursWithin(SubjectOpen, m.head, r, 0, 127, 127);
    OccursWithin(ResourceOpen, m.afterPurpose, r, PurposeAt(m, v) + |v.purpose|, 55, PurposeAt(m, v) + |v.purpose| + 55);
    OccursWithin(ActionOpen, m.afterPatient, r, j, 56, j + 56);
    OccursWithin(EnvironmentOpen, m.afterPatient, r, j, 280, j + 280);
    OccursWithin(ValueOpen, m.afterPatient, r, j, 205, j + 221 - 16);
    OccursWithin(ActionValue, m.afterPatient, r, j, 221, j + 221);
    OccursWithin(ValueClose, m.afterPatient, r, j, 226, j + 221 + 5);
  }

  /**
   * The sections come in the order Subject, Resource, Action, Environment, and the
   * action-id value is the constant `write` whatever the inputs.
   */
  lemma SectionsInOrder(recipient: string, intermediary: string, purpose: string, patientId: string, date: string)
    ensures SectionsPlaced(GenerateRequestString(recipient, intermediary, purpose, patientId, date), RequestMarkup,
                           RequestValues(recipient, intermediary, purpose, patientId, date))
  {
    RequestMarkupShaped();
    SectionsOf(RequestMarkup, RequestValues(recipient, intermediary, purpose, patientId, date));
  }

  /** No `<` in the value: it cannot open or close an element. */
  predicate NoMarkup(v: string)
  {
    forall i :: 0 <= i < |v| ==> v[i] != '<'
  }

  /** Split at the first `<`: the text before it and the rest. */
  function TakeText(s: string): (r: (string, string))
    ensures r.0 + r.1 == s && NoMarkup(r.0)
    ensures r.1 == [] || r.1[0] == '<'
  {
    if s == [] || s[0] == '<' then ([], s)
    else
      var (t, rest) := TakeText(s[1..]);
      assert [s[0]] + t + rest == s;
      ([s[0]] + t, rest)
  }

  lemma {:induction false} TakeTextOfValue(v: string, rest: string)
    requires NoMarkup(v) && (rest == [] || rest[0] == '<')
    ensures TakeText(v + rest) == (v, rest)
    decreases |v|
  {
    if v != [] {
      assert (v + rest)[1..] == v[1..] + rest;
      TakeTextOfValue(v[1..], rest);
      assert [v[0]] + v[1..] == v;
    } else {
      assert v + rest == rest;
    }
  }

  /** Expect the fixed markup `piece`, then read a value up to the next `<`. */
  function Field(piece: string, s: string): Option<(string, string)>
  {
    if |piece| <= |s| && s[..|piece|] == piece then Some(TakeText(s[|piece|..])) else None
  }

  lemma FieldOf(piece: string, v: string, rest: string)
    requires NoMarkup(v) && (rest == [] || rest[0] == '<')
    ensures Field(piece, piece + (v + rest)) == Some((v, rest))
  {
    assert (piece + (v + rest))[..|piece|] == piece;
    assert (piece + (v + rest))[|piece|..] == v + rest;
    TakeTextOfValue(v, rest);
  }

  /** A reader of the markup `m`: the five values of a text of that shape, None for any other text. */
  function ParseWith(m: Markup, s: string): Option<RequestValues>
  {
    match Field(m.head, s)
    case None => None
    case Some((recipient, s1)) =>
      match Field(m.afterRecipient, s1)
      case None => None
      case Some((intermediary, s2)) =>
        match Field(m.afterIntermediary, s2)
        case None => None
        case Some((purpose, s3)) =>
          match Field(m.afterPurpose, s3)
          case None => None
          case Some((patientId, s4)) =>
            match Field(m.afterPatient, s4)
            case None => None
            case Some((date, s5)) =>
              if s5 == m.tail then Some(RequestValues(recipient, intermediary, purpose, patientId, date)) else None
  }

  /** Reads the five values back out of a generated request. */
  function ParseRequestString(s: string): Option<RequestValues>
  {
    ParseWith(RequestMarkup, s)
  }

  /** Markup whose pieces after the head each open with `<`, so a value's end is found. */
  predicate Delimited(m: Markup)
  {
    && |m.afterRecipient| > 1 && m.afterRecipient[0] == '<'
    && |m.afterIntermediary| > 0 && m.afterIntermediary[0] == '<'
    && |m.afterPurpose| > 0 && m.afterPurpose[0] == '<'
    && |m.afterPatient| > 0 && m.afterPatient[0] == '<'
    && |m.tail| > 0 && m.tail[0] == '<'
  }

  lemma RequestMarkupDelimited()
    ensures Delimited(RequestMarkup) && RequestMarkup.afterRecipient[1] == '/'
  {
    AfterRecipientFacts();
    AfterIntermediaryFacts();
    AfterPurposeFacts();
    AfterPatientFacts();
    TailFacts();
    ClosesFirst(AfterRecipient);
    ClosesFirst(AfterIntermediary);
    ClosesFirst(AfterPurpose);
    ClosesFirst(AfterPatient);
    ClosesFirst(RequestTail);
  }

  lemma ClosesFirst(x: string)
    requires Occurs(ValueClose, x, 0)
    ensures |x| > 1 && x[0] == '<' && x[1] == '/'
  {
    assert x[0] == x[0..17][0] && x[1] == x[0..17][1];
  }

  lemma AssembleRoundTrip(m: Markup, v: RequestValues)
    requires Delimited(m)
    requires NoMarkup(v.recipient) && NoMarkup(v.intermediary) && NoMarkup(v.purpose)
    requires NoMarkup(v.patientId) && NoMarkup(v.date)
    ensures ParseWith(m, Assemble(m, v)) == Some(v)
  {
    var s4 := m.afterPatient + (v.date + m.tail);
    var s3 := m.afterPurpose + (v.patientId + s4);
    var s2 := m.afterIntermediary + (v.purpose + s3);
    var s1 := m.afterRecipient + (v.intermediary + s2);
    FieldOf(m.head, v.recipient, s1);
    FieldOf(m.afterRecipient, v.intermediary, s2);
    FieldOf(m.afterIntermediary, v.purpose, s3);
    FieldOf(m.afterPurpose, v.patientId, s4);
    FieldOf(m.afterPatient, v.date, m.tail);
  }

  /** Values free of `<` are read back exactly as they were written. */
  lemma RequestStringRoundTrip(recipient: string, intermediary: string, purpose: string, patientId: string, date: string)
    requires NoMarkup(recipient) && NoMarkup(intermediary) && NoMarkup(purpose) && NoMarkup(patientId) && NoMarkup(date)
    ensures ParseRequestString(GenerateRequestString(recipient, intermediary, purpose, patientId, date))
         == Some(RequestValues(recipient, intermediary, purpose, patientId, date))
  {
    RequestMarkupDelimited();
    AssembleRoundTrip(RequestMarkup, RequestValues(recipient, intermediary, purpose, patientId, date));
  }

  lemma MarkupInRecipientBreaks(m: Markup, v: RequestValues)
    requires Delimited(m) && m.afterRecipient[1] == '/' && v.recipient == "a<b"
    ensures ParseWith(m, Assemble(m, v)).None?
  {
    var after := AfterRecipientValue(m, v);
    var rest := "<b" + after;
    assert Assemble(m, v) == m.head + (v.recipient + after);
    assert v.recipient + after == "a" + rest;
    FieldOf(m.head, "a", rest);
    FieldRefusesSecondChar(m.afterRecipient, rest);
  }

  /** A piece whose second character differs from the text's is not found at the text's start. */
  lemma FieldRefusesSecondChar(piece: string, s: string)
    requires |piece| > 1 && |s| > 1 && piece[1] != s[1]
    ensures Field(piece, s).None?
  {
    if |piece| <= |s| {
      assert s[..|piece|][1] == s[1];
    }
  }

  /**
   * Because nothing is escaped, a `<` in a value breaks the document: a recipient
   * `a<b` yields text that no longer has the request's shape.
   */
  lemma UnescapedMarkupBreaksRequest(intermediary: string, purpose: string, patientId: string, date: string)
    ensures ParseRequestString(GenerateRequestString("a<b", intermediary, purpose, patientId, date)).None?
  {
    RequestMarkupDelimited();
    MarkupInRecipientBreaks(RequestMarkup, RequestValues("a<b", intermediary, purpose, patientId, date));
  }

  /** `generateRequestString(dto)`: the stylesheet transform's output, or the empty string when it throws. */
  function GenerateRequestStringFromDto(request: XacmlRequest, transform: XacmlRequest -> Attempt<string>): (s: string)
    ensures transform(request).Threw? ==> s == ""
    ensures transform(request).Done? ==> s == transform(request).value
  {
    match transform(request)
    case Done(text) => text
    case Threw(_) => ""
  }

  /** The library's parsed form of a request, identified by the bytes it was read from. */
  datatype RequestType = RequestType(source: seq<byte>)

  /**
   * `generateRequest(dto)`: the generated text's bytes, in the platform's default charset
   * (`getBytes`), are unmarshalled; a syntax error yields null. A transform failure is not
   * reported: the empty string goes to the unmarshaller as it is.
   */
  function GenerateRequest(request: XacmlRequest, transform: XacmlRequest -> Attempt<string>,
                           getBytes: string -> seq<byte>,
                           unmarshal: seq<byte> -> Attempt<RequestType>): (r: Option<RequestType>)
    ensures var bytes := getBytes(GenerateRequestStringFromDto(request, transform));
      && (unmarshal(bytes).Threw? <==> r.None?)
      && (r.Some? ==> r.value == unmarshal(bytes).value)
    ensures transform(request).Threw? ==> (r.None? <==> unmarshal(getBytes("")).Threw?)
  {
    match unmarshal(getBytes(GenerateRequestStringFromDto(request, transform)))
    case Done(parsed) => Some(parsed)
    case Threw(_) => None
  }
}
