// Shared vocabulary of the context handler: the exceptions the service raises,
// the wrappers for results and for calls into libraries, and the Java string
// conventions the core relies on.

module Common {

  /** The exception classes of the core, one constructor each, with their message. */
  datatype Error =
    | NoPolicyFound(message: string)
    | PolicyNotFound(message: string)
    | PolicyIdNotFound(message: string)
    | PolicyProviderError(message: string)
    | PolicyCombiningAlgIdNotFound(message: string)
    | InvalidPolicyCombiningAlgId(message: string)
    | C2SAudit(message: string)
    | PcmClientInterface(message: string)
    | PatientNotFound(message: string)
    | MultiplePatientsFound(message: string)
    | ConsentNotFound(message: string)
    | DomUtils(message: string)
    | IllegalArgument(message: string)
    | NullPointer
    | Runtime(message: string)

  const ExceptionPackage := "gov.samhsa.c2s.contexthandler.service.exception."

  /** What `e.getClass().getName()` yields for each exception. */
  function ClassName(e: Error): string
  {
    match e
    case NoPolicyFound(_) => ExceptionPackage + "NoPolicyFoundException"
    case PolicyNotFound(_) => ExceptionPackage + "PolicyNotFoundException"
    case PolicyIdNotFound(_) => ExceptionPackage + "PolicyIdNotFoundException"
    case PolicyProviderError(_) => ExceptionPackage + "PolicyProviderException"
    case PolicyCombiningAlgIdNotFound(_) => ExceptionPackage + "PolicyCombiningAlgIdNotFoundException"
    case InvalidPolicyCombiningAlgId(_) => ExceptionPackage + "InvalidPolicyCombiningAlgIdException"
    case C2SAudit(_) => ExceptionPackage + "C2SAuditException"
    case PcmClientInterface(_) => ExceptionPackage + "PcmClientInterfaceException"
    case PatientNotFound(_) => ExceptionPackage + "PatientNotFound"
    case MultiplePatientsFound(_) => ExceptionPackage + "MultiplePatientsFound"
    case ConsentNotFound(_) => ExceptionPackage + "ConsentNotFound"
    case DomUtils(_) => ExceptionPackage + "DOMUtilsException"
    case IllegalArgument(_) => "java.lang.IllegalArgumentException"
    case NullPointer => "java.lang.NullPointerException"
    case Runtime(_) => "java.lang.RuntimeException"
  }

  datatype Option<T> = None | Some(value: T)

  /** A computation of the core that either returns a value or throws one of its exceptions. */
  datatype Result<T> = Ok(value: T) | Err(error: Error)
  {
    predicate IsFailure() { Err? }
    function PropagateFailure<U>(): Result<U> requires Err? { Err(error) }
    function Extract(): T requires Ok? { value }
  }

  /** A check that returns normally or throws. */
  datatype Outcome = Pass | Fail(error: Error)

  /** A call into code outside the core: it returns a value or throws with a message. */
  datatype Attempt<T> = Done(value: T) | Threw(message: string)
  {
    predicate IsFailure() { Threw? }
    function PropagateFailure<U>(): Attempt<U> requires Threw? { Threw(message) }
    function Extract(): T requires Done? { value }
  }

  newtype byte = x: int | 0 <= x < 256

  /** `Character.isWhitespace`: space separators other than the no-break ones, and the listed controls. */
  predicate IsWhitespace(c: char)
  {
    c == ' ' || c == '\t' || c == '\n' || c == '\U{000B}' || c == '\U{000C}' || c == '\r'
    || ('\U{001C}' <= c <= '\U{001F}')
    || c == '\U{1680}' || ('\U{2000}' <= c <= '\U{2006}') || ('\U{2008}' <= c <= '\U{200A}')
    || c == '\U{2028}' || c == '\U{2029}' || c == '\U{205F}' || c == '\U{3000}'
  }

  /** The scan `StringUtils.hasText` performs over the characters of a string. */
  function ContainsText(s: string): (b: bool)
    ensures b <==> exists i :: 0 <= i < |s| && !IsWhitespace(s[i])
  {
    if s == [] then false
    else if !IsWhitespace(s[0]) then true
    else
      var b := ContainsText(s[1..]);
      assert forall i :: 1 <= i < |s| ==> s[i] == s[1..][i - 1];
      b
  }

  /** `StringUtils.hasText` of a possibly null string. */
  predicate HasText(s: Option<string>)
  {
    s.Some? && ContainsText(s.value)
  }

  /** How Java's `+` renders a possibly null string. */
  function JavaString(s: Option<string>): string
  {
    if s.Some? then s.value else "null"
  }

  /** `String.getBytes(UTF_8)` of one character: one to four bytes by code point range. */
  function Utf8Char(c: char): (b: seq<byte>)
    ensures 1 <= |b| <= 4
    ensures (c as int < 0x80) <==> |b| == 1
    ensures c as int < 0x80 ==> b[0] as int == c as int
  {
    var n := c as int;
    if n < 0x80 then [n as byte]
    else if n < 0x800 then [(0xC0 + n / 0x40) as byte, (0x80 + n % 0x40) as byte]
    else if n < 0x10000 then
      [(0xE0 + n / 0x1000) as byte, (0x80 + (n / 0x40) % 0x40) as byte, (0x80 + n % 0x40) as byte]
    else
      [(0xF0 + n / 0x40000) as byte, (0x80 + (n / 0x1000) % 0x40) as byte,
       (0x80 + (n / 0x40) % 0x40) as byte, (0x80 + n % 0x40) as byte]
  }

  /** `String.getBytes(UTF_8)`: the characters' encodings, concatenated in order. */
  function Utf8(s: string): (b: seq<byte>)
    ensures |s| <= |b| <= 4 * |s|
    ensures (forall i :: 0 <= i < |s| ==> s[i] as int < 0x80) ==> |b| == |s| && forall i :: 0 <= i < |s| ==> b[i] as int == s[i] as int
  {
    if s == [] then []
    else
      var rest := Utf8(s[1..]);
      assert forall i :: 1 <= i < |s| ==> s[1..][i - 1] == s[i];
      Utf8Char(s[0]) + rest
  }
}
