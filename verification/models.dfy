/**
 * The record types of the address book and the core error enumeration
 * with its user-facing descriptions.
 */
module Models {
  import opened Common

  /**
   * A contact as handed to callers. The datatype constructor plays the
   * part of the memberwise initialiser: it stores its eleven arguments
   * unchanged.
   */
  datatype Contact = Contact(
    id: string,
    firstName: string,
    lastName: string,
    fullName: string,
    emails: seq<string>,
    phones: seq<string>,
    organization: Option<string>,
    jobTitle: Option<string>,
    note: Option<string>,
    birthday: Option<string>,
    addresses: seq<string>)

  /** A contact group with the member count the backend reported. */
  datatype ContactGroup = ContactGroup(id: string, name: string, memberCount: int)

  /** The errors the address-book layer can report. */
  datatype CoreError =
    | AccessDenied
    | ContactNotFound
    | InvalidInput(msg: string)
    | OperationFailed(msg: string)
    | ScriptError(msg: string)

  const AccessDeniedText := "Access to contacts was denied"
  const ContactNotFoundText := "Contact not found"
  const InvalidInputPrefix := "Invalid input: "
  const OperationFailedPrefix := "Operation failed: "
  const ScriptErrorPrefix := "AppleScript error: "

  /**
   * `errorDescription`: a description for every case, the two fixed
   * messages for the cases without a payload and a fixed prefix followed
   * by the payload for the others.
   */
  function ErrorDescription(e: CoreError): (r: Option<string>)
    ensures r.Some?
    ensures !e.AccessDenied? && !e.ContactNotFound? ==> |e.msg| < |r.value| && r.value[|r.value| - |e.msg|..] == e.msg
  {
    match e
    case AccessDenied => Some(AccessDeniedText)
    case ContactNotFound => Some(ContactNotFoundText)
    case InvalidInput(m) => Some(InvalidInputPrefix + m)
    case OperationFailed(m) => Some(OperationFailedPrefix + m)
    case ScriptError(m) => Some(ScriptErrorPrefix + m)
  }

  /** Reads a description back into the error it describes. */
  function ParseErrorDescription(s: string): Option<CoreError> {
    if s == AccessDeniedText then Some(AccessDenied)
    else if s == ContactNotFoundText then Some(ContactNotFound)
    else if HasPrefix(s, InvalidInputPrefix) then Some(InvalidInput(s[|InvalidInputPrefix|..]))
    else if HasPrefix(s, OperationFailedPrefix) then Some(OperationFailed(s[|OperationFailedPrefix|..]))
    else if HasPrefix(s, ScriptErrorPrefix) then Some(ScriptError(s[|ScriptErrorPrefix|..]))
    else None
  }

  /** Every description names its error unambiguously: reading it back gives the error. */
  lemma ErrorDescriptionRoundTrip(e: CoreError)
    ensures ParseErrorDescription(ErrorDescription(e).value) == Some(e)
  {
    var s := ErrorDescription(e).value;
    match e
    case AccessDenied =>
    case ContactNotFound =>
    case InvalidInput(m) =>
      DropPrefixOfConcat(InvalidInputPrefix, m);
      assert s[0] == 'I';
    case OperationFailed(m) =>
      DropPrefixOfConcat(OperationFailedPrefix, m);
      assert s[0] == 'O';
      assert !HasPrefix(s, InvalidInputPrefix) by { assert InvalidInputPrefix[0] == 'I'; }
    case ScriptError(m) =>
      DropPrefixOfConcat(ScriptErrorPrefix, m);
      assert s[1] == 'p';
      assert !HasPrefix(s, InvalidInputPrefix) by { assert InvalidInputPrefix[0] == 'I'; }
      assert !HasPrefix(s, OperationFailedPrefix) by { assert OperationFailedPrefix[0] == 'O'; }
  }

  /** Hence distinct errors never share a description. */
  lemma ErrorDescriptionInjective(e1: CoreError, e2: CoreError)
    requires ErrorDescription(e1) == ErrorDescription(e2)
    ensures e1 == e2
  {
    ErrorDescriptionRoundTrip(e1);
    ErrorDescriptionRoundTrip(e2);
  }
}
