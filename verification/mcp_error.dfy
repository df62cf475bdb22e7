/**
 * The protocol-level errors the tool dispatchers throw, with their
 * descriptions. Both servers declare the same enumeration with the same
 * three descriptions.
 */
module McpErrors {
  import opened Common

  /** The errors a tool call reports to the protocol layer. */
  datatype McpError =
    | InternalError(msg: string)
    | MethodNotFound(msg: string)
    | InvalidParams(msg: string)

  const InternalErrorPrefix := "Internal error: "
  const MethodNotFoundPrefix := "Method not found: "
  const InvalidParamsPrefix := "Invalid parameters: "

  /** The fixed text that opens the description of each case. */
  function PrefixOf(e: McpError): string {
    match e
    case InternalError(_) => InternalErrorPrefix
    case MethodNotFound(_) => MethodNotFoundPrefix
    case InvalidParams(_) => InvalidParamsPrefix
  }

  /**
   * `errorDescription`: defined for every case, and always the case's
   * fixed prefix followed by the message unchanged.
   */
  function McpErrorDescription(e: McpError): (r: Option<string>)
    ensures r.Some?
    ensures |r.value| == |PrefixOf(e)| + |e.msg|
    ensures HasPrefix(r.value, PrefixOf(e)) && r.value[|PrefixOf(e)|..] == e.msg
  {
    match e
    case InternalError(m) => Some(InternalErrorPrefix + m)
    case MethodNotFound(m) => Some(MethodNotFoundPrefix + m)
    case InvalidParams(m) => Some(InvalidParamsPrefix + m)
  }

  /** Reads a description back into the error it describes. */
  function ParseMcpErrorDescription(s: string): Option<McpError> {
    if HasPrefix(s, InternalErrorPrefix) then Some(InternalError(s[|InternalErrorPrefix|..]))
    else if HasPrefix(s, MethodNotFoundPrefix) then Some(MethodNotFound(s[|MethodNotFoundPrefix|..]))
    else if HasPrefix(s, InvalidParamsPrefix) then Some(InvalidParams(s[|InvalidParamsPrefix|..]))
    else None
  }

  /** The three prefixes begin with different letters, so a description names its case. */
  lemma McpErrorDescriptionRoundTrip(e: McpError)
    ensures ParseMcpErrorDescription(McpErrorDescription(e).value) == Some(e)
  {
    var s := McpErrorDescription(e).value;
    assert InternalErrorPrefix[0] == 'I' && MethodNotFoundPrefix[0] == 'M' && InvalidParamsPrefix[0] == 'I';
    assert InternalErrorPrefix[2] == 't' && InvalidParamsPrefix[2] == 'v';
    match e
    case InternalError(m) =>
      DropPrefixOfConcat(InternalErrorPrefix, m);
    case MethodNotFound(m) =>
      DropPrefixOfConcat(MethodNotFoundPrefix, m);
      assert s[0] == 'M';
    case InvalidParams(m) =>
      DropPrefixOfConcat(InvalidParamsPrefix, m);
      assert s[0] == 'I' && s[2] == 'v';
  }

  /** Hence distinct errors never share a description. */
  lemma McpErrorDescriptionInjective(e1: McpError, e2: McpError)
    requires McpErrorDescription(e1) == McpErrorDescription(e2)
    ensures e1 == e2
  {
    McpErrorDescriptionRoundTrip(e1);
    McpErrorDescriptionRoundTrip(e2);
  }
}
