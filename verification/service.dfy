/**
 * The contacts service: each operation builds one AppleScript request from
 * its parameters, runs it out of process, and reads the printed result.
 * The AppleScript text around the embedded parameters is fixed and runs in
 * another process, so a request is modelled by what it embeds (`Script`)
 * and the process by an uninterpreted `execute` function.
 */
module Service {
  import opened Common
  import opened Text
  import opened Escape
  import Models
  import opened Parse

  /** The service's own error enumeration. */
  datatype ServiceError = ScriptFailed(msg: string) | ContactNotFound | InvalidInput(msg: string)

  const ScriptFailedPrefix := "AppleScript error: "
  const NotFoundText := "Contact not found"
  const InvalidInputText := "Invalid input: "

  /** `errorDescription`: defined for every case; the payload, when there is one, ends the text. */
  function ServiceErrorDescription(e: ServiceError): (r: Option<string>)
    ensures r.Some?
    ensures !e.ContactNotFound? ==> |e.msg| < |r.value| && r.value[|r.value| - |e.msg|..] == e.msg
  {
    match e
    case ScriptFailed(m) => Some(ScriptFailedPrefix + m)
    case ContactNotFound => Some(NotFoundText)
    case InvalidInput(m) => Some(InvalidInputText + m)
  }

  /** Reads a description back into the error it describes. */
  function ParseServiceErrorDescription(s: string): Option<ServiceError> {
    if s == NotFoundText then Some(ContactNotFound)
    else if HasPrefix(s, ScriptFailedPrefix) then Some(ScriptFailed(s[|ScriptFailedPrefix|..]))
    else if HasPrefix(s, InvalidInputText) then Some(InvalidInput(s[|InvalidInputText|..]))
    else None
  }

  /** Every description names its error unambiguously. */
  lemma ServiceErrorDescriptionRoundTrip(e: ServiceError)
    ensures ParseServiceErrorDescription(ServiceErrorDescription(e).value) == Some(e)
  {
    var s := ServiceErrorDescription(e).value;
    match e
    case ContactNotFound =>
    case ScriptFailed(m) =>
      DropPrefixOfConcat(ScriptFailedPrefix, m);
      assert s[0] == 'A' && NotFoundText[0] == 'C';
    case InvalidInput(m) =>
      DropPrefixOfConcat(InvalidInputText, m);
      assert s[0] == 'I' && NotFoundText[0] == 'C' && ScriptFailedPrefix[0] == 'A';
  }

  // ---------------------------------------------------------------------
  // Running a script

  /** What each generated script embeds from its caller. */
  datatype Script =
    | ListScript(maxItems: int)
    | SearchScript(escapedQuery: string)
    | GetScript(escapedId: string)
    | CreateScript(propertyLines: seq<string>, emailLine: string, phoneLine: string)
    | UpdateScript(escapedId: string, updates: seq<string>)
    | DeleteScript(escapedId: string)
    | GroupsScript
    | MembersScript(escapedName: string)

  /**
   * What one `osascript` run produced: the exit status and the two pipes
   * (`None` where the bytes are not UTF-8), or the error thrown when the
   * process could not be started.
   */
  datatype ProcessOutcome =
    | Exited(status: int, stdout: Option<string>, stderr: Option<string>)
    | LaunchFailed(reason: string)

  /** What a service call can throw. */
  datatype Failure = Thrown(error: ServiceError) | LaunchError(reason: string)

  /** The world outside the service: the script process and the JSON decoder. */
  datatype Backend = Backend(execute: Script -> ProcessOutcome, decoder: Decoder)

  /**
   * `runAppleScript`: standard output on a zero exit status (empty when
   * it is not UTF-8); `scriptFailed` with standard error (or "Unknown
   * error") on any other status; the launch error when the process could
   * not start.
   */
  function RunAppleScript(b: Backend, script: Script): (r: Result<string, Failure>)
    ensures r.Success? <==> b.execute(script).Exited? && b.execute(script).status == 0
    ensures r.Success? ==> r.value == b.execute(script).stdout.GetOr("")
    ensures r.Failure? && b.execute(script).Exited? ==>
      r.error == Thrown(ScriptFailed(b.execute(script).stderr.GetOr("Unknown error")))
    ensures b.execute(script).LaunchFailed? ==> r.error == LaunchError(b.execute(script).reason)
  {
    match b.execute(script)
    case LaunchFailed(reason) => Failure(LaunchError(reason))
    case Exited(status, out, err) =>
      if status != 0 then Failure(Thrown(ScriptFailed(err.GetOr("Unknown error"))))
      else Success(out.GetOr(""))
  }

  // ---------------------------------------------------------------------
  // Reading operations

  const DefaultListLimit := 50

  /** `limit ?? 50`. */
  function MaxItems(limit: Option<int>): (m: int)
    ensures limit.None? ==> m == DefaultListLimit
    ensures limit.Some? ==> m == limit.value
  {
    limit.GetOr(DefaultListLimit)
  }

  /**
   * How many people the generated list loop visits: `loopCount` starts at
   * the total, drops to `maxItems` when it is larger, and `repeat with i
   * from 1 to loopCount` runs no times when `loopCount` is below 1.
   */
  function VisitedCount(total: nat, maxItems: int): (n: nat)
    ensures n <= total && (maxItems >= 0 ==> n <= maxItems)
    ensures maxItems >= 0 ==> n == total || n == maxItems
    ensures maxItems <= 0 ==> n == 0
  {
    var loopCount := if total > maxItems then maxItems else total;
    if loopCount < 1 then 0 else loopCount
  }

  /** The rows the list script prints: the first people in the store's order, up to the cap. */
  function ListedRows(people: seq<ContactRow>, maxItems: int): (rows: seq<ContactRow>)
    ensures |rows| == VisitedCount(|people|, maxItems)
    ensures rows <= people
  {
    people[..VisitedCount(|people|, maxItems)]
  }

  /** `listContacts(limit:)`. */
  function ListContacts(limit: Option<int>, b: Backend): (r: Result<seq<Models.Contact>, Failure>)
    ensures RunAppleScript(b, ListScript(MaxItems(limit))).Failure? ==>
      r == Failure(RunAppleScript(b, ListScript(MaxItems(limit))).error)
    ensures RunAppleScript(b, ListScript(MaxItems(limit))).Success? ==>
      r == Success(ParseContacts(RunAppleScript(b, ListScript(MaxItems(limit))).value, b.decoder))
  {
    match RunAppleScript(b, ListScript(MaxItems(limit)))
    case Failure(e) => Failure(e)
    case Success(out) => Success(ParseContacts(out, b.decoder))
  }

  /** The list script's output decodes to the rows the generated loop visits. */
  predicate PrintsVisitedRows(b: Backend, people: seq<ContactRow>, maxItems: int) {
    match RunAppleScript(b, ListScript(maxItems))
    case Failure(_) => true
    case Success(out) => b.decoder.rows(TrimOutput(out)) == Some(ListedRows(people, maxItems))
  }

  /**
   * When the backend prints the rows its loop visits, a listing is empty
   * or is exactly the first `min(total, cap)` people in order; in
   * particular it never holds more than the cap (50 without a limit).
   */
  lemma ListContactsRespectsCap(limit: Option<int>, b: Backend, people: seq<ContactRow>)
    requires PrintsVisitedRows(b, people, MaxItems(limit))
    ensures ListContacts(limit, b).Success? ==>
      var cs := ListContacts(limit, b).value;
      && (cs == [] || cs == MapRows(people[..VisitedCount(|people|, MaxItems(limit))]))
      && |cs| <= |people|
      && (limit.None? ==> |cs| <= DefaultListLimit)
      && (limit.Some? && limit.value >= 0 ==> |cs| <= limit.value)
  {
    var m := MaxItems(limit);
    var rows := ListedRows(people, m);
    if RunAppleScript(b, ListScript(m)).Success? {
      var cs := ListContacts(limit, b).value;
      assert cs == [] || cs == MapRows(rows);
    }
  }

  /** `searchContacts(query:)`: the query is embedded with its quotes escaped. */
  function SearchContacts(query: string, b: Backend): (r: Result<seq<Models.Contact>, Failure>)
    ensures RunAppleScript(b, SearchScript(EscapeQuotes(query))).Failure? ==>
      r == Failure(RunAppleScript(b, SearchScript(EscapeQuotes(query))).error)
    ensures RunAppleScript(b, SearchScript(EscapeQuotes(query))).Success? ==>
      r == Success(ParseContacts(RunAppleScript(b, SearchScript(EscapeQuotes(query))).value, b.decoder))
  {
    match RunAppleScript(b, SearchScript(EscapeQuotes(query)))
    case Failure(e) => Failure(e)
    case Success(out) => Success(ParseContacts(out, b.decoder))
  }

  /**
   * `getContact(id:)`: no contact when the trimmed output is empty or the
   * `{}` the script prints for an unknown id, and otherwise whatever
   * `parseJSONContact` makes of the trimmed output.
   */
  function GetContact(id: string, b: Backend): (r: Result<Option<Models.Contact>, Failure>)
    ensures RunAppleScript(b, GetScript(EscapeQuotes(id))).Failure? ==>
      r == Failure(RunAppleScript(b, GetScript(EscapeQuotes(id))).error)
    ensures RunAppleScript(b, GetScript(EscapeQuotes(id))).Success? ==>
      var t := TrimOutput(RunAppleScript(b, GetScript(EscapeQuotes(id))).value);
      && r.Success?
      && (r.value.None? <==> t == "" || t == "{}" || b.decoder.row(t).None?)
      && (r.value.Some? ==> r.value.value == RowToContact(b.decoder.row(t).value))
  {
    match RunAppleScript(b, GetScript(EscapeQuotes(id)))
    case Failure(e) => Failure(e)
    case Success(out) =>
      var trimmed := TrimOutput(out);
      if trimmed == "" || trimmed == "{}" then Success(None)
      else
        TrimIdempotent(out, WhitespacesAndNewlines);
        Success(ParseContact(trimmed, b.decoder))
  }

  /** The guard and second trim in `getContact` change nothing: it is `parseJSONContact` of the raw output. */
  lemma GetContactIsParse(id: string, b: Backend)
    ensures RunAppleScript(b, GetScript(EscapeQuotes(id))).Success? ==>
      GetContact(id, b) == Success(ParseContact(RunAppleScript(b, GetScript(EscapeQuotes(id))).value, b.decoder))
  {
  }

  /** `listGroups()`. */
  function ListGroups(b: Backend): (r: Result<seq<Models.ContactGroup>, Failure>)
    ensures RunAppleScript(b, GroupsScript).Failure? ==> r == Failure(RunAppleScript(b, GroupsScript).error)
    ensures RunAppleScript(b, GroupsScript).Success? ==>
      r == Success(ParseGroups(RunAppleScript(b, GroupsScript).value, b.decoder))
  {
    match RunAppleScript(b, GroupsScript)
    case Failure(e) => Failure(e)
    case Success(out) => Success(ParseGroups(out, b.decoder))
  }

  /** `getGroupMembers(groupName:)`: an unknown group prints `[]` and so has no members. */
  function GetGroupMembers(groupName: string, b: Backend): (r: Result<seq<Models.Contact>, Failure>)
    ensures RunAppleScript(b, MembersScript(EscapeQuotes(groupName))).Failure? ==>
      r == Failure(RunAppleScript(b, MembersScript(EscapeQuotes(groupName))).error)
    ensures RunAppleScript(b, MembersScript(EscapeQuotes(groupName))).Success? ==>
      r == Success(ParseContacts(RunAppleScript(b, MembersScript(EscapeQuotes(groupName))).value, b.decoder))
  {
    match RunAppleScript(b, MembersScript(EscapeQuotes(groupName)))
    case Failure(e) => Failure(e)
    case Success(out) => Success(ParseContacts(out, b.decoder))
  }

  // ---------------------------------------------------------------------
  // Writing operations

  /** The five properties create and update can set, in the order both write them. */
  datatype Property = FirstName | LastName | Organization | JobTitle | Note

  const PropertyOrder: seq<Property> := [FirstName, LastName, Organization, JobTitle, Note]

  /** The AppleScript name of a property. */
  function PropertyName(p: Property): string {
    match p
    case FirstName => "first name"
    case LastName => "last name"
    case Organization => "organization"
    case JobTitle => "job title"
    case Note => "note"
  }

  /** The optional values a create or update call passes for the five properties. */
  datatype ContactEdit = ContactEdit(
    firstName: Option<string>,
    lastName: Option<string>,
    organization: Option<string>,
    jobTitle: Option<string>,
    note: Option<string>)

  /** The value an edit passes for a property. */
  function ValueOf(f: ContactEdit, p: Property): Option<string> {
    match p
    case FirstName => f.firstName
    case LastName => f.lastName
    case Organization => f.organization
    case JobTitle => f.jobTitle
    case Note => f.note
  }

  /** Text spliced between a fixed prefix and suffix, the value escaped. */
  function Splice(prefix: string, v: string, suffix: string): string {
    prefix + EscapeQuotes(v) + suffix
  }

  /** The value spliced into `line`, when `line` has the given prefix and suffix. */
  function Unsplice(prefix: string, line: string, suffix: string): Option<string> {
    if HasPrefix(line, prefix) && |prefix| + |suffix| <= |line| && line[|line| - |suffix|..] == suffix
    then Some(UnescapeQuotes(line[|prefix|..|line| - |suffix|]))
    else None
  }

  lemma UnspliceSplice(prefix: string, v: string, suffix: string)
    ensures Unsplice(prefix, Splice(prefix, v, suffix), suffix) == Some(v)
  {
    var line := Splice(prefix, v, suffix);
    assert line[..|prefix|] == prefix;
    assert line[|line| - |suffix|..] == suffix;
    assert line[|prefix|..|line| - |suffix|] == EscapeQuotes(v);
    EscapeQuotesRoundTrip(v);
  }

  /** `set <property> of <target> to "`. */
  function LineHead(target: string, p: Property): string {
    "set " + PropertyName(p) + " of " + target + " to \""
  }

  /** `set <property> of <target> to "<escaped value>"`. */
  function PropertyLine(target: string, p: Property, v: string): string {
    Splice(LineHead(target, p), v, "\"")
  }

  /** One create line per property that is present and non-empty. */
  function CreateLine(p: Property, v: Option<string>): seq<string> {
    if v.Some? && v.value != "" then [PropertyLine("newPerson", p, v.value)] else []
  }

  /** The property lines of `createContact`, in source order. */
  function CreateLines(f: ContactEdit): seq<string> {
    CreateLine(FirstName, f.firstName)
    + CreateLine(LastName, f.lastName)
    + CreateLine(Organization, f.organization)
    + CreateLine(JobTitle, f.jobTitle)
    + CreateLine(Note, f.note)
  }

  /** One update line per property that is present, even when empty. */
  function UpdateLine(p: Property, v: Option<string>): seq<string> {
    if v.Some? then [PropertyLine("p", p, v.value)] else []
  }

  /** The property lines of `updateContact`, in source order. */
  function UpdateLines(f: ContactEdit): seq<string> {
    UpdateLine(FirstName, f.firstName)
    + UpdateLine(LastName, f.lastName)
    + UpdateLine(Organization, f.organization)
    + UpdateLine(JobTitle, f.jobTitle)
    + UpdateLine(Note, f.note)
  }

  /** The property a script line sets and the value it sets it to, read back from the line. */
  function ParseLine(target: string, line: string): Option<(Property, string)> {
    ParseLineAs(target, line, PropertyOrder)
  }

  /** Tries the line against each property of `ps` in turn. */
  function ParseLineAs(target: string, line: string, ps: seq<Property>): Option<(Property, string)>
    decreases |ps|
  {
    if ps == [] then None
    else match Unsplice(LineHead(target, ps[0]), line, "\"")
      case Some(v) => Some((ps[0], v))
      case None => ParseLineAs(target, line, ps[1..])
  }

  /** Reads back every line; `None` if some line is not a property line. */
  function ParseLines(target: string, lines: seq<string>): Option<seq<(Property, string)>> {
    Traverse(line => ParseLine(target, line), lines)
  }

  /** A line for one property never reads as a line for another: the names differ in their first letter. */
  lemma OtherHeadsMiss(target: string, p: Property, q: Property, v: string)
    requires p != q
    ensures Unsplice(LineHead(target, q), PropertyLine(target, p, v), "\"") == None
  {
    var line := PropertyLine(target, p, v);
    var h := LineHead(target, q);
    assert line[4] == PropertyName(p)[0];
    assert h[4] == PropertyName(q)[0];
    assert |h| > 4 && line[4] != h[4];
    assert |line| < |h| || line[..|h|][4] != h[4];
  }

  /** Each property line reads back as the property and the unescaped value it was built from. */
  lemma ParsePropertyLine(target: string, p: Property, v: string)
    ensures ParseLine(target, PropertyLine(target, p, v)) == Some((p, v))
  {
    var line := PropertyLine(target, p, v);
    UnspliceSplice(LineHead(target, p), v, "\"");
    var ps := PropertyOrder;
    while ps[0] != p
      invariant |ps| > 0 && p in ps && ParseLineAs(target, line, ps) == ParseLine(target, line)
      decreases |ps|
    {
      OtherHeadsMiss(target, p, ps[0], v);
      ps := ps[1..];
    }
  }

  /** Reading two blocks of lines one after the other reads each block in turn. */
  lemma ParseLinesAppend(target: string, a: seq<string>, b: seq<string>)
    requires ParseLines(target, a).Some? && ParseLines(target, b).Some?
    ensures ParseLines(target, a + b) == Some(ParseLines(target, a).value + ParseLines(target, b).value)
  {
    TraverseAppend(line => ParseLine(target, line), a, b);
  }

  /** The assignment one property contributes, if any; `skipEmpty` drops an empty value. */
  function Assignment(p: Property, v: Option<string>, skipEmpty: bool): seq<(Property, string)> {
    if v.Some? && !(skipEmpty && v.value == "") then [(p, v.value)] else []
  }

  /** The assignments an edit asks for, property by property in the order of `ps`. */
  function Assignments(f: ContactEdit, ps: seq<Property>, skipEmpty: bool): seq<(Property, string)>
    decreases |ps|
  {
    if ps == [] then [] else Assignment(ps[0], ValueOf(f, ps[0]), skipEmpty) + Assignments(f, ps[1..], skipEmpty)
  }

  lemma AssignmentsInOrder(f: ContactEdit, skipEmpty: bool)
    ensures Assignments(f, PropertyOrder, skipEmpty) ==
      Assignment(FirstName, f.firstName, skipEmpty)
      + Assignment(LastName, f.lastName, skipEmpty)
      + Assignment(Organization, f.organization, skipEmpty)
      + Assignment(JobTitle, f.jobTitle, skipEmpty)
      + Assignment(Note, f.note, skipEmpty)
  {
    var ps := PropertyOrder;
    assert ps[1..] == [LastName, Organization, JobTitle, Note];
    assert ps[1..][1..] == [Organization, JobTitle, Note];
    assert ps[1..][1..][1..] == [JobTitle, Note];
    assert ps[1..][1..][1..][1..] == [Note];
    assert ps[1..][1..][1..][1..][1..] == [];
  }

  lemma CreateLineParses(p: Property, v: Option<string>)
    ensures ParseLines("newPerson", CreateLine(p, v)) == Some(Assignment(p, v, true))
  {
    if v.Some? && v.value != "" {
      var target := "newPerson";
      var line := PropertyLine("newPerson", p, v.value);
      ParsePropertyLine("newPerson", p, v.value);
      assert [line][1..] == [];
      assert ParseLines(target, [line]) == Some([(p, v.value)] + []);
      assert [(p, v.value)] + [] == [(p, v.value)];
    }
  }

  lemma UpdateLineParses(p: Property, v: Option<string>)
    ensures ParseLines("p", UpdateLine(p, v)) == Some(Assignment(p, v, false))
  {
    if v.Some? {
      var target := "p";
      var line := PropertyLine("p", p, v.value);
      ParsePropertyLine("p", p, v.value);
      assert [line][1..] == [];
      assert ParseLines(target, [line]) == Some([(p, v.value)] + []);
      assert [(p, v.value)] + [] == [(p, v.value)];
    }
  }

  /**
   * The create script sets exactly the properties passed with a
   * non-empty value, each to that value, in the order first name, last
   * name, organization, job title, note.
   */
  lemma CreateLinesSetNonEmptyFields(f: ContactEdit)
    ensures ParseLines("newPerson", CreateLines(f)) == Some(Assignments(f, PropertyOrder, true))
  {
    var t := "newPerson";
    var l1, l2, l3, l4, l5 := CreateLine(FirstName, f.firstName), CreateLine(LastName, f.lastName),
      CreateLine(Organization, f.organization), CreateLine(JobTitle, f.jobTitle), CreateLine(Note, f.note);
    CreateLineParses(FirstName, f.firstName);
    CreateLineParses(LastName, f.lastName);
    CreateLineParses(Organization, f.organization);
    CreateLineParses(JobTitle, f.jobTitle);
    CreateLineParses(Note, f.note);
    ParseLinesAppend(t, l1, l2);
    ParseLinesAppend(t, l1 + l2, l3);
    ParseLinesAppend(t, l1 + l2 + l3, l4);
    ParseLinesAppend(t, l1 + l2 + l3 + l4, l5);
    AssignmentsInOrder(f, true);
  }

  /**
   * The update script sets exactly the properties passed, empty values
   * included, each to its value, in the same order.
   */
  lemma UpdateLinesSetPresentFields(f: ContactEdit)
    ensures ParseLines("p", UpdateLines(f)) == Some(Assignments(f, PropertyOrder, false))
  {
    var t := "p";
    var l1, l2, l3, l4, l5 := UpdateLine(FirstName, f.firstName), UpdateLine(LastName, f.lastName),
      UpdateLine(Organization, f.organization), UpdateLine(JobTitle, f.jobTitle), UpdateLine(Note, f.note);
    UpdateLineParses(FirstName, f.firstName);
    UpdateLineParses(LastName, f.lastName);
    UpdateLineParses(Organization, f.organization);
    UpdateLineParses(JobTitle, f.jobTitle);
    UpdateLineParses(Note, f.note);
    ParseLinesAppend(t, l1, l2);
    ParseLinesAppend(t, l1 + l2, l3);
    ParseLinesAppend(t, l1 + l2 + l3, l4);
    ParseLinesAppend(t, l1 + l2 + l3 + l4, l5);
    AssignmentsInOrder(f, false);
  }

  /** An update writes nothing exactly when no property is passed. */
  lemma UpdateLinesEmptyIff(f: ContactEdit)
    ensures UpdateLines(f) == [] <==> f == ContactEdit(None, None, None, None, None)
  {
  }

  /** A create writes no property exactly when each is absent or empty. */
  lemma CreateLinesEmptyIff(f: ContactEdit)
    ensures CreateLines(f) == [] <==> forall p :: ValueOf(f, p).None? || ValueOf(f, p).value == ""
  {
    if CreateLines(f) == [] {
      forall p ensures ValueOf(f, p).None? || ValueOf(f, p).value == "" {
        match p
        case FirstName =>
        case LastName =>
        case Organization =>
        case JobTitle =>
        case Note =>
      }
    } else {
      if f.firstName.Some? && f.firstName.value != "" { assert !(ValueOf(f, FirstName).None? || ValueOf(f, FirstName).value == ""); }
      else if f.lastName.Some? && f.lastName.value != "" { assert !(ValueOf(f, LastName).None? || ValueOf(f, LastName).value == ""); }
      else if f.organization.Some? && f.organization.value != "" { assert !(ValueOf(f, Organization).None? || ValueOf(f, Organization).value == ""); }
      else if f.jobTitle.Some? && f.jobTitle.value != "" { assert !(ValueOf(f, JobTitle).None? || ValueOf(f, JobTitle).value == ""); }
      else { assert !(ValueOf(f, Note).None? || ValueOf(f, Note).value == ""); }
    }
  }

  const EmailHead := "make new email at end of emails of newPerson with properties {label:\"work\", value:\""
  const PhoneHead := "make new phone at end of phones of newPerson with properties {label:\"mobile\", value:\""
  const EntryTail := "\"}"

  /** The single work email `createContact` adds, or nothing. */
  function EmailLine(email: Option<string>): (line: string)
    ensures line == "" <==> email.None? || email.value == ""
    ensures line != "" ==> Unsplice(EmailHead, line, EntryTail) == Some(email.value)
  {
    if email.Some? && email.value != "" then
      UnspliceSplice(EmailHead, email.value, EntryTail);
      Splice(EmailHead, email.value, EntryTail)
    else ""
  }

  /** The single mobile phone `createContact` adds, or nothing. */
  function PhoneLine(phone: Option<string>): (line: string)
    ensures line == "" <==> phone.None? || phone.value == ""
    ensures line != "" ==> Unsplice(PhoneHead, line, EntryTail) == Some(phone.value)
  {
    if phone.Some? && phone.value != "" then
      UnspliceSplice(PhoneHead, phone.value, EntryTail);
      Splice(PhoneHead, phone.value, EntryTail)
    else ""
  }

  /** What a create call passes: the five properties plus an email and a phone. */
  datatype NewContact = NewContact(fields: ContactEdit, email: Option<string>, phone: Option<string>)

  /** The script `createContact` runs. */
  function CreateScriptFor(n: NewContact): Script {
    CreateScript(CreateLines(n.fields), EmailLine(n.email), PhoneLine(n.phone))
  }

  /** `createContact(...)`: the new contact's id is the trimmed output. */
  function CreateContact(n: NewContact, b: Backend): (r: Result<string, Failure>)
    ensures RunAppleScript(b, CreateScriptFor(n)).Failure? ==> r == Failure(RunAppleScript(b, CreateScriptFor(n)).error)
    ensures RunAppleScript(b, CreateScriptFor(n)).Success? ==>
      r.Success? && IsTrimOf(r.value, RunAppleScript(b, CreateScriptFor(n)).value, WhitespacesAndNewlines)
  {
    match RunAppleScript(b, CreateScriptFor(n))
    case Failure(e) => Failure(e)
    case Success(out) => Success(TrimOutput(out))
  }

  /** `result.trimmingCharacters(in: .whitespacesAndNewlines) == "true"`. */
  function ReadsTrue(output: string): bool {
    TrimOutput(output) == "true"
  }

  /**
   * The read-back accepts exactly the word `true` with any whitespace or
   * newlines around it.
   */
  lemma ReadsTrueIff(output: string)
    ensures ReadsTrue(output) ==>
      exists p, q :: AllIn(p, WhitespacesAndNewlines) && AllIn(q, WhitespacesAndNewlines) && output == p + "true" + q
    ensures forall p, q :: AllIn(p, WhitespacesAndNewlines) && AllIn(q, WhitespacesAndNewlines) ==> ReadsTrue(p + "true" + q)
  {
    if ReadsTrue(output) {
      var p, q := SplitAroundTrim(output, TrimOutput(output), WhitespacesAndNewlines);
      assert output == p + "true" + q;
    }
    forall p, q | AllIn(p, WhitespacesAndNewlines) && AllIn(q, WhitespacesAndNewlines)
      ensures ReadsTrue(p + "true" + q)
    {
      TrimUnique(p, "true", q, WhitespacesAndNewlines);
    }
  }

  /**
   * `updateContact(...)`: `false` without running anything when no
   * property is passed; otherwise whether the script printed `true`.
   */
  function UpdateContact(id: string, f: ContactEdit, b: Backend): (r: Result<bool, Failure>)
    ensures UpdateLines(f) == [] ==> r == Success(false)
    ensures UpdateLines(f) != [] ==>
      var run := RunAppleScript(b, UpdateScript(EscapeQuotes(id), UpdateLines(f)));
      && (run.Failure? ==> r == Failure(run.error))
      && (run.Success? ==> r == Success(ReadsTrue(run.value)))
  {
    var updates := UpdateLines(f);
    if updates == [] then Success(false)
    else match RunAppleScript(b, UpdateScript(EscapeQuotes(id), updates))
      case Failure(e) => Failure(e)
      case Success(out) => Success(ReadsTrue(out))
  }

  /** `deleteContact(id:)`: whether the script printed `true`. */
  function DeleteContact(id: string, b: Backend): (r: Result<bool, Failure>)
    ensures RunAppleScript(b, DeleteScript(EscapeQuotes(id))).Failure? ==>
      r == Failure(RunAppleScript(b, DeleteScript(EscapeQuotes(id))).error)
    ensures RunAppleScript(b, DeleteScript(EscapeQuotes(id))).Success? ==>
      r == Success(ReadsTrue(RunAppleScript(b, DeleteScript(EscapeQuotes(id))).value))
  {
    match RunAppleScript(b, DeleteScript(EscapeQuotes(id)))
    case Failure(e) => Failure(e)
    case Success(out) => Success(ReadsTrue(out))
  }
}
