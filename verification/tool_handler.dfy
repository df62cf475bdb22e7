/**
 * The tool dispatcher of the protocol server: it routes a tool name and
 * its arguments either to a protocol error, to an answer given in band,
 * or to one request to the contacts service, and shapes what the service
 * returns into a single text block.
 */
module ToolHandler {
  import opened Common
  import opened Values
  import opened McpErrors
  import Models
  import opened Service

  // ---------------------------------------------------------------------
  // Tools and their names

  /** The eight tools the dispatcher routes, in the order its switch lists them. */
  datatype Tool =
    | ContactsList
    | ContactsSearch
    | ContactsGet
    | ContactsCreate
    | ContactsUpdate
    | ContactsDelete
    | GroupsList
    | GroupsMembers

  const Tools: seq<Tool> :=
    [ContactsList, ContactsSearch, ContactsGet, ContactsCreate, ContactsUpdate, ContactsDelete, GroupsList, GroupsMembers]

  /** The name a client calls a tool by. */
  function ToolName(t: Tool): string {
    match t
    case ContactsList => "contacts_list"
    case ContactsSearch => "contacts_search"
    case ContactsGet => "contacts_get"
    case ContactsCreate => "contacts_create"
    case ContactsUpdate => "contacts_update"
    case ContactsDelete => "contacts_delete"
    case GroupsList => "groups_list"
    case GroupsMembers => "groups_members"
  }

  /** The `switch params.name`: the tool a name selects, if any. */
  function ParseToolName(name: string): (r: Option<Tool>)
    ensures r.Some? ==> ToolName(r.value) == name
  {
    if name == "contacts_list" then Some(ContactsList)
    else if name == "contacts_search" then Some(ContactsSearch)
    else if name == "contacts_get" then Some(ContactsGet)
    else if name == "contacts_create" then Some(ContactsCreate)
    else if name == "contacts_update" then Some(ContactsUpdate)
    else if name == "contacts_delete" then Some(ContactsDelete)
    else if name == "groups_list" then Some(GroupsList)
    else if name == "groups_members" then Some(GroupsMembers)
    else None
  }

  /** Every tool is selected by its own name, and by no other tool's. */
  lemma ToolNameRoundTrip(t: Tool)
    ensures ParseToolName(ToolName(t)) == Some(t)
  {
    var n := ToolName(t);
    match t
    case ContactsList =>
    case ContactsSearch => assert n[9] == 's';
    case ContactsGet => assert n[9] == 'g';
    case ContactsCreate => assert n[9] == 'c';
    case ContactsUpdate => assert n[9] == 'u';
    case ContactsDelete => assert n[9] == 'd';
    case GroupsList => assert n[0] == 'g';
    case GroupsMembers => assert n[0] == 'g' && n[7] == 'm';
  }

  /** A name is routed exactly when it is the name of one of the eight tools. */
  lemma RoutedNames(name: string)
    ensures ParseToolName(name).Some? <==> exists i :: 0 <= i < |Tools| && ToolName(Tools[i]) == name
  {
    if ParseToolName(name).Some? {
      var t := ParseToolName(name).value;
      match t
      case ContactsList => assert ToolName(Tools[0]) == name;
      case ContactsSearch => assert ToolName(Tools[1]) == name;
      case ContactsGet => assert ToolName(Tools[2]) == name;
      case ContactsCreate => assert ToolName(Tools[3]) == name;
      case ContactsUpdate => assert ToolName(Tools[4]) == name;
      case ContactsDelete => assert ToolName(Tools[5]) == name;
      case GroupsList => assert ToolName(Tools[6]) == name;
      case GroupsMembers => assert ToolName(Tools[7]) == name;
    }
    if exists i :: 0 <= i < |Tools| && ToolName(Tools[i]) == name {
      var i :| 0 <= i < |Tools| && ToolName(Tools[i]) == name;
      ToolNameRoundTrip(Tools[i]);
    }
  }

  // ---------------------------------------------------------------------
  // The tool table

  /** A tool descriptor reduced to its name and its `required` list. */
  datatype ToolSpec = ToolSpec(name: string, required: seq<string>)

  /** `allTools`: the descriptors the server advertises. */
  const AllTools: seq<ToolSpec> := [
    ToolSpec("contacts_list", []),
    ToolSpec("contacts_search", ["query"]),
    ToolSpec("contacts_get", ["id"]),
    ToolSpec("contacts_create", []),
    ToolSpec("contacts_update", ["id"]),
    ToolSpec("contacts_delete", ["id"]),
    ToolSpec("groups_list", []),
    ToolSpec("groups_members", ["name"])
  ]

  /** The first descriptor of `specs` with the given name. */
  function FindSpec(specs: seq<ToolSpec>, name: string): (r: Option<ToolSpec>)
    ensures r.Some? ==> r.value in specs && r.value.name == name
    ensures r.None? <==> forall i :: 0 <= i < |specs| ==> specs[i].name != name
    decreases |specs|
  {
    if specs == [] then None
    else if specs[0].name == name then Some(specs[0])
    else
      var r := FindSpec(specs[1..], name);
      assert forall i :: 1 <= i < |specs| ==> specs[i] == specs[1..][i - 1];
      r
  }

  /** The advertised descriptor for a tool name. */
  function SpecFor(name: string): Option<ToolSpec> {
    FindSpec(AllTools, name)
  }

  /** The table lists the routed tools, and only those, in the order of the switch. */
  lemma AllToolsListsRoutedTools()
    ensures |AllTools| == |Tools|
    ensures forall i :: 0 <= i < |Tools| ==> AllTools[i].name == ToolName(Tools[i])
  {
  }

  // ---------------------------------------------------------------------
  // Routing

  /** What the dispatcher asks of the contacts service. */
  datatype Request =
    | ListRequest(limit: Option<int>)
    | SearchRequest(query: string)
    | GetRequest(id: string)
    | CreateRequest(contact: NewContact)
    | UpdateRequest(id: string, fields: ContactEdit)
    | DeleteRequest(id: string)
    | GroupsRequest
    | MembersRequest(groupName: string)

  /** A routing decision: a protocol error, an answer given in band, or a service request. */
  datatype Outcome =
    | Rejected(error: McpError)
    | Answered(text: string)
    | Issue(request: Request)

  /** The `invalidParams` error for a required argument that is missing or not a string. */
  function MissingParameter(key: string): (e: McpError)
    ensures e.InvalidParams?
    ensures McpErrorDescription(e).value == InvalidParamsPrefix + "Missing '" + key + "' parameter"
  {
    InvalidParams("Missing '" + key + "' parameter")
  }

  /** The `methodNotFound` error for a name the switch does not know. */
  function UnknownTool(name: string): (e: McpError)
    ensures e.MethodNotFound?
    ensures McpErrorDescription(e).value == MethodNotFoundPrefix + "Unknown tool: " + name
  {
    MethodNotFound("Unknown tool: " + name)
  }

  const ErrorHead := "{\"error\": \""
  const ErrorTail := "\"}"

  /** `{"error": "<message>"}`, an error reported inside a successful response. */
  function ErrorDocument(message: string): (d: string)
    ensures |d| == |ErrorHead| + |message| + |ErrorTail|
    ensures d[..|ErrorHead|] == ErrorHead && d[|ErrorHead|..|d| - |ErrorTail|] == message
  {
    ErrorHead + message + ErrorTail
  }

  const NamesRequiredDocument := ErrorDocument("At least firstName, lastName, or organization is required")
  const NotFoundDocument := ErrorDocument("Contact not found")

  /** The five optional property arguments create and update read, each only when it is a string. */
  function EditArgs(args: Arguments): (f: ContactEdit)
    ensures f.firstName == StringArg(args, "firstName") && f.lastName == StringArg(args, "lastName")
    ensures f.organization == StringArg(args, "organization") && f.jobTitle == StringArg(args, "jobTitle")
    ensures f.note == StringArg(args, "note")
  {
    ContactEdit(
      StringArg(args, "firstName"), StringArg(args, "lastName"),
      StringArg(args, "organization"), StringArg(args, "jobTitle"), StringArg(args, "note"))
  }

  /** Create's guard: at least one of first name, last name and organization is present, empty or not. */
  predicate HasNameOrOrganization(f: ContactEdit) {
    f.firstName.Some? || f.lastName.Some? || f.organization.Some?
  }

  /** The argument a tool's handler guards on before anything else, if any. */
  function GuardedKey(t: Tool): Option<string> {
    match t
    case ContactsSearch => Some("query")
    case ContactsGet => Some("id")
    case ContactsUpdate => Some("id")
    case ContactsDelete => Some("id")
    case GroupsMembers => Some("name")
    case _ => None
  }

  /**
   * The handler of one tool, up to the point where it calls the service:
   * rejected exactly when its guarded argument is missing or not a
   * string, and then with the error naming that argument.
   */
  function RouteTool(t: Tool, args: Arguments): (o: Outcome)
    ensures o.Rejected? <==> GuardedKey(t).Some? && StringArg(args, GuardedKey(t).value).None?
    ensures o.Rejected? ==> o.error == MissingParameter(GuardedKey(t).value)
    ensures o.Answered? ==> t == ContactsCreate
    ensures t == ContactsList ==> o == Issue(ListRequest(IntArg(args, "limit")))
    ensures t == ContactsSearch && !o.Rejected? ==> o == Issue(SearchRequest(StringArg(args, "query").value))
    ensures t == ContactsGet && !o.Rejected? ==> o == Issue(GetRequest(StringArg(args, "id").value))
    ensures t == ContactsCreate ==> (o.Issue? <==> HasNameOrOrganization(EditArgs(args)))
    ensures t == ContactsCreate && !o.Issue? ==> o == Answered(NamesRequiredDocument)
    ensures t == ContactsCreate && o.Issue? ==>
      o.request == CreateRequest(NewContact(EditArgs(args), StringArg(args, "email"), StringArg(args, "phone")))
    ensures t == ContactsUpdate && !o.Rejected? ==> o == Issue(UpdateRequest(StringArg(args, "id").value, EditArgs(args)))
    ensures t == ContactsDelete && !o.Rejected? ==> o == Issue(DeleteRequest(StringArg(args, "id").value))
    ensures t == GroupsList ==> o == Issue(GroupsRequest)
    ensures t == GroupsMembers && !o.Rejected? ==> o == Issue(MembersRequest(StringArg(args, "name").value))
  {
    match t
    case ContactsList => Issue(ListRequest(IntArg(args, "limit")))
    case ContactsSearch =>
      (match StringArg(args, "query")
       case None => Rejected(MissingParameter("query"))
       case Some(q) => Issue(SearchRequest(q)))
    case ContactsGet =>
      (match StringArg(args, "id")
       case None => Rejected(MissingParameter("id"))
       case Some(id) => Issue(GetRequest(id)))
    case ContactsCreate =>
      var f := EditArgs(args);
      if !HasNameOrOrganization(f) then Answered(NamesRequiredDocument)
      else Issue(CreateRequest(NewContact(f, StringArg(args, "email"), StringArg(args, "phone"))))
    case ContactsUpdate =>
      (match StringArg(args, "id")
       case None => Rejected(MissingParameter("id"))
       case Some(id) => Issue(UpdateRequest(id, EditArgs(args))))
    case ContactsDelete =>
      (match StringArg(args, "id")
       case None => Rejected(MissingParameter("id"))
       case Some(id) => Issue(DeleteRequest(id)))
    case GroupsList => Issue(GroupsRequest)
    case GroupsMembers =>
      (match StringArg(args, "name")
       case None => Rejected(MissingParameter("name"))
       case Some(n) => Issue(MembersRequest(n)))
  }

  /**
   * `callTool` up to the service call: a name outside the switch, and only
   * such a name, fails with `methodNotFound("Unknown tool: <name>")`.
   */
  function Route(name: string, args: Arguments): (o: Outcome)
    ensures ParseToolName(name).None? <==> o == Rejected(UnknownTool(name))
    ensures ParseToolName(name).None? <==> o.Rejected? && o.error.MethodNotFound?
    ensures ParseToolName(name).Some? ==> o == RouteTool(ParseToolName(name).value, args)
  {
    match ParseToolName(name)
    case None => Rejected(UnknownTool(name))
    case Some(t) => RouteTool(t, args)
  }

  /** Different tools have different names. */
  lemma ToolNameInjective(a: Tool, b: Tool)
    requires ToolName(a) == ToolName(b)
    ensures a == b
  {
    ToolNameRoundTrip(a);
    ToolNameRoundTrip(b);
  }

  /** The search finds the first descriptor with the name. */
  lemma {:induction false} FindSpecAt(specs: seq<ToolSpec>, name: string, i: nat)
    requires i < |specs| && specs[i].name == name
    requires forall j :: 0 <= j < i ==> specs[j].name != name
    ensures FindSpec(specs, name) == Some(specs[i])
    decreases i
  {
    if i > 0 {
      assert specs[0].name != name;
      assert forall j :: 0 <= j < i - 1 ==> specs[1..][j] == specs[j + 1];
      FindSpecAt(specs[1..], name, i - 1);
    }
  }

  /** The descriptor the table holds for each routed tool is the one at the tool's place. */
  lemma SpecForTool(i: nat)
    requires i < |Tools|
    ensures SpecFor(ToolName(Tools[i])) == Some(AllTools[i])
  {
    AllToolsListsRoutedTools();
    forall j | 0 <= j < i ensures AllTools[j].name != ToolName(Tools[i]) {
      if AllTools[j].name == ToolName(Tools[i]) {
        ToolNameInjective(Tools[j], Tools[i]);
      }
    }
    FindSpecAt(AllTools, ToolName(Tools[i]), i);
  }

  /** The place of a tool in the switch. */
  function ToolIndex(t: Tool): (i: nat)
    ensures i < |Tools| && Tools[i] == t
  {
    match t
    case ContactsList => 0
    case ContactsSearch => 1
    case ContactsGet => 2
    case ContactsCreate => 3
    case ContactsUpdate => 4
    case ContactsDelete => 5
    case GroupsList => 6
    case GroupsMembers => 7
  }

  /**
   * The tool table agrees with the dispatcher: a name has a descriptor
   * exactly when it is routed, and a routed call is rejected exactly when
   * one of the descriptor's required arguments is missing or not a string,
   * with the `invalidParams` error naming that argument.
   */
  lemma AllToolsAgreeWithRoute(name: string, args: Arguments)
    ensures SpecFor(name).None? <==> ParseToolName(name).None?
    ensures SpecFor(name).Some? ==>
      (Route(name, args).Rejected? <==> exists k :: k in SpecFor(name).value.required && StringArg(args, k).None?)
    ensures SpecFor(name).Some? && Route(name, args).Rejected? ==>
      exists k :: k in SpecFor(name).value.required && StringArg(args, k).None? && Route(name, args).error == MissingParameter(k)
  {
    if ParseToolName(name).Some? {
      RoutedToolAgrees(ParseToolName(name).value, args);
    } else {
      UnroutedHasNoSpec(name);
    }
  }

  /** `AllToolsAgreeWithRoute` for the name of one routed tool. */
  lemma RoutedToolAgrees(t: Tool, args: Arguments)
    ensures SpecFor(ToolName(t)).Some?
    ensures var s := SpecFor(ToolName(t)).value;
      && (RouteTool(t, args).Rejected? <==> exists k :: k in s.required && StringArg(args, k).None?)
      && (RouteTool(t, args).Rejected? ==>
            exists k :: k in s.required && StringArg(args, k).None? && RouteTool(t, args).error == MissingParameter(k))
  {
    SpecForTool(ToolIndex(t));
    RequiredIsGuarded(t);
    var s := SpecFor(ToolName(t)).value;
    if GuardedKey(t).Some? {
      var key := GuardedKey(t).value;
      assert forall k :: k in s.required <==> k == key;
    } else {
      assert s.required == [];
    }
  }

  /** Each descriptor's `required` list holds just the argument its handler guards on. */
  lemma RequiredIsGuarded(t: Tool)
    ensures GuardedKey(t).Some? ==> AllTools[ToolIndex(t)].required == [GuardedKey(t).value]
    ensures GuardedKey(t).None? ==> AllTools[ToolIndex(t)].required == []
  {
  }

  /** A name outside the switch has no descriptor. */
  lemma UnroutedHasNoSpec(name: string)
    requires ParseToolName(name).None?
    ensures SpecFor(name).None?
  {
    AllToolsListsRoutedTools();
    RoutedNames(name);
    assert forall i :: 0 <= i < |AllTools| ==> AllTools[i].name != name;
  }

  // ---------------------------------------------------------------------
  // Responses

  /**
   * The JSON encoder, foreign code: the text of each value, or `None`
   * where encoding (or reading the bytes as UTF-8) fails.
   */
  datatype Encoder = Encoder(
    contacts: seq<Models.Contact> -> Option<string>,
    contact: Models.Contact -> Option<string>,
    groups: seq<Models.ContactGroup> -> Option<string>)

  const EmptyObject := "{}"

  /** `toJSON`: the encoder's text, or `{}` whenever it fails; never a failure itself. */
  function ToJSON<T>(encode: T -> Option<string>, value: T): (r: string)
    ensures encode(value).Some? ==> r == encode(value).value
    ensures encode(value).None? ==> r == EmptyObject
  {
    encode(value).GetOr(EmptyObject)
  }

  const CreatedHead := "{\"id\": \""
  const CreatedTail := "\", \"success\": true}"

  /** `{"id": "<id>", "success": true}`, the id spliced in as is. */
  function CreatedDocument(id: string): string {
    CreatedHead + id + CreatedTail
  }

  /** The id a created document carries. */
  function ParseCreatedDocument(s: string): Option<string> {
    if HasPrefix(s, CreatedHead) && |CreatedHead| + |CreatedTail| <= |s| && s[|s| - |CreatedTail|..] == CreatedTail
    then Some(s[|CreatedHead|..|s| - |CreatedTail|])
    else None
  }

  /** The client reads back exactly the id the service returned, whatever characters it holds. */
  lemma CreatedDocumentRoundTrip(id: string)
    ensures ParseCreatedDocument(CreatedDocument(id)) == Some(id)
  {
    var s := CreatedDocument(id);
    assert s[..|CreatedHead|] == CreatedHead;
    assert s[|s| - |CreatedTail|..] == CreatedTail;
    assert s[|CreatedHead|..|s| - |CreatedTail|] == id;
  }

  /** `{"success": <bool>}`, the Boolean interpolated as `true` or `false`. */
  function SuccessDocument(ok: bool): string {
    "{\"success\": " + (if ok then "true" else "false") + "}"
  }

  /** The Boolean a success document carries. */
  function ParseSuccessDocument(s: string): Option<bool> {
    if s == "{\"success\": true}" then Some(true)
    else if s == "{\"success\": false}" then Some(false)
    else None
  }

  /**
   * A success document reads back as the Boolean it was built from, and
   * none of the other fixed documents reads as one.
   */
  lemma SuccessDocumentRoundTrip(ok: bool)
    ensures ParseSuccessDocument(SuccessDocument(ok)) == Some(ok)
    ensures ParseSuccessDocument(NotFoundDocument) == None
    ensures ParseSuccessDocument(NamesRequiredDocument) == None
    ensures ParseSuccessDocument(EmptyObject) == None
  {
    assert "{\"success\": true}"[2] == 's' && "{\"success\": false}"[2] == 's';
  }

  /** The two in-band error documents are not created documents. */
  lemma ErrorDocumentsAreNotCreated()
    ensures ParseCreatedDocument(NotFoundDocument) == None
    ensures ParseCreatedDocument(NamesRequiredDocument) == None
  {
    assert CreatedHead[2] == 'i';
  }

  /** A successful tool call: the content blocks, each a text. */
  datatype ToolResult = ToolResult(content: seq<string>)

  /** How a tool call fails: a protocol error, or whatever the service threw. */
  datatype CallError = Rejection(error: McpError) | ServiceFailure(failure: Failure)

  /**
   * Carries out a service request and shapes its answer as the response
   * text. It fails exactly when the service call fails, with that failure
   * unchanged; otherwise the text is the encoded answer, the in-band
   * not-found document, or the created or success document.
   */
  function Perform(req: Request, b: Backend, enc: Encoder): (r: Result<string, Failure>)
    ensures req.ListRequest? ==> (r.Failure? <==> ListContacts(req.limit, b).Failure?)
    ensures req.ListRequest? && r.Failure? ==> r.error == ListContacts(req.limit, b).error
    ensures req.ListRequest? && r.Success? ==> r.value == ToJSON(enc.contacts, ListContacts(req.limit, b).value)
    ensures req.SearchRequest? ==> (r.Failure? <==> SearchContacts(req.query, b).Failure?)
    ensures req.SearchRequest? && r.Failure? ==> r.error == SearchContacts(req.query, b).error
    ensures req.SearchRequest? && r.Success? ==> r.value == ToJSON(enc.contacts, SearchContacts(req.query, b).value)
    ensures req.GetRequest? ==> (r.Failure? <==> GetContact(req.id, b).Failure?)
    ensures req.GetRequest? && r.Failure? ==> r.error == GetContact(req.id, b).error
    ensures req.GetRequest? && GetContact(req.id, b) == Success(None) ==> r == Success(NotFoundDocument)
    ensures req.GetRequest? && GetContact(req.id, b).Success? && GetContact(req.id, b).value.Some? ==>
      r == Success(ToJSON(enc.contact, GetContact(req.id, b).value.value))
    ensures req.CreateRequest? ==> (r.Failure? <==> CreateContact(req.contact, b).Failure?)
    ensures req.CreateRequest? && r.Failure? ==> r.error == CreateContact(req.contact, b).error
    ensures req.CreateRequest? && r.Success? ==> r.value == CreatedDocument(CreateContact(req.contact, b).value)
    ensures req.UpdateRequest? ==> (r.Failure? <==> UpdateContact(req.id, req.fields, b).Failure?)
    ensures req.UpdateRequest? && r.Failure? ==> r.error == UpdateContact(req.id, req.fields, b).error
    ensures req.UpdateRequest? && r.Success? ==> r.value == SuccessDocument(UpdateContact(req.id, req.fields, b).value)
    ensures req.DeleteRequest? ==> (r.Failure? <==> DeleteContact(req.id, b).Failure?)
    ensures req.DeleteRequest? && r.Failure? ==> r.error == DeleteContact(req.id, b).error
    ensures req.DeleteRequest? && r.Success? ==> r.value == SuccessDocument(DeleteContact(req.id, b).value)
    ensures req.GroupsRequest? ==> (r.Failure? <==> ListGroups(b).Failure?)
    ensures req.GroupsRequest? && r.Failure? ==> r.error == ListGroups(b).error
    ensures req.GroupsRequest? && r.Success? ==> r.value == ToJSON(enc.groups, ListGroups(b).value)
    ensures req.MembersRequest? ==> (r.Failure? <==> GetGroupMembers(req.groupName, b).Failure?)
    ensures req.MembersRequest? && r.Failure? ==> r.error == GetGroupMembers(req.groupName, b).error
    ensures req.MembersRequest? && r.Success? ==> r.value == ToJSON(enc.contacts, GetGroupMembers(req.groupName, b).value)
  {
    match req
    case ListRequest(limit) =>
      (match ListContacts(limit, b)
       case Failure(e) => Failure(e)
       case Success(cs) => Success(ToJSON(enc.contacts, cs)))
    case SearchRequest(q) =>
      (match SearchContacts(q, b)
       case Failure(e) => Failure(e)
       case Success(cs) => Success(ToJSON(enc.contacts, cs)))
    case GetRequest(id) =>
      (match GetContact(id, b)
       case Failure(e) => Failure(e)
       case Success(None) => Success(NotFoundDocument)
       case Success(Some(c)) => Success(ToJSON(enc.contact, c)))
    case CreateRequest(n) =>
      (match CreateContact(n, b)
       case Failure(e) => Failure(e)
       case Success(id) => Success(CreatedDocument(id)))
    case UpdateRequest(id, f) =>
      (match UpdateContact(id, f, b)
       case Failure(e) => Failure(e)
       case Success(ok) => Success(SuccessDocument(ok)))
    case DeleteRequest(id) =>
      (match DeleteContact(id, b)
       case Failure(e) => Failure(e)
       case Success(ok) => Success(SuccessDocument(ok)))
    case GroupsRequest =>
      (match ListGroups(b)
       case Failure(e) => Failure(e)
       case Success(gs) => Success(ToJSON(enc.groups, gs)))
    case MembersRequest(n) =>
      (match GetGroupMembers(n, b)
       case Failure(e) => Failure(e)
       case Success(cs) => Success(ToJSON(enc.contacts, cs)))
  }

  /**
   * A client reads back what the service answered: the id of a created
   * contact, the Boolean of an update or delete, and the in-band
   * not-found document for an unknown id.
   */
  lemma ResponsesReadBack(req: Request, b: Backend, enc: Encoder)
    ensures req.CreateRequest? && CreateContact(req.contact, b).Success? ==>
      Perform(req, b, enc).Success? && ParseCreatedDocument(Perform(req, b, enc).value) == Some(CreateContact(req.contact, b).value)
    ensures req.UpdateRequest? && UpdateContact(req.id, req.fields, b).Success? ==>
      Perform(req, b, enc).Success? && ParseSuccessDocument(Perform(req, b, enc).value) == Some(UpdateContact(req.id, req.fields, b).value)
    ensures req.DeleteRequest? && DeleteContact(req.id, b).Success? ==>
      Perform(req, b, enc).Success? && ParseSuccessDocument(Perform(req, b, enc).value) == Some(DeleteContact(req.id, b).value)
    ensures req.GetRequest? && GetContact(req.id, b) == Success(None) ==> Perform(req, b, enc) == Success(NotFoundDocument)
  {
    match req
    case CreateRequest(n) =>
      if CreateContact(n, b).Success? { CreatedDocumentRoundTrip(CreateContact(n, b).value); }
    case UpdateRequest(id, f) =>
      if UpdateContact(id, f, b).Success? { SuccessDocumentRoundTrip(UpdateContact(id, f, b).value); }
    case DeleteRequest(id) =>
      if DeleteContact(id, b).Success? { SuccessDocumentRoundTrip(DeleteContact(id, b).value); }
    case _ =>
  }

  /** Turns a routing decision into the call's result: every success is exactly one text block. */
  function Respond(o: Outcome, b: Backend, enc: Encoder): (r: Result<ToolResult, CallError>)
    ensures r.Success? ==> |r.value.content| == 1
    ensures r.Failure? && r.error.Rejection? <==> o.Rejected?
    ensures o.Rejected? ==> r.error.error == o.error
    ensures o.Answered? ==> r == Success(ToolResult([o.text]))
    ensures o.Issue? ==> (r.Failure? <==> Perform(o.request, b, enc).Failure?)
    ensures o.Issue? && r.Failure? ==> r.error == ServiceFailure(Perform(o.request, b, enc).error)
    ensures o.Issue? && r.Success? ==> r.value == ToolResult([Perform(o.request, b, enc).value])
  {
    match o
    case Rejected(e) => Failure(Rejection(e))
    case Answered(text) => Success(ToolResult([text]))
    case Issue(req) =>
      match Perform(req, b, enc)
      case Failure(f) => Failure(ServiceFailure(f))
      case Success(text) => Success(ToolResult([text]))
  }

  /** `callTool`. */
  function CallTool(name: string, args: Arguments, b: Backend, enc: Encoder): (r: Result<ToolResult, CallError>)
    ensures r.Success? ==> |r.value.content| == 1
    ensures ParseToolName(name).None? ==> r == Failure(Rejection(UnknownTool(name)))
    ensures r.Failure? && r.error.Rejection? <==> Route(name, args).Rejected?
    ensures Route(name, args).Issue? ==>
      (r.Failure? <==> Perform(Route(name, args).request, b, enc).Failure?)
    ensures Route(name, args).Issue? && r.Failure? ==>
      r.error == ServiceFailure(Perform(Route(name, args).request, b, enc).error)
    ensures Route(name, args).Issue? && r.Success? ==>
      r.value == ToolResult([Perform(Route(name, args).request, b, enc).value])
  {
    Respond(Route(name, args), b, enc)
  }

  // ---------------------------------------------------------------------
  // End-to-end properties

  /** An unknown tool fails the same way whatever the backend would have done. */
  lemma UnknownToolIgnoresBackend(name: string, args: Arguments, b1: Backend, b2: Backend, enc: Encoder)
    requires ParseToolName(name).None?
    ensures CallTool(name, args, b1, enc) == CallTool(name, args, b2, enc)
  {
  }

  /**
   * A create call with none of first name, last name and organization
   * given as a string answers in band and never reaches the service.
   */
  lemma CreateWithoutNamesAnswersInBand(args: Arguments, b: Backend, enc: Encoder)
    requires StringArg(args, "firstName").None? && StringArg(args, "lastName").None?
    requires StringArg(args, "organization").None?
    ensures CallTool("contacts_create", args, b, enc) == Success(ToolResult([NamesRequiredDocument]))
  {
    ToolNameRoundTrip(ContactsCreate);
  }

  /** The guard checks presence only: an empty first name is enough to reach the service. */
  lemma CreateGuardChecksPresence(args: Arguments)
    requires StringArg(args, "firstName") == Some("")
    ensures Route("contacts_create", args).Issue?
    ensures Route("contacts_create", args).request.contact.fields.firstName == Some("")
  {
    ToolNameRoundTrip(ContactsCreate);
  }

  /** Without an integer `limit` the listing runs with the service's cap of 50. */
  lemma ListWithoutLimitUsesDefaultCap(args: Arguments, b: Backend, enc: Encoder)
    requires IntArg(args, "limit").None?
    ensures Route("contacts_list", args) == Issue(ListRequest(None))
    ensures CallTool("contacts_list", args, b, enc) ==
      match RunAppleScript(b, ListScript(DefaultListLimit))
      case Failure(f) => Failure(ServiceFailure(f))
      case Success(out) => Success(ToolResult([ToJSON(enc.contacts, Parse.ParseContacts(out, b.decoder))]))
  {
    ToolNameRoundTrip(ContactsList);
  }

  /**
   * A failing service call surfaces from `callTool` as that very failure,
   * for every tool whose handler reaches the service.
   */
  lemma ServiceFailureSurfaces(t: Tool, args: Arguments, b: Backend, enc: Encoder)
    requires RouteTool(t, args).Issue?
    requires Perform(RouteTool(t, args).request, b, enc).Failure?
    ensures CallTool(ToolName(t), args, b, enc) == Failure(ServiceFailure(Perform(RouteTool(t, args).request, b, enc).error))
  {
    ToolNameRoundTrip(t);
  }

  /** A search answers with the encoded matches, or fails as the search failed. */
  lemma SearchAnswersMatches(q: string, args: Arguments, b: Backend, enc: Encoder)
    requires StringArg(args, "query") == Some(q)
    ensures SearchContacts(q, b).Failure? ==>
      CallTool("contacts_search", args, b, enc) == Failure(ServiceFailure(SearchContacts(q, b).error))
    ensures SearchContacts(q, b).Success? ==>
      CallTool("contacts_search", args, b, enc) == Success(ToolResult([ToJSON(enc.contacts, SearchContacts(q, b).value)]))
  {
    ToolNameRoundTrip(ContactsSearch);
  }

  /** An unknown contact id is answered in band, not thrown. */
  lemma GetUnknownAnswersInBand(args: Arguments, b: Backend, enc: Encoder)
    requires StringArg(args, "id").Some?
    requires GetContact(StringArg(args, "id").value, b) == Success(None)
    ensures CallTool("contacts_get", args, b, enc) == Success(ToolResult([NotFoundDocument]))
  {
    ToolNameRoundTrip(ContactsGet);
  }

  /** An update that passes only an id answers `false` without running a script. */
  lemma UpdateWithOnlyIdIsFalse(id: string, b: Backend, enc: Encoder)
    ensures CallTool("contacts_update", Some(map["id" := String(id)]), b, enc) == Success(ToolResult([SuccessDocument(false)]))
  {
    var args: Arguments := Some(map["id" := String(id)]);
    ToolNameRoundTrip(ContactsUpdate);
    assert EditArgs(args) == ContactEdit(None, None, None, None, None);
    UpdateLinesEmptyIff(EditArgs(args));
  }
}
