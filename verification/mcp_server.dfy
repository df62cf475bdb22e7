/**
 * The second protocol server, bundled with the command-line tool. It
 * carries its own copy of the dispatcher, reading arguments from a map
 * that defaults to empty, and its own list of advertised tools.
 */
module McpServer {
  import opened Common
  import opened Values
  import opened McpErrors
  import opened Service
  import opened ToolHandler

  /** `args[key]` on a plain map. */
  function Get(args: map<string, Value>, key: string): (r: Option<Value>)
    ensures r.Some? <==> key in args
    ensures r.Some? ==> r.value == args[key]
  {
    if key in args then Some(args[key]) else None
  }

  /** A string argument of the map; any other tag counts as absent. */
  function StringIn(args: map<string, Value>, key: string): Option<string> {
    AsString(Get(args, key))
  }

  /** The five optional property arguments, each only when it is a string. */
  function EditIn(args: map<string, Value>): ContactEdit {
    ContactEdit(
      StringIn(args, "firstName"), StringIn(args, "lastName"),
      StringIn(args, "organization"), StringIn(args, "jobTitle"), StringIn(args, "note"))
  }

  /** `mcpTools`: the names this server advertises (its descriptors carry no schemas). */
  const McpTools: seq<string> := [
    "contacts_list", "contacts_search", "contacts_get", "contacts_create",
    "contacts_update", "contacts_delete", "groups_list", "groups_members"
  ]

  /**
   * `handleToolCall` up to the service call: a missing argument map is
   * read as the empty map, and a name outside the advertised list fails
   * with `methodNotFound("Unknown tool: <name>")`.
   */
  function HandleToolCall(name: string, arguments: Arguments): (o: Outcome)
    ensures o == Rejected(UnknownTool(name)) <==> name !in McpTools
  {
    var args := arguments.GetOr(map[]);
    if name == "contacts_list" then Issue(ListRequest(AsInt(Get(args, "limit"))))
    else if name == "contacts_search" then
      (match StringIn(args, "query")
       case None => Rejected(MissingParameter("query"))
       case Some(q) => Issue(SearchRequest(q)))
    else if name == "contacts_get" then
      (match StringIn(args, "id")
       case None => Rejected(MissingParameter("id"))
       case Some(id) => Issue(GetRequest(id)))
    else if name == "contacts_create" then
      var f := EditIn(args);
      if f.firstName.None? && f.lastName.None? && f.organization.None? then Answered(NamesRequiredDocument)
      else Issue(CreateRequest(NewContact(f, StringIn(args, "email"), StringIn(args, "phone"))))
    else if name == "contacts_update" then
      (match StringIn(args, "id")
       case None => Rejected(MissingParameter("id"))
       case Some(id) => Issue(UpdateRequest(id, EditIn(args))))
    else if name == "contacts_delete" then
      (match StringIn(args, "id")
       case None => Rejected(MissingParameter("id"))
       case Some(id) => Issue(DeleteRequest(id)))
    else if name == "groups_list" then Issue(GroupsRequest)
    else if name == "groups_members" then
      (match StringIn(args, "name")
       case None => Rejected(MissingParameter("name"))
       case Some(n) => Issue(MembersRequest(n)))
    else Rejected(UnknownTool(name))
  }

  /** Reading the defaulted map is reading the optional map. */
  lemma DefaultedLookup(arguments: Arguments, key: string)
    ensures Get(arguments.GetOr(map[]), key) == Lookup(arguments, key)
  {
  }

  /** The map-based reads agree with the reads from the optional map. */
  lemma DefaultedArgs(arguments: Arguments)
    ensures forall key :: StringIn(arguments.GetOr(map[]), key) == StringArg(arguments, key)
    ensures AsInt(Get(arguments.GetOr(map[]), "limit")) == IntArg(arguments, "limit")
    ensures EditIn(arguments.GetOr(map[])) == EditArgs(arguments)
  {
    forall key ensures StringIn(arguments.GetOr(map[]), key) == StringArg(arguments, key) {
      DefaultedLookup(arguments, key);
    }
    DefaultedLookup(arguments, "limit");
  }

  /** For the name of each routed tool, this server's handler decides as the other's. */
  lemma HandlerAgrees(t: Tool, arguments: Arguments)
    ensures HandleToolCall(ToolName(t), arguments) == RouteTool(t, arguments)
  {
    DefaultedArgs(arguments);
    match t
    case ContactsList =>
    case ContactsSearch => assert ToolName(t)[9] == 's';
    case ContactsGet => assert ToolName(t)[9] == 'g';
    case ContactsCreate => assert ToolName(t)[9] == 'c';
    case ContactsUpdate => assert ToolName(t)[9] == 'u';
    case ContactsDelete => assert ToolName(t)[9] == 'd';
    case GroupsList => assert ToolName(t)[0] == 'g';
    case GroupsMembers => assert ToolName(t)[0] == 'g' && ToolName(t)[7] == 'm';
  }

  /** The two dispatchers decide every call identically. */
  lemma HandleToolCallAgrees(name: string, arguments: Arguments)
    ensures HandleToolCall(name, arguments) == Route(name, arguments)
  {
    AdvertisedIffRouted(name);
    if ParseToolName(name).Some? {
      HandlerAgrees(ParseToolName(name).value, arguments);
    }
  }

  /**
   * The request handler installed at start-up: `internalError("Server
   * not initialized")` once the server object is gone, otherwise the
   * dispatcher's result shaped into one text block.
   */
  function ServeToolCall(alive: bool, name: string, arguments: Arguments, b: Backend, enc: Encoder): (r: Result<ToolResult, CallError>)
    ensures !alive ==> r == Failure(Rejection(InternalError("Server not initialized")))
    ensures r.Success? ==> alive && |r.value.content| == 1
  {
    if !alive then Failure(Rejection(InternalError("Server not initialized")))
    else Respond(HandleToolCall(name, arguments), b, enc)
  }

  /** While the server is alive, a call here gives exactly what the other server's `callTool` gives. */
  lemma ServeToolCallAgrees(name: string, arguments: Arguments, b: Backend, enc: Encoder)
    ensures ServeToolCall(true, name, arguments, b, enc) == CallTool(name, arguments, b, enc)
  {
    HandleToolCallAgrees(name, arguments);
  }

  /** `mcpTools` lists the routed tools, in the order of the switch and of the other server's table. */
  lemma McpToolsMatchSwitch()
    ensures |McpTools| == |Tools| == |AllTools|
    ensures forall i :: 0 <= i < |McpTools| ==> McpTools[i] == ToolName(Tools[i]) == AllTools[i].name
  {
  }

  /** A name is advertised exactly when the dispatcher routes it. */
  lemma AdvertisedIffRouted(name: string)
    ensures name in McpTools <==> ParseToolName(name).Some?
  {
    RoutedNames(name);
    McpToolsMatchSwitch();
    if name in McpTools {
      var i :| 0 <= i < |McpTools| && McpTools[i] == name;
      assert ToolName(Tools[i]) == name;
    }
  }
}
