# Contactbook in Dafny

Contactbook is a Swift command-line tool and protocol server. It exposes the
macOS address book to tool-calling clients. This project models its core.

- **The contacts service.** Each operation builds one AppleScript request that
  embeds the caller's parameters. It runs the request with `osascript` and reads
  what the script prints.
- **Reading records back.** Output is trimmed and guarded (empty output, and the
  `[]` and `{}` markers, mean no result). The decoded flat row then maps to a
  `Contact` or `ContactGroup`.
- **Building requests.** Quote escaping; the ordered property lines of create
  and update, with their different rules for empty values; the default list cap
  of 50; the `true` read-back of update and delete.
- **The tool dispatchers.** A tool name and a loosely typed argument map route
  to one of three outcomes: a protocol error, an in-band error document, or one
  service request. The dispatcher then shapes the answer into a single text
  block. The repository carries two copies of the dispatcher. They are modelled
  separately and proved to decide every call identically.
- **The three error enumerations** and their descriptions.

The model is functional.

- The script process is the uninterpreted function `Backend.execute`. It maps
  the request's embedded parameters (`Service.Script`) to an exit status and two
  pipes, or to a launch failure.
- The JSON decoder and encoder are partial functions (`Parse.Decoder`,
  `ToolHandler.Encoder`).
- Swift's throwing calls become `Result` values.

Modules, one per file:

| module | file | what it holds |
|---|---|---|
| `Common` | common.dfy | `Option`, `Result`, prefix helpers |
| `Text` | text.dfy | Foundation's `trimmingCharacters(in:)` for `.whitespaces` and `.whitespacesAndNewlines` |
| `Escape` | escape.dfy | the source's quote escaping; a model of how AppleScript reads a string literal; the corrected escaping |
| `Models` | models.dfy | `Contact`, `ContactGroup`, the core `ContactsError` |
| `Parse` | parse.dfy | the decoded rows and the three `parseJSON…` functions |
| `Service` | service.dfy | the service operations, the runner, the request builders |
| `McpErrors` | mcp_error.dfy | `ContactbookMCPError` |
| `Values` | values.dfy | the protocol's argument values and type-directed extraction |
| `ToolHandler` | tool_handler.dfy | `callTool`, its handlers, `allTools`, response shapes |
| `McpServer` | mcp_server.dfy | the second dispatcher `handleToolCall`, `mcpTools`, the installed handler |

Three behaviours of the code are easy to misread:

- **The display name can be empty.** The code joins the first and last names
  with a space and trims `.whitespaces`. A contact whose names are only
  whitespace gets an empty `fullName` (`Parse.FullNameEmptyIff`).
- **Create's guard checks presence, not content.** The dispatchers only check
  `!= nil`, so an empty first name passes (`ToolHandler.CreateGuardChecksPresence`).
- **Only double quotes are escaped.** Backslashes and line breaks in user text
  reach the generated script unchanged (see Findings).

## Model

| member | source | states |
|---|---|---|
| Text.Trim | Sources/ContactbookCLI/Services/ContactsService.swift:531 | The trim of `s` is a contiguous piece of `s`. Everything before and after it belongs to the character set. It has no character of the set at either end. |
| Text.TrimUnique | Sources/ContactbookCLI/Services/ContactsService.swift:531 | Trimming is determined by that decomposition: a run of the set, then a core with no set character at its ends, then a run of the set, always trims to exactly that core. |
| Text.TrimIdempotent | Sources/ContactbookCLI/Services/ContactsService.swift:242-245 | Trimming already-trimmed output changes nothing. This is why the second trim inside `parseJSONContact` after `getContact`'s own trim is harmless. |
| Text.TrimEmptyIff | Sources/ContactbookCLI/Services/ContactsService.swift:532 | Trimmed output is empty exactly when every character is whitespace or a newline. This is what the `isEmpty` guards detect. |
| Text.TrimPadded | Sources/ContactbookCLI/Services/ContactsService.swift:543 | Whitespace added at either end does not change the trim. |
| Text.AllInJoin | Sources/ContactbookCLI/Services/ContactsService.swift:543 | Two names joined by a space are all whitespace exactly when both names are. |
| Escape.EscapeQuotes | Sources/ContactbookCLI/Services/ContactsService.swift:105 | The escaped text is longer by exactly the number of double quotes in the input. Every double quote in it is preceded by a backslash. |
| Escape.EscapeQuotesRoundTrip | Sources/ContactbookCLI/Services/ContactsService.swift:176 | The escaping loses nothing: removing the inserted backslashes gives the input back. |
| Escape.EscapeQuotesWithoutQuotes | Sources/ContactbookCLI/Services/ContactsService.swift:409 | Text without double quotes, backslashes included, passes through unchanged. |
| Escape.QuoteEscapingLeavesLiteralOpen | Sources/ContactbookCLI/Services/ContactsService.swift:105 | As written: the input `\` is spliced as `"\"`, so the backslash escapes the closing quote and the literal runs on. Inside a generated script the next `"` closes it, and the script text in between is misread as part of the string. |
| Escape.QuoteEscapingAllowsInjection | Sources/ContactbookCLI/Services/ContactsService.swift:176 | As written: with the input `\"c"`, the literal closes after one backslash. The caller's `c"` is then read as script text. |
| Escape.EscapeLiteral | Sources/ContactbookCLI/Services/ContactsService.swift:105 | Corrected escaping: the output is longer by the number of quotes plus the number of backslashes. |
| Escape.EscapeLiteralRoundTrip | Sources/ContactbookCLI/Services/ContactsService.swift:105 | Corrected escaping: a literal built from any text reads back as exactly that text, and closes exactly where the script closes it. |
| Escape.QuoteEscapingSoundWithoutBackslash | Sources/ContactbookCLI/Services/ContactsService.swift:260 | On input without a backslash, the source's escaping already reads back correctly. |
| Models.ErrorDescription | Sources/Core/Models/Contact.swift:62-70 | Every case has a description. For the three cases with a payload, the payload ends the description unchanged. |
| Models.ErrorDescriptionRoundTrip | Sources/Core/Models/Contact.swift:64-68 | A description reads back as the error it describes. |
| Models.ErrorDescriptionInjective | Sources/Core/Models/Contact.swift:62-70 | Distinct errors never share a description. |
| Parse.FullName | Sources/ContactbookCLI/Services/ContactsService.swift:543 | The display name is the backend's name when it has one. Otherwise it is a trim of the first name, a space and the last name. |
| Parse.FullNameJoinsParts | Sources/ContactbookCLI/Services/ContactsService.swift:570 | Without a backend name, non-empty first and last names with no spaces at their ends are joined by exactly one space. |
| Parse.FullNameFirstOnly | Sources/ContactbookCLI/Services/ContactsService.swift:543 | With neither a backend name nor a last name, the display name is the trimmed first name and has no trailing space. |
| Parse.FullNameLastOnly | Sources/ContactbookCLI/Services/ContactsService.swift:570 | With neither a backend name nor a first name, the display name is the trimmed last name and has no leading space. |
| Parse.FullNameEmptyIff | Sources/ContactbookCLI/Services/ContactsService.swift:543 | The display name is empty exactly when there is no backend name and both name parts are whitespace only. |
| Parse.NonEmpty | Sources/ContactbookCLI/Services/ContactsService.swift:546-547 | Organization and job title are absent exactly when the decoded text is empty. Otherwise they hold that text. |
| Parse.SingletonUnlessEmpty | Sources/ContactbookCLI/Services/ContactsService.swift:544-545 | Emails and phones hold at most one entry: none exactly when the decoded text is empty, otherwise that text. |
| Parse.RowToContact | Sources/ContactbookCLI/Services/ContactsService.swift:538-551 | Field by field: id, names and note are copied; the display name falls back as above; email, phone, organization and job title follow the empty-means-absent rules; birthday is always absent and addresses always empty. |
| Parse.MapRows | Sources/ContactbookCLI/Services/ContactsService.swift:538 | One contact per decoded row, in order. |
| Parse.RowToGroup | Sources/ContactbookCLI/Services/ContactsService.swift:592 | A group keeps the id and name, and its member count is the decoded `count`. |
| Parse.MapGroups | Sources/ContactbookCLI/Services/ContactsService.swift:592 | One group per decoded row, with length and order preserved. |
| Parse.ParseContacts | Sources/ContactbookCLI/Services/ContactsService.swift:530-556 | No contacts when the trimmed output is empty, is `[]`, or does not decode. Otherwise one contact per decoded row, in order. It never fails. |
| Parse.ParseContact | Sources/ContactbookCLI/Services/ContactsService.swift:558-582 | No contact exactly when the trimmed output is empty, is `{}`, or does not decode. Otherwise the decoded row mapped. |
| Parse.ParseGroups | Sources/ContactbookCLI/Services/ContactsService.swift:584-596 | No groups when the trimmed output is empty, is `[]`, or does not decode. Otherwise one group per decoded row, in order. |
| Parse.RowRoundTrip | Sources/Core/Models/Contact.swift:16-40 | A row with a display name survives mapping to a contact and flattening back unchanged. |
| Parse.ContactRoundTrip | Sources/ContactbookCLI/Services/ContactsService.swift:566-578 | A contact that fits the row shape is rebuilt exactly by flattening it and mapping it back. The row shape is: a display name, at most one non-empty email and phone, no empty organization or title, no birthday or addresses. |
| Service.ServiceErrorDescription | Sources/ContactbookCLI/Services/ContactsService.swift:603-610 | Every case of the service's error has a description. The payload, when there is one, ends it unchanged. |
| Service.ServiceErrorDescriptionRoundTrip | Sources/ContactbookCLI/Services/ContactsService.swift:605-609 | A service error description reads back as the error it describes. |
| Service.RunAppleScript | Sources/ContactbookCLI/Services/ContactsService.swift:479-510 | It succeeds exactly on exit status 0, with standard output (empty when that output is not UTF-8). Any other status throws `scriptFailed` with standard error, or "Unknown error". A process that cannot start throws its launch error. |
| Service.MaxItems | Sources/ContactbookCLI/Services/ContactsService.swift:29 | The cap is 50 without a limit and the given limit otherwise. |
| Service.VisitedCount | Sources/ContactbookCLI/Services/ContactsService.swift:37-43 | The generated loop visits no more people than exist. With a non-negative cap it visits no more than the cap, and exactly the total or exactly the cap. With a cap of 0 or less it visits none. |
| Service.ListedRows | Sources/ContactbookCLI/Services/ContactsService.swift:40-43 | The listed rows are a prefix of the store's people, of the visited length. |
| Service.ListContacts | Sources/ContactbookCLI/Services/ContactsService.swift:28-102 | A failed run is passed on. A successful one is parsed as a contact list, and the request embeds the cap. |
| Service.ListContactsRespectsCap | Sources/ContactbookCLI/Services/ContactsService.swift:37-43 | When the backend prints the rows its loop visits, a listing is empty or exactly the first min(total, cap) people in order. It never holds more than 50 without a limit, or more than a non-negative limit. |
| Service.SearchContacts | Sources/ContactbookCLI/Services/ContactsService.swift:104-173 | The request embeds the query with its quotes escaped. A failed run is passed on; a successful one is parsed as a contact list. |
| Service.GetContact | Sources/ContactbookCLI/Services/ContactsService.swift:175-246 | No contact exactly when the trimmed output is empty, is `{}`, or does not decode. Otherwise the decoded row mapped. Failures are passed on. |
| Service.GetContactIsParse | Sources/ContactbookCLI/Services/ContactsService.swift:242-245 | The guard and the second trim in `getContact` change nothing: the result is `parseJSONContact` of the raw output. |
| Service.ListGroups | Sources/ContactbookCLI/Services/ContactsService.swift:365-406 | A failed run is passed on; a successful one is parsed as a group list. |
| Service.GetGroupMembers | Sources/ContactbookCLI/Services/ContactsService.swift:408-477 | The request embeds the group name escaped. A failed run is passed on; a successful one is parsed as a contact list, so an unknown group has no members. |
| Service.ParsePropertyLine | Sources/ContactbookCLI/Services/ContactsService.swift:260-272 | Each generated `set <property> of <target> to "<value>"` line reads back as its property and the original value. No other property's line shape matches it. |
| Service.ParseLinesAppend | Sources/ContactbookCLI/Services/ContactsService.swift:288 | Reading two blocks of property lines one after the other reads each block in turn. |
| Service.CreateLinesSetNonEmptyFields | Sources/ContactbookCLI/Services/ContactsService.swift:257-273 | The create script sets exactly the properties passed with a non-empty value, each to that value. The order is first name, last name, organization, job title, note. |
| Service.UpdateLinesSetPresentFields | Sources/ContactbookCLI/Services/ContactsService.swift:308-324 | The update script sets exactly the properties passed, empty values included, each to its value, in the same order. |
| Service.CreateLinesEmptyIff | Sources/ContactbookCLI/Services/ContactsService.swift:259-273 | A create writes no property exactly when each one is absent or empty. |
| Service.UpdateLinesEmptyIff | Sources/ContactbookCLI/Services/ContactsService.swift:326 | An update writes nothing exactly when no property is passed. |
| Service.EmailLine | Sources/ContactbookCLI/Services/ContactsService.swift:275-278 | The email line is empty exactly when no non-empty email is passed. Otherwise it reads back as that email. |
| Service.PhoneLine | Sources/ContactbookCLI/Services/ContactsService.swift:280-283 | The phone line is empty exactly when no non-empty phone is passed. Otherwise it reads back as that phone. |
| Service.CreateContact | Sources/ContactbookCLI/Services/ContactsService.swift:248-297 | A failed run is passed on. Otherwise the new id is the printed output with whitespace and newlines trimmed from both ends. |
| Service.ReadsTrueIff | Sources/ContactbookCLI/Services/ContactsService.swift:342 | The read-back accepts exactly the word `true` with any whitespace or newlines around it. |
| Service.UpdateContact | Sources/ContactbookCLI/Services/ContactsService.swift:299-343 | It answers `false` without running anything when no property is passed. Otherwise a failed run is passed on, and success means the script printed `true`. |
| Service.DeleteContact | Sources/ContactbookCLI/Services/ContactsService.swift:345-363 | A failed run is passed on; success means the script printed `true`. |
| McpErrors.McpErrorDescription | Sources/MCP/ContactbookMCP.swift:10-16 | Every case has a description: its fixed prefix ("Internal error: ", "Method not found: ", "Invalid parameters: ") followed by the message unchanged. |
| McpErrors.McpErrorDescriptionRoundTrip | Sources/ContactbookCLI/MCP/ContactbookMCPServer.swift:251-257 | The second server's copy gives the same descriptions. Each reads back as the error it describes. |
| McpErrors.McpErrorDescriptionInjective | Sources/MCP/ContactbookMCP.swift:12-14 | Distinct protocol errors never share a description. |
| Values.Lookup | Sources/MCP/Handlers/ToolHandler.swift:37 | An argument is present exactly when there is an argument map and it holds the key. |
| Values.StringArg | Sources/MCP/Handlers/ToolHandler.swift:46 | A string argument is present exactly when the key maps to a `.string` value, and it is that value's text. |
| Values.IntArg | Sources/MCP/Handlers/ToolHandler.swift:36-39 | `limit` is present exactly when the key maps to an `.int` value, and it is that number. |
| Values.WrongTagIsAbsent | Sources/MCP/Handlers/ToolHandler.swift:67-86 | A value of the wrong tag counts as absent. No value is both a string and an integer argument. |
| Values.NoArgumentsIsEmptyMap | Sources/ContactbookCLI/MCP/ContactbookMCPServer.swift:39 | A missing argument map reads exactly like an empty one. |
| ToolHandler.ParseToolName | Sources/MCP/Handlers/ToolHandler.swift:11-30 | A name selects a tool only when it is that tool's name. |
| ToolHandler.ToolNameRoundTrip | Sources/MCP/Handlers/ToolHandler.swift:12-27 | Every tool is selected by its own name. |
| ToolHandler.ToolNameInjective | Sources/MCP/Handlers/ToolHandler.swift:12-27 | The eight tool names are pairwise distinct. |
| ToolHandler.RoutedNames | Sources/MCP/Handlers/ToolHandler.swift:11-30 | A name is routed exactly when it is the name of one of the eight tools. |
| ToolHandler.FindSpec | Sources/MCP/Handlers/ToolHandler.swift:174-313 | A descriptor lookup returns a descriptor of the table with that name. It finds none exactly when no descriptor has the name. |
| ToolHandler.FindSpecAt | Sources/MCP/Handlers/ToolHandler.swift:174-313 | The lookup returns the first descriptor with the name. |
| ToolHandler.SpecForTool | Sources/MCP/Handlers/ToolHandler.swift:174-313 | The descriptor looked up for each routed tool is the one at that tool's place in the table. |
| ToolHandler.AllToolsListsRoutedTools | Sources/MCP/Handlers/ToolHandler.swift:174-313 | `allTools` lists the eight routed tools in the order of the switch. |
| ToolHandler.RequiredIsGuarded | Sources/MCP/Handlers/ToolHandler.swift:197-310 | Each descriptor's `required` list holds exactly the argument its handler guards on: `query`, `id`, `id`, `id` and `name` for search, get, update, delete and members; none for the other three. |
| ToolHandler.AllToolsAgreeWithRoute | Sources/MCP/Handlers/ToolHandler.swift:174-313 | A name has a descriptor exactly when it is routed. A routed call is rejected exactly when a required argument of its descriptor is missing or not a string, and the error names that argument. |
| ToolHandler.RoutedToolAgrees | Sources/MCP/Handlers/ToolHandler.swift:46-48 | The same agreement as `AllToolsAgreeWithRoute`, stated for each routed tool. |
| ToolHandler.UnroutedHasNoSpec | Sources/MCP/Handlers/ToolHandler.swift:28-29 | A name outside the switch has no descriptor. |
| ToolHandler.MissingParameter | Sources/MCP/Handlers/ToolHandler.swift:55-57 | A missing required argument is an `invalidParams` error whose description is "Invalid parameters: Missing '<key>' parameter". |
| ToolHandler.UnknownTool | Sources/MCP/Handlers/ToolHandler.swift:29 | An unknown name is a `methodNotFound` error whose description is "Method not found: Unknown tool: <name>". |
| ToolHandler.ErrorDocument | Sources/MCP/Handlers/ToolHandler.swift:60 | An in-band error document carries its message between `{"error": "` and `"}`, and the message can be read back. |
| ToolHandler.EditArgs | Sources/MCP/Handlers/ToolHandler.swift:110-123 | The five optional property arguments are read only when they are strings. |
| ToolHandler.RouteTool | Sources/MCP/Handlers/ToolHandler.swift:35-158 | A handler rejects exactly when its guarded argument is missing or not a string, and with the error naming that argument. Otherwise each tool issues its own service request with the arguments read from the map: list passes the integer `limit` or none; search passes the query; get, update and delete pass the id; update also passes the five string-only property fields; members passes the group name; groups passes nothing. Create issues its request, with the five fields plus email and phone, exactly when a first name, last name or organization is present; otherwise it answers with the in-band names-required document. |
| ToolHandler.Route | Sources/MCP/Handlers/ToolHandler.swift:10-30 | A name outside the switch, and only such a name, fails with `methodNotFound("Unknown tool: <name>")`. A name in the switch goes to its own tool's handler. |
| ToolHandler.ToJSON | Sources/MCP/Handlers/ToolHandler.swift:162-170 | The encoder's text, or `{}` whenever encoding fails. It never fails itself. |
| ToolHandler.CreatedDocumentRoundTrip | Sources/MCP/Handlers/ToolHandler.swift:102 | `{"id": "<id>", "success": true}` gives back exactly the id the service returned. |
| ToolHandler.SuccessDocumentRoundTrip | Sources/MCP/Handlers/ToolHandler.swift:134 | `{"success": <bool>}` gives back its Boolean. No in-band error document and not `{}` reads as one. |
| ToolHandler.ErrorDocumentsAreNotCreated | Sources/MCP/Handlers/ToolHandler.swift:89 | Neither in-band error document reads as a created document. |
| ToolHandler.ResponsesReadBack | Sources/MCP/Handlers/ToolHandler.swift:59-61 | A client reads back the service's answer from the response text: the created id, the Boolean of an update or delete, and the in-band not-found document for an unknown id. |
| ToolHandler.Perform | Sources/MCP/Handlers/ToolHandler.swift:41-157 | A request fails exactly when its service call fails, with that failure unchanged. Otherwise list, search and members answer the encoded contacts, groups the encoded groups, get the encoded contact or the not-found document when there is none, create the created document with the returned id, and update and delete the success document with the returned Boolean. |
| ToolHandler.Respond | Sources/MCP/Handlers/ToolHandler.swift:41-157 | Every success is exactly one text block. A call is rejected with a protocol error exactly when routing rejected it. An in-band answer is returned as is. An issued request fails exactly when the service failed, as `ServiceFailure` of that failure, and otherwise answers the request's response text. |
| ToolHandler.CallTool | Sources/MCP/Handlers/ToolHandler.swift:10-30 | Every success is one text block. An unknown name fails with `methodNotFound` before anything runs. A protocol error arises exactly when routing rejects. A routed request's service failure surfaces unchanged, and its success is the request's response text. |
| ToolHandler.ServiceFailureSurfaces | Sources/MCP/Handlers/ToolHandler.swift:41-157 | For every tool whose handler reaches the service, a failing service call is the result of `callTool`, unchanged. |
| ToolHandler.SearchAnswersMatches | Sources/MCP/Handlers/ToolHandler.swift:45-52 | A search with a string query answers the encoded matches of that query, or fails as the search failed. |
| ToolHandler.UnknownToolIgnoresBackend | Sources/MCP/Handlers/ToolHandler.swift:28-30 | An unknown tool fails the same way whatever the backend would have done. |
| ToolHandler.CreateWithoutNamesAnswersInBand | Sources/MCP/Handlers/ToolHandler.swift:88-90 | A create with no first name, last name or organization as a string answers `{"error": "At least firstName, lastName, or organization is required"}` in band and never reaches the service. |
| ToolHandler.CreateGuardChecksPresence | Sources/MCP/Handlers/ToolHandler.swift:88 | The create guard checks presence only: an empty first name is enough to reach the service. |
| ToolHandler.ListWithoutLimitUsesDefaultCap | Sources/MCP/Handlers/ToolHandler.swift:36-42 | Without an integer `limit`, the listing runs the request with the cap of 50 and answers with the encoded contacts. |
| ToolHandler.GetUnknownAnswersInBand | Sources/MCP/Handlers/ToolHandler.swift:59-61 | An unknown contact id gives a successful `{"error": "Contact not found"}`, not a thrown error. |
| ToolHandler.UpdateWithOnlyIdIsFalse | Sources/MCP/Handlers/ToolHandler.swift:105-134 | An update that passes only an id answers `{"success": false}` without running a script. |
| McpServer.Get | Sources/ContactbookCLI/MCP/ContactbookMCPServer.swift:65 | A map read is present exactly when the key is in the map. |
| McpServer.HandleToolCall | Sources/ContactbookCLI/MCP/ContactbookMCPServer.swift:37-61 | A name fails with `methodNotFound("Unknown tool: <name>")` exactly when the server's own `mcpTools` list does not advertise it. |
| McpServer.DefaultedLookup | Sources/ContactbookCLI/MCP/ContactbookMCPServer.swift:39 | Reading the defaulted map gives the same value as reading the optional map. |
| McpServer.DefaultedArgs | Sources/ContactbookCLI/MCP/ContactbookMCPServer.swift:95-114 | This server's typed argument reads agree with the other server's. |
| McpServer.HandlerAgrees | Sources/ContactbookCLI/MCP/ContactbookMCPServer.swift:63-186 | For each routed tool, this server's handler decides as the other server's. |
| McpServer.HandleToolCallAgrees | Sources/ContactbookCLI/MCP/ContactbookMCPServer.swift:41-60 | The duplicate dispatcher decides every call, names and arguments alike, exactly as `callTool` does. |
| McpServer.ServeToolCall | Sources/ContactbookCLI/MCP/ContactbookMCPServer.swift:27-32 | Once the server object is gone, the installed handler fails with `internalError("Server not initialized")`. Every success is one text block. |
| McpServer.ServeToolCallAgrees | Sources/ContactbookCLI/MCP/ContactbookMCPServer.swift:31 | While the server is alive, its handler gives exactly what the other server's `callTool` gives. |
| McpServer.McpToolsMatchSwitch | Sources/ContactbookCLI/MCP/ContactbookMCPServer.swift:200-243 | `mcpTools` lists the eight routed names in the order of the switch and of the other server's `allTools`. |
| McpServer.AdvertisedIffRouted | Sources/ContactbookCLI/MCP/ContactbookMCPServer.swift:41-58 | A name is advertised exactly when the dispatcher routes it. |

## Left out

- Running `osascript`: process spawning, pipes, the dispatch queue and the continuation are I/O and concurrency. The process is the uninterpreted `Backend.execute`, which gives an exit status and two optional pipe texts (absent when not UTF-8), or a launch failure.
- What the generated AppleScript does inside Contacts: the people loop, `whose name contains`, group lookup, the in-script `escapeJSON`, and saving. It runs in another process. `Service.Script` records only what Swift embeds in each script. The one exception is the list cap arithmetic, which is modelled in `Service.VisitedCount`, together with an assumption (`Service.PrintsVisitedRows`) that the output decodes to the visited rows.
- The JSON decoder and encoder, including sorted-key formatting, are foreign code. They are partial functions in `Parse.Decoder` and `ToolHandler.Encoder`.
- The `data(using: .utf8)` guards in the three parse functions are left out: a Swift string always converts to UTF-8, so they never fire.
- Actor isolation and the `shared` singletons are left out; they are concurrency and global access with no logic of their own.
- The command-line commands, the protocol SDK's `Server` and `StdioTransport` setup, and `Package.swift` are wiring, output and build configuration.
- The tool descriptors' descriptions and JSON schemas are left out, beyond each descriptor's name and its `required` list.
- The `Contact` and `ContactGroup` initialisers and the service file's own copies of those structs are the datatype constructors of `Models`. A constructor stores its arguments unchanged by definition.
- Integers are unbounded. Swift's 64-bit `Int` for the limit and member count never wraps in these operations.
- `Double` argument values are kept as a `real`. No operation reads them.
- The `.whitespaces` and `.whitespacesAndNewlines` sets follow Foundation's documented definitions: Unicode category Zs plus tab, then line feed through carriage return, NEL, and the line and paragraph separators.
- The dispatcher in Sources/MCP/Handlers/ToolHandler.swift calls the shared service of the `Core` library. That file is not part of this model. `Core`'s service is called through the same eight methods with the same labels as the command-line service in ContactsService.swift. The model assumes `Core`'s implementation behaves like the command-line service and models both dispatchers against the latter.
- The created-id document splices the id without JSON escaping. `ToolHandler.CreatedDocumentRoundTrip` reads the id back by position, which works for any id, but a strict JSON reader would not accept an id containing a double quote. Backend ids do not contain one, so this is not listed as a finding.
- Strings are sequences of Unicode code points. Swift compares `String` values by canonical equivalence, and `replacingOccurrences(of:with:)` searches non-literally, treating composed character sequences as units. So a `"` followed by a combining mark (U+0301) may be left unescaped by the source, while `Escape.EscapeQuotes` escapes it. Tool-name matching and every other string comparison are likewise modelled on code points.
- The service keeps the source's quote-only escaping (`Escape.EscapeQuotes`) in every generated request, so that the model does what the code does. The corrected escaping and its round trip are proved beside it (see Findings).

## Findings

| source | as written | input that shows it | evidently intended | confidence | as-written member | corrected member |
|---|---|---|---|---|---|---|
| Sources/ContactbookCLI/Services/ContactsService.swift:105 | Every user string is escaped by putting a backslash before each double quote only. The same code is at lines 176, 307 and 409 and in the create and update line builders. | The input `\` is spliced as `"\"`, so the backslash escapes the closing quote and the literal runs on. Inside a generated script the next `"` closes it, and the script text in between is misread as part of the string. The input `\"c"` closes the literal after one backslash, and `c"` then runs as script text. | Escape backslashes as well as quotes, so that any text reads back as itself | not executed | Escape.QuoteEscapingLeavesLiteralOpen | Escape.EscapeLiteralRoundTrip |
