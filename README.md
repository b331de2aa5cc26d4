# McpToolsController, modelled in Dafny

This project models the command-to-tool adapter of Commandry's MCP server, `McpToolsController`.
The adapter makes the command host's commands available as tools of the Model Context Protocol. It has three jobs:

- **Discovery** (`ListToolsAsync`). It describes every command in host enumeration order. It keeps the commands whose
  metadata carries the property `Role` = `"MCP tool"` and builds one `Tool` for each. A describe call or a schema
  translation that throws aborts the whole listing.
- **Invocation** (`CallToolAsync`). It validates the tool name, looks the command up, describes it and sets its
  parameter bag. It then executes the command, rethrows the error left in its result, and maps the result's records to
  content items. One catch-all handler turns any failure into a single text item `"Error: <message>"`.
- **Change forwarding** (constructor). It subscribes the controller's tool monitor to the host's "commands changed"
  event.

The modules follow the program's structure:

- `Wrappers` (wrappers.dfy) holds `Option`, and `Result`/`Outcome`, which stand in for thrown exceptions. A
  failure carries the exception's `Message`.
- `Monitoring` (monitoring.dfy) holds `PrimitiveMonitor`, the tool monitor. It is reduced to a count of the
  `NotifyChanged` calls it receives.
- `Hosting` (hosting.dfy) holds the command host's side. `CommandMetadata` has a name, an optional title and
  description, a `map<string, string>` of properties and a schema. A record is `Null`, `Dict` or `Scalar`. It
  also holds `CommandResult`, a `Command` class and a `CommandHost` class. A command's describe outcome and
  execution behaviour are fixed when it is registered. Its parameter bag and result are fields that invocation
  overwrites. The host keeps its commands in order, along with the monitors subscribed to its change event.
- `Protocol` (protocol.dfy) holds the MCP types the adapter builds (`Tool`, `ToolAnnotations`, `Content`, the
  call request and response) and `McpToolsMapper`. The mapper's `ToJsonSchema`, `ToParameters` and `ToContent`
  are arbitrary functions, each of which may fail. `ToParameters` may also return null.
- `McpTools` (mcp_tools_controller.dfy) holds the controller class and the functions that specify it.
  `ListToolsSpec` is the listing. `Attempt` is the body of the try block. `CallToolSpec` is the response.
  `ContentItems` is the `Where`/`Select` pipeline.
- `McpToolsProperties` (mcp_tools_properties.dfy) holds reference definitions, such as the marked metadata and the
  non-null records. It also holds the lemmas connecting them to the specification, and a client method for change
  forwarding.

`ListTools` is a loop proved against `ListToolsSpec`. `CallTool` changes the target command's parameter bag and
result, and is proved against `CallToolSpec`. Its postconditions give the new state of every command.

In these places the code's behaviour is stated explicitly; the model follows the code:

- The response's error flag is false in every response, including every error response. The catch block leaves it at
  its default. On the success path it is computed after a non-null result error has already been rethrown.
  `ErrorFlagNeverSet` proves this.
- Invocation never consults the `Role` marker. A command that is not advertised can still be called by its name
  (`UnmarkedCommandsAreCallable`).
- Cancellation is not told apart from other failures. The catch-all handler turns it into an error item like any other
  exception.
- Tool names in one listing are unique only when no two marked commands produce the same name. A `Name` override can
  collide with another command's name, so distinct registered names do not prevent this
  (`NameOverridesCanCollide`).
- A tool is listed under its `Name` override, but invocation passes the requested name to the host's lookup unchanged.
  A renamed tool can therefore be called by its advertised name only if `GetCommand` resolves the override. With lookup
  by registered name, as modelled, it cannot (`RenamedToolNotFound`). A tool listed under its metadata name is called on
  the command registered under that name (`ListedNameReachesCommand`).
- The annotation title is the metadata's `Title` field, not a property.

## Model

| member | source | states |
|---|---|---|
| McpTools.ToolFor | src/Commandry.Mcp/Tools/McpToolsController.cs:34-47 | the tool fails exactly when schema translation fails, with its message; the name is the `Name` property when present, otherwise the metadata name; the description and translated schema are carried over; the title is the metadata title, otherwise the name; each of the four hints is true exactly when its same-named property is present and equals "True" |
| McpTools.McpToolsController.ListTools | src/Commandry.Mcp/Tools/McpToolsController.cs:25-54 | the listing loop returns exactly the listing specified over the descriptions of the host's commands in enumeration order, including its first failure |
| McpTools.ListToolsFailureIsFinal | src/Commandry.Mcp/Tools/McpToolsController.cs:29-31 | once a prefix of the commands has failed, the listing of all commands is that same failure, so no partial list is returned |
| McpTools.ListToolsSpec | src/Commandry.Mcp/Tools/McpToolsController.cs:29-50 | the listing as a value: the marked commands' tools in order, or the first failure; a successful listing holds at most one tool per command |
| McpToolsProperties.ListToolsSuccess | src/Commandry.Mcp/Tools/McpToolsController.cs:29-50 | a successful listing means every describe succeeded; it holds exactly one tool per marked command, in enumeration order, and each one is that command's tool |
| McpToolsProperties.ListToolsFailure | src/Commandry.Mcp/Tools/McpToolsController.cs:29-38 | the listing fails if and only if some command's describe fails or a marked command's schema translation fails; the message is that of the first such command |
| McpToolsProperties.Marked | src/Commandry.Mcp/Tools/McpToolsController.cs:32 | the filtered metadata are all marked and no more numerous than the input |
| McpToolsProperties.MarkedMembers | src/Commandry.Mcp/Tools/McpToolsController.cs:32 | a command's metadata survives the filter if and only if it carries Role = "MCP tool" |
| McpToolsProperties.MarkedAppend | src/Commandry.Mcp/Tools/McpToolsController.cs:29-50 | the filter distributes over concatenation, so tools keep host order |
| McpToolsProperties.MarkerIsRoleProperty | src/Commandry.Mcp/Tools/McpToolsController.cs:32 | unfolds the marker predicate: it is exactly the property "Role" with text "MCP tool" |
| McpToolsProperties.HintsIndependent | src/Commandry.Mcp/Tools/McpToolsController.cs:42-45 | changing any other property leaves each hint as it was |
| McpToolsProperties.NameOverridesCanCollide | src/Commandry.Mcp/Tools/McpToolsController.cs:36 | two marked commands "a" and "b", where b has Name = "a", are listed as two tools both named "a" |
| McpToolsProperties.RenamedToolNotFound | src/Commandry.Mcp/Tools/McpToolsController.cs:36-68 | command "a" whose metadata has Name = "x" is listed as one tool named "x", and calling "x" gives "Error: Tool x was not found" when lookup goes by registered name |
| McpToolsProperties.ListedNameReachesCommand | src/Commandry.Mcp/Tools/McpToolsController.cs:36-66 | a tool listed under its metadata name (no Name override) is called on the first command registered under that name |
| Hosting.Find | src/Commandry.Mcp/Tools/McpToolsController.cs:66-68 | lookup gives null exactly when no command has the name; otherwise it gives the first command with that name |
| Hosting.Command.Describe | src/Commandry.Mcp/Tools/McpToolsController.cs:31 | stands for `DescribeAsync`: it yields the describe outcome fixed when the command was registered; it claims no property |
| McpTools.Target | src/Commandry.Mcp/Tools/McpToolsController.cs:62-66 | the command a request reaches: null for a missing or blank name, otherwise the host's lookup of the name as given |
| McpTools.McpToolsController.CallTool | src/Commandry.Mcp/Tools/McpToolsController.cs:56-112 | the response is the specified response. The target command's parameter bag becomes the mapped parameters (empty for null), and its result becomes the execution's result. Both are left unchanged when an earlier step failed, and every other command is unchanged |
| Hosting.Command.Execute | src/Commandry.Mcp/Tools/McpToolsController.cs:74-76 | a throwing execution reports its message and leaves the result; a successful one replaces the result |
| McpToolsProperties.MissingNameResponse | src/Commandry.Mcp/Tools/McpToolsController.cs:62-63 | a null request, null name or white-space-only name gives exactly the item "Error: Tool name is missing", whatever the host holds, and no command is targeted |
| McpTools.IsWhiteSpace | src/Commandry.Mcp/Tools/McpToolsController.cs:62 | the characters .NET `Char.IsWhiteSpace` accepts: U+0009 to U+000D, U+0085, and the Unicode space, line and paragraph separators |
| McpTools.IsNullOrWhiteSpace | src/Commandry.Mcp/Tools/McpToolsController.cs:62 | `string.IsNullOrWhiteSpace`: null, or every character white space (so the empty string too) |
| McpTools.Binding | src/Commandry.Mcp/Tools/McpToolsController.cs:70-71 | describing the command and mapping its arguments; it succeeds only when both the describe call and `ToParameters` succeed (a null mapping becoming an empty bag is `NullParametersAreEmpty`) |
| McpTools.Attempt | src/Commandry.Mcp/Tools/McpToolsController.cs:60-101 | the try block as a value: the content list, or the message of the exception it throws; it succeeds only for a request whose name reaches a registered command |
| McpTools.CallToolSpec | src/Commandry.Mcp/Tools/McpToolsController.cs:56-112 | the response: the content list with the flag false, or the catch block's single error item |
| McpTools.ErrorResponse | src/Commandry.Mcp/Tools/McpToolsController.cs:105-108 | the catch block's response: one "text" item reading "Error: " followed by the message, the error flag at its default |
| McpTools.ContentFor | src/Commandry.Mcp/Tools/McpToolsController.cs:84-94 | the `Select` lambda: a dictionary record through `ToContent`, any other record as a "text" item of its text |
| McpTools.ContentItems | src/Commandry.Mcp/Tools/McpToolsController.cs:80-99 | the `Where`/`Select` pipeline materialised in order: a successful mapping has no more items than records, and records that are all null give no content |
| McpToolsProperties.MissingNames | src/Commandry.Mcp/Tools/McpToolsController.cs:62 | examples pinning the white-space table: null, "", and a name of space, tab, carriage return, line feed, U+00A0 and U+3000 are rejected; " x " is not |
| McpToolsProperties.UnknownToolResponse | src/Commandry.Mcp/Tools/McpToolsController.cs:65-68 | a valid name N that no command has gives exactly the item "Error: Tool N was not found" |
| McpToolsProperties.NonBlankNamesReachLookup | src/Commandry.Mcp/Tools/McpToolsController.cs:62-66 | a name holding a character that is not white space passes validation and is looked up as given |
| McpToolsProperties.FailureResponse | src/Commandry.Mcp/Tools/McpToolsController.cs:103-108 | every failure gives exactly one content item; it has type "text", reads "Error: " followed by the message, and the error flag is false |
| McpToolsProperties.CommandFailures | src/Commandry.Mcp/Tools/McpToolsController.cs:70-95 | describe, `ToParameters`, execution, a non-null result error, and a throwing `ToContent` each give the error response carrying that step's message |
| McpToolsProperties.NullParametersAreEmpty | src/Commandry.Mcp/Tools/McpToolsController.cs:71 | unfolds `Binding`: a null `ToParameters` result gives the command an empty parameter bag |
| McpToolsProperties.SuccessResponse | src/Commandry.Mcp/Tools/McpToolsController.cs:76-101 | on success the error flag is false, and a null result gives no content. Otherwise the result has no error, and the content has one item per non-null record, in order: dictionaries via `ToContent` and any other record as a "text" item holding its text |
| McpToolsProperties.NonNull | src/Commandry.Mcp/Tools/McpToolsController.cs:81 | the filtered records are all non-null and no more numerous than the input |
| McpToolsProperties.NonNullMembers | src/Commandry.Mcp/Tools/McpToolsController.cs:81 | a record survives the filter if and only if it is not null |
| McpToolsProperties.ContentItemsSuccess | src/Commandry.Mcp/Tools/McpToolsController.cs:80-95 | a successful mapping has exactly one item per non-null record, in order; a dictionary maps through `ToContent` and any other record to a "text" item of its text |
| McpToolsProperties.ContentItemsFailure | src/Commandry.Mcp/Tools/McpToolsController.cs:80-95 | the mapping fails if and only if some dictionary record's `ToContent` fails, and then with the first such message |
| McpToolsProperties.ErrorFlagNeverSet | src/Commandry.Mcp/Tools/McpToolsController.cs:97-108 | the response's error flag is false in every response |
| McpToolsProperties.UnmarkedCommandsAreCallable | src/Commandry.Mcp/Tools/McpToolsController.cs:65-74 | a command found by name that lacks the Role marker is still executed: a throwing run gives its error response, a null result gives empty content, and a result without error whose records map gives those items, flag false |
| McpTools.McpToolsController.constructor | src/Commandry.Mcp/Tools/McpToolsController.cs:13-21 | the controller gets a fresh monitor with no notifications, and that monitor is appended to the host's event subscribers; the host's commands are unchanged |
| Hosting.CommandHost.RaiseCommandsChanged | src/Commandry.Mcp/Tools/McpToolsController.cs:18 | one event notifies each subscribed monitor once per subscription |
| Hosting.CommandHost.WatchCommands | src/Commandry.Mcp/Tools/McpToolsController.cs:18 | subscribing appends the monitor to the host's subscribers |
| Monitoring.PrimitiveMonitor.NotifyChanged | src/Commandry.Mcp/Tools/McpToolsController.cs:18 | a notification adds exactly one to the monitor's count |
| McpToolsProperties.ForwardChanges | src/Commandry.Mcp/Tools/McpToolsController.cs:18 | after the host fires N change events, the new controller's monitor has been notified exactly N times |

## Left out

- Asynchrony, `ValueTask` and `CancellationToken`: describe and execute are synchronous steps that may fail. Cancellation is one more failure, because the code's catch-all handler does not single it out.
- `ILogger`: the logger assignment (line 72) is not modelled, because nothing in the adapter reads it back.
- A command's lookup name (the name it is registered under) and the name in its metadata are independent in the model: nothing ties the two together, and the host's registry is not required to keep names unique.
- Concurrency: two calls sharing one mutable command object are not modelled. Each call runs to completion before the next.
- The internals of `McpToolsMapper`, `CommandHost`, `Command` and `McpPrimitiveMonitor`, which are not part of this model. `HasProperty` is modelled as an exact match in a string map, and `GetProperty` gives the property's text, or null when it is absent. `GetCommand` is the first command registered under the name. The monitor is a notification counter.
- A failed execution is assumed to leave the command's previous result in place. The controller never reads the result on that path.
- A non-null result whose `Records` is null, which would make `Where` throw, is not modelled: records are always a sequence. A `ToContent` that returns null, which would put a null item in the content, is not modelled either. `CommandResult` is not part of this model, so whether `Records` can be null is not known.
- A record's `ToString` is the record's text. A `ToString` that returns null is not modelled.
- The MCP SDK's `Tool`, `Content`, `CallToolResponse` and `ListToolsResult` are reduced to the fields the adapter sets.
- The `ToolMonitor` property (line 23) is the controller's `toolMonitor` field.
- `src/Commandry/Hosting/CommandDispatcher.cs` is not part of this model. Its `InvokeAsync` only returns the result of calling its argument.
