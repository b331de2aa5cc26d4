/** The command-to-tool adapter (`McpToolsController`): tool discovery, tool
    invocation behind one error boundary, and change forwarding. */
module McpTools {
  import opened Wrappers
  import opened Monitoring
  import opened Hosting
  import opened Protocol

  const RoleProperty := "Role"
  const McpToolRole := "MCP tool"
  /** `nameof(Tool.Name)`: the property that overrides a tool's name. */
  const NameProperty := "Name"
  /** `bool.TrueString`. */
  const TrueString := "True"
  const IdempotentHintProperty := "IdempotentHint"
  const DestructiveHintProperty := "DestructiveHint"
  const OpenWorldHintProperty := "OpenWorldHint"
  const ReadOnlyHintProperty := "ReadOnlyHint"

  const ToolNameMissing := "Tool name is missing"

  function ToolNotFound(name: string): string {
    "Tool " + name + " was not found"
  }

  /** The response built by the catch-all handler. Its error flag keeps its default. */
  function ErrorResponse(message: string): CallToolResponse {
    CallToolResponse([TextContent("Error: " + message)], false)
  }

  // ---------------------------------------------------------------- discovery

  /** The command is marked for exposure as a tool. */
  predicate IsMcpTool(metadata: CommandMetadata) {
    metadata.HasProperty(RoleProperty, McpToolRole)
  }

  /** The tool advertised for a marked command's metadata; fails when the schema
      translation throws. */
  function ToolFor(metadata: CommandMetadata, mapper: McpToolsMapper): (r: Result<Tool>)
    ensures r.Success? <==> mapper.toJsonSchema(metadata.schema).Success?
    ensures r.Failure? ==> r.error == mapper.toJsonSchema(metadata.schema).error
    ensures r.Success? ==>
      var tool := r.value;
      && (NameProperty in metadata.properties ==> tool.name == metadata.properties[NameProperty])
      && (NameProperty !in metadata.properties ==> tool.name == metadata.name)
      && tool.description == metadata.description
      && tool.inputSchema == mapper.toJsonSchema(metadata.schema).value
      && (metadata.title.Some? ==> tool.annotations.title == metadata.title.value)
      && (metadata.title.None? ==> tool.annotations.title == metadata.name)
      && (tool.annotations.idempotentHint <==>
            IdempotentHintProperty in metadata.properties && metadata.properties[IdempotentHintProperty] == "True")
      && (tool.annotations.destructiveHint <==>
            DestructiveHintProperty in metadata.properties && metadata.properties[DestructiveHintProperty] == "True")
      && (tool.annotations.openWorldHint <==>
            OpenWorldHintProperty in metadata.properties && metadata.properties[OpenWorldHintProperty] == "True")
      && (tool.annotations.readOnlyHint <==>
            ReadOnlyHintProperty in metadata.properties && metadata.properties[ReadOnlyHintProperty] == "True")
  {
    match mapper.toJsonSchema(metadata.schema)
    case Failure(e) => Failure(e)
    case Success(inputSchema) =>
      Success(Tool(
        name := metadata.GetProperty(NameProperty).GetOr(metadata.name),
        description := metadata.description,
        inputSchema := inputSchema,
        annotations := ToolAnnotations(
          title := metadata.title.GetOr(metadata.name),
          idempotentHint := metadata.HasProperty(IdempotentHintProperty, TrueString),
          destructiveHint := metadata.HasProperty(DestructiveHintProperty, TrueString),
          openWorldHint := metadata.HasProperty(OpenWorldHintProperty, TrueString),
          readOnlyHint := metadata.HasProperty(ReadOnlyHintProperty, TrueString))))
  }

  /** What describing each command gives, in host enumeration order. */
  function Descriptions(commands: seq<Command>): seq<Result<CommandMetadata>> {
    seq(|commands|, i requires 0 <= i < |commands| => commands[i].describe)
  }

  /** The listing the discovery loop builds from the commands' descriptions:
      the marked commands' tools in order, or the first failure met. */
  function ListToolsSpec(described: seq<Result<CommandMetadata>>, mapper: McpToolsMapper): (r: Result<seq<Tool>>)
    ensures r.Success? ==> |r.value| <= |described|
  {
    if described == [] then Success([])
    else
      var n := |described| - 1;
      match ListToolsSpec(described[..n], mapper)
      case Failure(e) => Failure(e)
      case Success(tools) =>
        match described[n]
        case Failure(e) => Failure(e)
        case Success(metadata) =>
          if !IsMcpTool(metadata) then Success(tools)
          else
            match ToolFor(metadata, mapper)
            case Failure(e) => Failure(e)
            case Success(tool) => Success(tools + [tool])
  }

  /** Once a prefix of the commands has failed, describing more commands does not
      change the outcome: no partial list is ever returned. */
  lemma {:induction false} ListToolsFailureIsFinal(described: seq<Result<CommandMetadata>>, k: nat, mapper: McpToolsMapper)
    requires k <= |described| && ListToolsSpec(described[..k], mapper).Failure?
    ensures ListToolsSpec(described, mapper) == ListToolsSpec(described[..k], mapper)
    decreases |described| - k
  {
    if k < |described| {
      var n := |described| - 1;
      assert described[..n][..k] == described[..k];
      ListToolsFailureIsFinal(described[..n], k, mapper);
    } else {
      assert described[..k] == described;
    }
  }

  // ---------------------------------------------------------------- invocation

  /** .NET `Char.IsWhiteSpace`: the Unicode space, line and paragraph separators,
      U+0009 to U+000D and U+0085. */
  predicate IsWhiteSpace(c: char) {
    var n := c as int;
    || 0x09 <= n <= 0x0D || n == 0x20 || n == 0x85 || n == 0xA0 || n == 0x1680
    || 0x2000 <= n <= 0x200A || n == 0x2028 || n == 0x2029 || n == 0x202F
    || n == 0x205F || n == 0x3000
  }

  /** `string.IsNullOrWhiteSpace`. */
  predicate IsNullOrWhiteSpace(s: Option<string>) {
    s.None? || forall i :: 0 <= i < |s.value| ==> IsWhiteSpace(s.value[i])
  }

  /** `request?.Name`. */
  function RequestName(request: Option<CallToolRequest>): Option<string> {
    if request.Some? then request.value.name else None
  }

  /** `request?.Arguments`. */
  function RequestArguments(request: Option<CallToolRequest>): Option<Arguments> {
    if request.Some? then request.value.arguments else None
  }

  /** The command a request reaches: null when the name is missing or unknown. */
  function Target(request: Option<CallToolRequest>, commands: seq<Command>): Command? {
    var name := RequestName(request);
    if IsNullOrWhiteSpace(name) then null else Find(commands, name.value)
  }

  /** Describing the command and mapping the request's arguments: the parameter
      bag it is given (an empty one when the mapper gives null), or the failure. */
  function Binding(command: Command, request: Option<CallToolRequest>, mapper: McpToolsMapper): (r: Result<Parameters>)
    ensures r.Success? ==> command.describe.Success? &&
                           mapper.toParameters(RequestArguments(request), command.describe.value.schema).Success?
  {
    match command.describe
    case Failure(e) => Failure(e)
    case Success(metadata) =>
      match mapper.toParameters(RequestArguments(request), metadata.schema)
      case Failure(e) => Failure(e)
      case Success(parameters) => Success(parameters.GetOr(map[]))
  }

  /** The content item for one non-null record. */
  function ContentFor(record: Record, mapper: McpToolsMapper): Result<Content>
    requires !record.Null?
  {
    match record
    case Dict(entries) => mapper.toContent(entries)
    case Scalar(text) => Success(TextContent(text))
  }

  /** The `Where`/`Select` pipeline materialised in order: null records dropped,
      the rest mapped, and the first throwing `ToContent` ends it. */
  function ContentItems(records: seq<Record>, mapper: McpToolsMapper): (r: Result<seq<Content>>)
    ensures r.Success? ==> |r.value| <= |records|
    ensures (forall i :: 0 <= i < |records| ==> records[i].Null?) ==> r == Success([])
  {
    if records == [] then Success([])
    else if records[0].Null? then ContentItems(records[1..], mapper)
    else
      match ContentFor(records[0], mapper)
      case Failure(e) => Failure(e)
      case Success(item) =>
        match ContentItems(records[1..], mapper)
        case Failure(e) => Failure(e)
        case Success(items) => Success([item] + items)
  }

  /** The body of the try block: the content list it returns, or the message of
      the exception it throws. */
  function Attempt(request: Option<CallToolRequest>, commands: seq<Command>, mapper: McpToolsMapper): (r: Result<seq<Content>>)
    ensures r.Success? ==> Target(request, commands) != null
  {
    var name := RequestName(request);
    if IsNullOrWhiteSpace(name) then Failure(ToolNameMissing)
    else
      var command := Find(commands, name.value);
      if command == null then Failure(ToolNotFound(name.value))
      else
        match Binding(command, request, mapper)
        case Failure(e) => Failure(e)
        case Success(parameters) =>
          match command.run(parameters)
          case Failure(e) => Failure(e)
          case Success(None) => Success([])
          case Success(Some(commandResult)) =>
            if commandResult.error.Some? then Failure(commandResult.error.value)
            else ContentItems(commandResult.records, mapper)
  }

  /** The response `CallToolAsync` returns. */
  function CallToolSpec(request: Option<CallToolRequest>, commands: seq<Command>, mapper: McpToolsMapper): CallToolResponse {
    match Attempt(request, commands, mapper)
    case Success(items) => CallToolResponse(items, false)
    case Failure(e) => ErrorResponse(e)
  }

  // ---------------------------------------------------------------- the controller

  class McpToolsController {
    const host: CommandHost
    const mapper: McpToolsMapper
    const toolMonitor: PrimitiveMonitor

    /** Subscribes the controller's own, new monitor to the host's "commands changed" event. */
    constructor (commandHost: CommandHost, toolMapper: McpToolsMapper)
      modifies commandHost
      ensures host == commandHost && mapper == toolMapper
      ensures fresh(toolMonitor) && toolMonitor.changes == 0
      ensures commandHost.watchers == old(commandHost.watchers) + [toolMonitor]
      ensures commandHost.commands == old(commandHost.commands)
    {
      toolMonitor := new PrimitiveMonitor();
      host := commandHost;
      mapper := toolMapper;
      new;
      commandHost.WatchCommands(toolMonitor);
    }

    /** Describes every command in order and advertises the marked ones; the first
        failure aborts the whole listing. */
    method ListTools() returns (r: Result<seq<Tool>>)
      ensures r == ListToolsSpec(Descriptions(host.commands), mapper)
    {
      var commands := host.commands;
      var tools: seq<Tool> := [];
      var i := 0;
      while i < |commands|
        invariant 0 <= i <= |commands|
        invariant ListToolsSpec(Descriptions(commands)[..i], mapper) == Success(tools)
      {
        assert Descriptions(commands)[..i + 1][..i] == Descriptions(commands)[..i];
        var metadata := commands[i].Describe();
        if metadata.Failure? {
          ListToolsFailureIsFinal(Descriptions(commands), i + 1, mapper);
          return Failure(metadata.error);
        }
        if IsMcpTool(metadata.value) {
          var tool := ToolFor(metadata.value, mapper);
          if tool.Failure? {
            ListToolsFailureIsFinal(Descriptions(commands), i + 1, mapper);
            return Failure(tool.error);
          }
          tools := tools + [tool.value];
        }
        i := i + 1;
      }
      assert Descriptions(commands)[..i] == Descriptions(commands);
      return Success(tools);
    }

    /** Validates the name, looks the command up, describes it, sets its parameters,
        executes it and maps its records; any failure becomes a single error item. */
    method CallTool(request: Option<CallToolRequest>) returns (response: CallToolResponse)
      modifies host.commands
      ensures response == CallToolSpec(request, host.commands, mapper)
      ensures var target := Target(request, host.commands);
        target != null ==>
          match Binding(target, request, mapper)
          case Failure(_) =>
            target.parameters == old(target.parameters) && target.result == old(target.result)
          case Success(parameters) =>
            && target.parameters == parameters
            && target.result == (if target.run(parameters).Success? then target.run(parameters).value
                                 else old(target.result))
      ensures forall c :: c in host.commands && c != Target(request, host.commands) ==>
        c.parameters == old(c.parameters) && c.result == old(c.result)
    {
      var name := RequestName(request);
      if IsNullOrWhiteSpace(name) {
        return ErrorResponse(ToolNameMissing);
      }
      var commandName := name.value;
      var command := host.GetCommand(commandName);
      if command == null {
        return ErrorResponse(ToolNotFound(commandName));
      }
      var metadata := command.Describe();
      if metadata.Failure? {
        return ErrorResponse(metadata.error);
      }
      var parameters := mapper.toParameters(RequestArguments(request), metadata.value.schema);
      if parameters.Failure? {
        return ErrorResponse(parameters.error);
      }
      command.parameters := parameters.value.GetOr(map[]);
      var executed := command.Execute();
      if executed.Fail? {
        return ErrorResponse(executed.error);
      }
      var commandResult := command.result;
      if commandResult.Some? && commandResult.value.error.Some? {
        return ErrorResponse(commandResult.value.error.value);
      }
      var results: Option<seq<Content>> := None;
      if commandResult.Some? {
        var items := ContentItems(commandResult.value.records, mapper);
        if items.Failure? {
          return ErrorResponse(items.error);
        }
        results := Some(items.value);
      }
      response := CallToolResponse(
        content := if results.Some? then results.value else [],
        isError := commandResult.Some? && commandResult.value.error.Some?);
    }
  }
}
