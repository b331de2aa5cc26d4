/** What the adapter promises, proved about the specification functions of
    module McpTools: the discovery filter and its order, the all-or-nothing
    listing, the error boundary of invocation, the record-to-content mapping,
    and change forwarding. */
module McpToolsProperties {
  import opened Wrappers
  import opened Monitoring
  import opened Hosting
  import opened Protocol
  import opened McpTools

  // ---------------------------------------------------------------- reference definitions

  /** The marked metadata, in order. */
  function Marked(metadata: seq<CommandMetadata>): (r: seq<CommandMetadata>)
    ensures forall i :: 0 <= i < |r| ==> IsMcpTool(r[i])
    ensures |r| <= |metadata|
  {
    if metadata == [] then []
    else (if IsMcpTool(metadata[0]) then [metadata[0]] else []) + Marked(metadata[1..])
  }

  /** The metadata of a listing in which every describe call succeeded. */
  function Values(described: seq<Result<CommandMetadata>>): (r: seq<CommandMetadata>)
    requires forall i :: 0 <= i < |described| ==> described[i].Success?
    ensures |r| == |described| && forall i :: 0 <= i < |described| ==> described[i] == Success(r[i])
  {
    seq(|described|, i requires 0 <= i < |described| => described[i].value)
  }

  /** The command at this position makes the listing throw: describing it fails,
      or it is marked and its schema cannot be translated. */
  predicate StepFails(d: Result<CommandMetadata>, mapper: McpToolsMapper) {
    d.Failure? || (IsMcpTool(d.value) && ToolFor(d.value, mapper).Failure?)
  }

  function StepError(d: Result<CommandMetadata>, mapper: McpToolsMapper): string
    requires StepFails(d, mapper)
  {
    if d.Failure? then d.error else ToolFor(d.value, mapper).error
  }

  /** The non-null records, in order. */
  function NonNull(records: seq<Record>): (r: seq<Record>)
    ensures forall i :: 0 <= i < |r| ==> !r[i].Null?
    ensures |r| <= |records|
  {
    if records == [] then []
    else (if records[0].Null? then [] else [records[0]]) + NonNull(records[1..])
  }

  /** This record makes the content mapping throw. */
  predicate RecordFails(record: Record, mapper: McpToolsMapper) {
    record.Dict? && mapper.toContent(record.entries).Failure?
  }

  // ---------------------------------------------------------------- discovery

  /** Filtering distributes over concatenation: the marked commands keep their order. */
  lemma {:induction false} MarkedAppend(a: seq<CommandMetadata>, b: seq<CommandMetadata>)
    ensures Marked(a + b) == Marked(a) + Marked(b)
  {
    if a != [] {
      assert (a + b)[1..] == a[1..] + b;
      MarkedAppend(a[1..], b);
    } else {
      assert a + b == b;
    }
  }

  /** A command's metadata is among the marked ones exactly when it carries Role = "MCP tool". */
  lemma {:induction false} MarkedMembers(metadata: seq<CommandMetadata>, m: CommandMetadata)
    ensures m in Marked(metadata) <==> m in metadata && IsMcpTool(m)
  {
    if metadata != [] {
      MarkedMembers(metadata[1..], m);
      assert metadata == [metadata[0]] + metadata[1..];
    }
  }

  /** The marker is exactly the property Role with the text "MCP tool". */
  lemma MarkerIsRoleProperty(metadata: CommandMetadata)
    ensures IsMcpTool(metadata) <==> "Role" in metadata.properties && metadata.properties["Role"] == "MCP tool"
  {
  }

  /** A successful listing: every command was described, and the tools are those
      of the marked commands, one each, in host enumeration order. */
  lemma {:induction false} ListToolsSuccess(described: seq<Result<CommandMetadata>>, mapper: McpToolsMapper, tools: seq<Tool>)
    requires ListToolsSpec(described, mapper) == Success(tools)
    ensures forall i :: 0 <= i < |described| ==> described[i].Success?
    ensures |tools| == |Marked(Values(described))|
    ensures forall j :: 0 <= j < |tools| ==> ToolFor(Marked(Values(described))[j], mapper) == Success(tools[j])
  {
    if described != [] {
      var n := |described| - 1;
      var prefix := described[..n];
      var previous := ListToolsSpec(prefix, mapper).value;
      ListToolsSuccess(prefix, mapper, previous);
      assert described == prefix + [described[n]];
      assert Values(described) == Values(prefix) + [described[n].value];
      MarkedAppend(Values(prefix), [described[n].value]);
    }
  }

  /** All or nothing: the listing fails exactly when some command fails, and then
      with the message of the first one that does. */
  lemma {:induction false} ListToolsFailure(described: seq<Result<CommandMetadata>>, mapper: McpToolsMapper)
    ensures ListToolsSpec(described, mapper).Failure? <==> exists i :: 0 <= i < |described| && StepFails(described[i], mapper)
    ensures ListToolsSpec(described, mapper).Failure? ==>
      exists i :: 0 <= i < |described| && StepFails(described[i], mapper) &&
                  StepError(described[i], mapper) == ListToolsSpec(described, mapper).error &&
                  forall j :: 0 <= j < i ==> !StepFails(described[j], mapper)
  {
    if described != [] {
      var n := |described| - 1;
      var prefix := described[..n];
      ListToolsFailure(prefix, mapper);
      assert forall i :: 0 <= i < n ==> described[i] == prefix[i];
      if ListToolsSpec(prefix, mapper).Failure? {
        var i :| 0 <= i < n && StepFails(prefix[i], mapper) &&
                 StepError(prefix[i], mapper) == ListToolsSpec(prefix, mapper).error &&
                 forall j :: 0 <= j < i ==> !StepFails(prefix[j], mapper);
        assert StepFails(described[i], mapper);
      } else {
        assert forall i :: 0 <= i < n ==> !StepFails(described[i], mapper);
        if StepFails(described[n], mapper) {
          assert StepError(described[n], mapper) == ListToolsSpec(described, mapper).error;
        }
      }
    }
  }

  /** Name overrides can collide: a marked command "b" whose Name property is "a"
      is listed under the same name as the marked command "a". */
  lemma NameOverridesCanCollide(mapper: McpToolsMapper)
    requires mapper.toJsonSchema(map[]).Success?
    ensures var a := CommandMetadata("a", None, None, map[RoleProperty := McpToolRole], map[]);
            var b := CommandMetadata("b", None, None, map[RoleProperty := McpToolRole, NameProperty := "a"], map[]);
            var listing := ListToolsSpec([Success(a), Success(b)], mapper);
            listing.Success? && |listing.value| == 2 && listing.value[0].name == "a" && listing.value[1].name == "a"
  {
    var a := CommandMetadata("a", None, None, map[RoleProperty := McpToolRole], map[]);
    var b := CommandMetadata("b", None, None, map[RoleProperty := McpToolRole, NameProperty := "a"], map[]);
    var described := [Success(a), Success(b)];
    var first := [Success(a)];
    assert described[..1] == first;
    assert first[..0] == [];
    var toolA := ToolFor(a, mapper).value;
    assert ListToolsSpec(first, mapper) == Success([] + [toolA]);
    assert [] + [toolA] == [toolA];
  }

  /** Each hint depends on its own property and on nothing else. */
  lemma HintsIndependent(metadata: CommandMetadata, key: string, value: string, mapper: McpToolsMapper)
    requires ToolFor(metadata, mapper).Success?
    ensures var before := ToolFor(metadata, mapper).value.annotations;
            var after := ToolFor(metadata.(properties := metadata.properties[key := value]), mapper).value.annotations;
            && (key != IdempotentHintProperty ==> after.idempotentHint == before.idempotentHint)
            && (key != DestructiveHintProperty ==> after.destructiveHint == before.destructiveHint)
            && (key != OpenWorldHintProperty ==> after.openWorldHint == before.openWorldHint)
            && (key != ReadOnlyHintProperty ==> after.readOnlyHint == before.readOnlyHint)
  {
  }

  // ---------------------------------------------------------------- record-to-content mapping

  /** A record survives the filter exactly when it is not null. */
  lemma {:induction false} NonNullMembers(records: seq<Record>, r: Record)
    ensures r in NonNull(records) <==> r in records && !r.Null?
  {
    if records != [] {
      NonNullMembers(records[1..], r);
      assert records == [records[0]] + records[1..];
    }
  }

  /** A successful mapping holds one item per non-null record, in order: a dictionary
      through `ToContent`, anything else as a "text" item holding its text. */
  lemma {:induction false} ContentItemsSuccess(records: seq<Record>, mapper: McpToolsMapper, items: seq<Content>)
    requires ContentItems(records, mapper) == Success(items)
    ensures |items| == |NonNull(records)|
    ensures forall i :: 0 <= i < |items| ==>
      (NonNull(records)[i].Dict? ==> mapper.toContent(NonNull(records)[i].entries) == Success(items[i])) &&
      (NonNull(records)[i].Scalar? ==> items[i] == TextContent(NonNull(records)[i].text))
  {
    if records != [] {
      var rest := records[1..];
      if records[0].Null? {
        ContentItemsSuccess(rest, mapper, items);
      } else {
        var tail := ContentItems(rest, mapper).value;
        ContentItemsSuccess(rest, mapper, tail);
        assert items == [items[0]] + tail;
        assert NonNull(records) == [records[0]] + NonNull(rest);
      }
    }
  }

  /** The mapping fails exactly when some dictionary's `ToContent` throws, and then
      with the message of the first one. */
  lemma {:induction false} ContentItemsFailure(records: seq<Record>, mapper: McpToolsMapper)
    ensures ContentItems(records, mapper).Failure? <==> exists i :: 0 <= i < |records| && RecordFails(records[i], mapper)
    ensures ContentItems(records, mapper).Failure? ==>
      exists i :: 0 <= i < |records| && RecordFails(records[i], mapper) &&
                  mapper.toContent(records[i].entries).error == ContentItems(records, mapper).error &&
                  forall j :: 0 <= j < i ==> !RecordFails(records[j], mapper)
  {
    if records != [] {
      var rest := records[1..];
      ContentItemsFailure(rest, mapper);
      assert forall i :: 1 <= i < |records| ==> records[i] == rest[i - 1];
      if !RecordFails(records[0], mapper) && ContentItems(records, mapper).Failure? {
        var k :| 0 <= k < |rest| && RecordFails(rest[k], mapper) &&
                 mapper.toContent(rest[k].entries).error == ContentItems(rest, mapper).error &&
                 forall j :: 0 <= j < k ==> !RecordFails(rest[j], mapper);
        assert RecordFails(records[k + 1], mapper);
      }
    }
  }

  // ---------------------------------------------------------------- invocation

  /** A null request, a null name, or a name of only white space gives the single
      item "Error: Tool name is missing"; the host is not consulted. */
  lemma MissingNameResponse(request: Option<CallToolRequest>, commands: seq<Command>, others: seq<Command>, mapper: McpToolsMapper)
    requires request.None? || request.value.name.None? ||
             forall i :: 0 <= i < |request.value.name.value| ==> IsWhiteSpace(request.value.name.value[i])
    ensures CallToolSpec(request, commands, mapper) == CallToolResponse([TextContent("Error: Tool name is missing")], false)
    ensures CallToolSpec(request, commands, mapper) == CallToolSpec(request, others, mapper)
    ensures Target(request, commands) == null
  {
    assert "Error: " + ToolNameMissing == "Error: Tool name is missing";
  }

  /** The names rejected as missing: null, empty, and white space only. */
  lemma MissingNames()
    ensures IsNullOrWhiteSpace(None)
    ensures IsNullOrWhiteSpace(Some(""))
    ensures IsNullOrWhiteSpace(Some(" \t\r\n\U{00A0}\U{3000}"))
    ensures !IsNullOrWhiteSpace(Some(" x "))
  {
    assert !IsWhiteSpace(" x "[1]);
  }

  /** A name with a character that is not white space passes validation and is
      looked up as given. */
  lemma NonBlankNamesReachLookup(name: string, arguments: Option<Arguments>, commands: seq<Command>)
    requires exists i :: 0 <= i < |name| && !IsWhiteSpace(name[i])
    ensures !IsNullOrWhiteSpace(Some(name))
    ensures Target(Some(CallToolRequest(Some(name), arguments)), commands) == Find(commands, name)
  {
  }

  /** An unknown name N gives the single item "Error: Tool N was not found". */
  lemma UnknownToolResponse(request: CallToolRequest, commands: seq<Command>, mapper: McpToolsMapper)
    requires request.name.Some? && !IsNullOrWhiteSpace(request.name)
    requires forall c :: c in commands ==> c.name != request.name.value
    ensures CallToolSpec(Some(request), commands, mapper) ==
            CallToolResponse([TextContent("Error: Tool " + request.name.value + " was not found")], false)
  {
    var name := request.name.value;
    assert "Error: " + ToolNotFound(name) == "Error: Tool " + name + " was not found" by {
      assert "Error: " + "Tool " == "Error: Tool ";
    }
  }

  /** Every failure inside the boundary, whatever its source, gives exactly one
      "text" item reading "Error: " followed by its message. */
  lemma FailureResponse(request: Option<CallToolRequest>, commands: seq<Command>, mapper: McpToolsMapper)
    requires Attempt(request, commands, mapper).Failure?
    ensures var response := CallToolSpec(request, commands, mapper);
            && |response.content| == 1
            && response.content[0].contentType == "text"
            && response.content[0].text == Some("Error: " + Attempt(request, commands, mapper).error)
            && !response.isError
  {
  }

  /** Where each failure message comes from, once the command is found: describing
      it, mapping the arguments, executing it, the error it leaves in its result,
      or a record's `ToContent`. */
  lemma CommandFailures(request: CallToolRequest, commands: seq<Command>, mapper: McpToolsMapper)
    requires Target(Some(request), commands) != null
    ensures var command := Target(Some(request), commands);
            var response := CallToolSpec(Some(request), commands, mapper);
            && (command.describe.Failure? ==> response == ErrorResponse(command.describe.error))
            && (command.describe.Success? &&
                mapper.toParameters(request.arguments, command.describe.value.schema).Failure? ==>
                  response == ErrorResponse(mapper.toParameters(request.arguments, command.describe.value.schema).error))
            && (Binding(command, Some(request), mapper).Success? ==>
                  var run := command.run(Binding(command, Some(request), mapper).value);
                  && (run.Failure? ==> response == ErrorResponse(run.error))
                  && (run.Success? && run.value.Some? && run.value.value.error.Some? ==>
                        response == ErrorResponse(run.value.value.error.value))
                  && (run.Success? && run.value.Some? && run.value.value.error.None? &&
                      ContentItems(run.value.value.records, mapper).Failure? ==>
                        response == ErrorResponse(ContentItems(run.value.value.records, mapper).error)))
  {
  }

  /** A null parameter mapping gives the command an empty parameter bag. */
  lemma NullParametersAreEmpty(command: Command, request: Option<CallToolRequest>, mapper: McpToolsMapper)
    requires command.describe.Success?
    requires mapper.toParameters(RequestArguments(request), command.describe.value.schema) == Success(None)
    ensures Binding(command, request, mapper) == Success(map[])
  {
  }

  /** On success the content is one item per non-null record of the result, in
      order, and is empty when the command left a null result. */
  lemma SuccessResponse(request: Option<CallToolRequest>, commands: seq<Command>, mapper: McpToolsMapper)
    requires Attempt(request, commands, mapper).Success?
    ensures var command := Target(request, commands);
            command != null && Binding(command, request, mapper).Success? &&
            command.run(Binding(command, request, mapper).value).Success?
    ensures var command := Target(request, commands);
            var outcome := command.run(Binding(command, request, mapper).value).value;
            var content := CallToolSpec(request, commands, mapper).content;
            && !CallToolSpec(request, commands, mapper).isError
            && (outcome.None? ==> content == [])
            && (outcome.Some? ==>
                  && outcome.value.error.None?
                  && |content| == |NonNull(outcome.value.records)|
                  && forall i :: 0 <= i < |content| ==>
                       var record := NonNull(outcome.value.records)[i];
                       (record.Dict? ==> mapper.toContent(record.entries) == Success(content[i])) &&
                       (record.Scalar? ==> content[i] == TextContent(record.text)))
  {
    var command := Target(request, commands);
    var outcome := command.run(Binding(command, request, mapper).value).value;
    if outcome.Some? {
      ContentItemsSuccess(outcome.value.records, mapper, CallToolSpec(request, commands, mapper).content);
    }
  }

  /** The error flag is false in every response, the error responses included. */
  lemma ErrorFlagNeverSet(request: Option<CallToolRequest>, commands: seq<Command>, mapper: McpToolsMapper)
    ensures !CallToolSpec(request, commands, mapper).isError
  {
  }

  /** Invocation does not consult the Role marker: a command that is not advertised
      as a tool is still executed when called by name, and its response is the one
      its execution outcome gives. */
  lemma UnmarkedCommandsAreCallable(request: CallToolRequest, commands: seq<Command>, mapper: McpToolsMapper)
    requires Target(Some(request), commands) != null
    requires Target(Some(request), commands).describe.Success?
    requires !IsMcpTool(Target(Some(request), commands).describe.value)
    requires Binding(Target(Some(request), commands), Some(request), mapper).Success?
    ensures var command := Target(Some(request), commands);
            var run := command.run(Binding(command, Some(request), mapper).value);
            var response := CallToolSpec(Some(request), commands, mapper);
            && (run.Failure? ==> response == ErrorResponse(run.error))
            && (run == Success(None) ==> response == CallToolResponse([], false))
            && (run.Success? && run.value.Some? && run.value.value.error.None? &&
                ContentItems(run.value.value.records, mapper).Success? ==>
                  response == CallToolResponse(ContentItems(run.value.value.records, mapper).value, false))
  {
  }

  /** From listing to calling: a tool listed under its metadata name, with no Name
      override, is called on the first command registered under that name. */
  lemma ListedNameReachesCommand(metadata: CommandMetadata, commands: seq<Command>, k: nat,
                                 arguments: Option<Arguments>, mapper: McpToolsMapper)
    requires k < |commands| && commands[k].describe == Success(metadata)
    requires commands[k].name == metadata.name
    requires forall j :: 0 <= j < k ==> commands[j].name != metadata.name
    requires NameProperty !in metadata.properties && ToolFor(metadata, mapper).Success?
    requires !IsNullOrWhiteSpace(Some(metadata.name))
    ensures Target(Some(CallToolRequest(Some(ToolFor(metadata, mapper).value.name), arguments)), commands) == commands[k]
  {
  }

  /** A renamed tool is not reachable by its advertised name when lookup goes by the
      registered name: command "a" whose metadata has Name = "x" is listed as "x",
      and calling "x" finds no command. */
  lemma RenamedToolNotFound(command: Command, arguments: Option<Arguments>, mapper: McpToolsMapper)
    requires command.name == "a"
    requires command.describe == Success(CommandMetadata("a", None, None, map[RoleProperty := McpToolRole, NameProperty := "x"], map[]))
    requires mapper.toJsonSchema(map[]).Success?
    ensures var listing := ListToolsSpec(Descriptions([command]), mapper);
            listing.Success? && |listing.value| == 1 && listing.value[0].name == "x"
    ensures CallToolSpec(Some(CallToolRequest(Some("x"), arguments)), [command], mapper) ==
            ErrorResponse("Tool x was not found")
  {
    var described := Descriptions([command]);
    assert described == [command.describe];
    assert described[..0] == [];
    assert [] + [ToolFor(command.describe.value, mapper).value] == [ToolFor(command.describe.value, mapper).value];
    assert !IsWhiteSpace("x"[0]);
    assert Find([command], "x") == null;
    assert ToolNotFound("x") == "Tool x was not found";
  }

  // ---------------------------------------------------------------- change forwarding

  /** A client of the controller: after the host fires its "commands changed"
      event N times, the controller's monitor has been notified N times. */
  method ForwardChanges(host: CommandHost, mapper: McpToolsMapper, events: nat) returns (controller: McpToolsController)
    modifies host, host.watchers
    ensures fresh(controller) && fresh(controller.toolMonitor) && controller.host == host
    ensures host.watchers == old(host.watchers) + [controller.toolMonitor]
    ensures controller.toolMonitor.changes == events
  {
    controller := new McpToolsController(host, mapper);
    var monitor := controller.toolMonitor;
    assert monitor !in old(host.watchers);
    assert multiset(host.watchers)[monitor] == 1 by {
      assert host.watchers == old(host.watchers) + [monitor];
    }
    var k := 0;
    while k < events
      invariant 0 <= k <= events
      invariant host.watchers == old(host.watchers) + [monitor]
      invariant monitor.changes == k
    {
      host.RaiseCommandsChanged();
      k := k + 1;
    }
  }
}
