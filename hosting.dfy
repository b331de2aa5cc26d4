/** The command host and its commands: the collaborators the tool controller consumes.
    Their internals are not part of this model; each is reduced to the observable
    behaviour the controller relies on. */
module Hosting {
  import opened Wrappers
  import opened Monitoring

  /** A command's parameter schema: parameter name to declared type. */
  type Schema = map<string, string>

  /** The command's internal parameter bag. */
  type Parameters = map<string, string>

  /** A snapshot of what a command says about itself. */
  datatype CommandMetadata = CommandMetadata(
    name: string,
    title: Option<string>,
    description: Option<string>,
    properties: map<string, string>,
    schema: Schema)
  {
    /** The property `key` is present with exactly the text `value`. */
    predicate HasProperty(key: string, value: string) {
      key in properties && properties[key] == value
    }

    /** The text of property `key`, or null when it is absent. */
    function GetProperty(key: string): Option<string> {
      if key in properties then Some(properties[key]) else None
    }
  }

  /** One output record of a command: null, a dictionary, or any other object,
      represented by the text its `ToString` gives. */
  datatype Record = Null | Dict(entries: map<string, string>) | Scalar(text: string)

  /** What a command leaves in its `Result` after executing. */
  datatype CommandResult = CommandResult(error: Option<string>, records: seq<Record>)

  /** A registered command. What describing and executing it do is fixed when the
      command is registered (`describe`, `run`); the parameter bag and the result
      are the fields the controller overwrites on every invocation. */
  class Command {
    const name: string
    /** The outcome of `DescribeAsync`: metadata, or the exception's message. */
    const describe: Result<CommandMetadata>
    /** The outcome of `ExecuteAsync` for a given parameter bag: the result the
        command then holds (possibly null), or the exception's message. */
    const run: Parameters -> Result<Option<CommandResult>>

    var parameters: Parameters
    var result: Option<CommandResult>

    constructor (name: string, describe: Result<CommandMetadata>, run: Parameters -> Result<Option<CommandResult>>)
      ensures this.name == name && this.describe == describe && this.run == run
      ensures parameters == map[] && result == None
    {
      this.name := name;
      this.describe := describe;
      this.run := run;
      parameters := map[];
      result := None;
    }

    method Describe() returns (metadata: Result<CommandMetadata>)
      ensures metadata == describe
    {
      metadata := describe;
    }

    /** Runs the command on its current parameter bag. On success the command's
        result is replaced; when execution throws, the result is left as it was. */
    method Execute() returns (outcome: Outcome)
      modifies this`result
      ensures run(parameters).Failure? ==> outcome == Fail(run(parameters).error) && result == old(result)
      ensures run(parameters).Success? ==> outcome == Pass && result == run(parameters).value
    {
      match run(parameters)
      case Failure(e) =>
        outcome := Fail(e);
      case Success(r) =>
        result := r;
        outcome := Pass;
    }
  }

  /** Lookup by name: the first registered command with that name, or null. */
  function Find(commands: seq<Command>, name: string): (c: Command?)
    ensures c == null <==> forall x :: x in commands ==> x.name != name
    ensures c != null ==> exists i :: 0 <= i < |commands| && commands[i] == c && c.name == name &&
                                     forall j :: 0 <= j < i ==> commands[j].name != name
  {
    if commands == [] then null
    else if commands[0].name == name then commands[0]
    else
      var c := Find(commands[1..], name);
      assert c != null ==> exists i :: 1 <= i < |commands| && commands[i] == c && c.name == name &&
                                       forall j :: 0 <= j < i ==> commands[j].name != name by {
        if c != null {
          var k :| 0 <= k < |commands[1..]| && commands[1..][k] == c && c.name == name &&
                   forall j :: 0 <= j < k ==> commands[1..][j].name != name;
          assert commands[k + 1] == c;
          assert forall j :: 1 <= j < k + 1 ==> commands[j] == commands[1..][j - 1];
        }
      }
      c
  }

  /** The registry of commands, and the subscribers to its "commands changed"
      event. A subscriber here is the monitor that the subscribing callback notifies. */
  class CommandHost {
    var commands: seq<Command>
    var watchers: seq<PrimitiveMonitor>

    constructor (commands: seq<Command>)
      ensures this.commands == commands && watchers == []
    {
      this.commands := commands;
      watchers := [];
    }

    function GetCommand(name: string): (c: Command?)
      reads this
    {
      Find(commands, name)
    }

    method WatchCommands(monitor: PrimitiveMonitor)
      modifies this`watchers
      ensures watchers == old(watchers) + [monitor]
    {
      watchers := watchers + [monitor];
    }

    /** Fires the "commands changed" event: each subscription notifies its monitor
        once, so a monitor subscribed k times is notified k times. */
    method RaiseCommandsChanged()
      modifies watchers
      ensures forall m :: m in watchers ==> m.changes == old(m.changes) + multiset(watchers)[m]
    {
      var i := 0;
      while i < |watchers|
        invariant 0 <= i <= |watchers|
        invariant forall m :: m in watchers ==> m.changes == old(m.changes) + multiset(watchers[..i])[m]
      {
        assert watchers[..i + 1] == watchers[..i] + [watchers[i]];
        watchers[i].NotifyChanged();
        i := i + 1;
      }
      assert watchers[..i] == watchers;
    }
  }
}
