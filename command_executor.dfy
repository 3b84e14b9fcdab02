/// The command registry: a map from an operation name to the command class that
/// carries it out. Executing an operation builds the registered class from the
/// keyword arguments and runs it once; an operation with no entry raises
/// `UnsupportedKubeOperationProvided`, which, built with its message alone,
/// ends up a `TypeError` (see `UnknownOperation`).
module CommandExecutor {
  import opened Values
  import opened Exceptions

  /** The command classes; each one forwards its arguments to one function-manager call. */
  datatype CommandClass =
    | DeployCommand
    | DeleteCommand
    | ExecCommand
    | ListCommand
    | DownloadCommand
    | UploadCommand
    | ListPodsCommand
    | HealthCheckCommand

  /** `command_class(**kwargs).execute()`: which class was built, from which keyword arguments. */
  datatype Invocation = Invocation(command: CommandClass, kwargs: map<string, Value>)

  /** The message an unknown operation is reported with. */
  function UnsupportedMessage(operation: Value): string
  {
    "Unsupported operation: " + Render(operation)
  }

  /** The message for a plain operation name is plain too, so `repr` only quotes it. */
  lemma UnsupportedMessagePlain(name: string)
    requires Plain(name)
    ensures Plain(UnsupportedMessage(Str(name)))
  {
    var prefix := "Unsupported operation: ";
    var m := UnsupportedMessage(Str(name));
    assert m == prefix + name;
    forall k | 0 <= k < |m| ensures !Special(m[k]) {
      if k < |prefix| {
        assert m[k] == prefix[k];
      } else {
        assert m[k] == name[k - |prefix|];
      }
    }
  }

  /**
   * What `raise UnsupportedKubeOperationProvided(message)` raises, as written:
   * the shared constructor wants a message and a value, so the one-argument
   * call fails with `TypeError` before the custom exception exists.
   */
  function UnknownOperation(operation: Value): (e: Exc)
    ensures e.TypeError? && !e.Custom?
  {
    Raise(UnsupportedKubeOperationProvided, [Str(UnsupportedMessage(operation))])
  }

  /** The raise as documented: the custom exception, carrying the operation as its value. */
  function UnknownOperationIntended(operation: Value): (e: Exc)
    ensures e.Custom? && e.kind == UnsupportedKubeOperationProvided
    ensures e.message == Str(UnsupportedMessage(operation)) && e.value == operation
  {
    Raise(UnsupportedKubeOperationProvided, [Str(UnsupportedMessage(operation)), operation])
  }

  /**
   * How `execute_command` ends for a registry `commands`: a registered operation
   * builds exactly its registered class, once, with the given arguments, and
   * ends as that command ends; an unregistered one runs nothing and raises
   * `TypeError`, never the custom exception.
   */
  function Dispatch(commands: map<Value, CommandClass>, operation: Value, kwargs: map<string, Value>,
                    run: Invocation -> Outcome): (r: (seq<Invocation>, Outcome))
    ensures operation in commands <==> |r.0| == 1
    ensures operation in commands ==> r.0[0].command == commands[operation] && r.0[0].kwargs == kwargs
                                      && r.1 == run(r.0[0])
    ensures operation !in commands ==> r.0 == [] && r.1.Raised? && r.1.exc.TypeError?
  {
    if operation in commands then
      var inv := Invocation(commands[operation], kwargs);
      ([inv], run(inv))
    else ([], Raised(UnknownOperation(operation)))
  }

  /** `K8sCommandExecutor`: the registry, and every command it has run, in order. */
  class Executor {
    var commands: map<Value, CommandClass>
    var executed: seq<Invocation>

    /** A fresh executor has an empty registry. */
    constructor ()
      ensures commands == map[] && executed == []
    {
      commands := map[];
      executed := [];
    }

    /** `register_command`: map the name to the class, replacing any earlier entry. */
    method RegisterCommand(operation: Value, command: CommandClass)
      modifies this`commands
      ensures commands == old(commands)[operation := command]
    {
      commands := commands[operation := command];
    }

    /**
     * `execute_command(operation, kwargs)`: run the registered class, or raise.
     * `run` stands for building the class from `kwargs` and calling `execute()`.
     */
    method ExecuteCommand(operation: Value, kwargs: map<string, Value>, run: Invocation -> Outcome)
      returns (r: Outcome)
      modifies this`executed
      ensures commands == old(commands)
      ensures var (runs, out) := Dispatch(commands, operation, kwargs, run);
        executed == old(executed) + runs && r == out
    {
      if operation in commands {
        var inv := Invocation(commands[operation], kwargs);
        executed := executed + [inv];
        r := run(inv);
      } else {
        r := Raised(UnknownOperation(operation));
      }
    }
  }
}
