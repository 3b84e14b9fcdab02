/// The tool's exception kinds and the other exceptions that reach its callers.
/// Every custom exception shares one constructor that takes exactly a message and
/// a value; raising one with any other number of arguments raises `TypeError`
/// instead.
module Exceptions {
  import opened Values

  /** The subclasses of the tool's common exception base class. */
  datatype ErrorKind =
    | FailedToLoadYamlFile
    | InvalidFileExtension
    | UnsupportedKubeOperationProvided
    | FailedToExecuteCommand
    | KubernetesResourceWasNotFound
    | InvalidDefinitionFile
    | ResourceAlreadyExist
    | KubernetesObjectIsNotSupportedYet
    | FailedToCreateLocalDir

  /** An exception as it propagates. */
  datatype Exc =
    | Custom(kind: ErrorKind, message: Value, value: Value)
    | ApiException(status: int, reason: string)
    | TypeError(text: string)
    | AttributeError(text: string)
    | KeyError(key: string)
    | StopIteration
    | RuntimeError(text: string)
    | FileNotFoundError(text: string, path: string)
    | Fault(text: string)   // any other exception raised by a collaborator (socket, tar, file system)

  /** How a call that returns nothing ends: normally, or by raising. */
  datatype Outcome = Done | Raised(exc: Exc)

  /**
   * The exception that `raise kind(*args)` actually raises. The shared constructor
   * takes `(message, value)`, so only a two-argument call builds the custom
   * exception; any other arity fails inside the constructor with `TypeError`.
   */
  function Raise(kind: ErrorKind, args: seq<Value>): (e: Exc)
    ensures e.Custom? <==> |args| == 2
    ensures e.Custom? ==> e == Custom(kind, args[0], args[1])
    ensures !e.Custom? ==> e.TypeError?
  {
    if |args| == 2 then Custom(kind, args[0], args[1])
    else if |args| == 1 then TypeError("__init__() missing 1 required positional argument: 'value'")
    else if |args| == 0 then TypeError("__init__() missing 2 required positional arguments: 'message' and 'value'")
    else TypeError("__init__() takes 3 positional arguments but " + NatToString(|args| + 1) + " were given")
  }

  /**
   * `str(e)` of an exception whose `args` are `(message, value)`: the tuple's
   * text, each argument shown by `repr` and separated by a comma and a space.
   */
  function ArgsText(message: Value, value: Value): (r: string)
    ensures var m, v := Repr(message), Repr(value);
      && |r| == |m| + |v| + 4
      && r[0] == '(' && r[1..1 + |m|] == m && r[1 + |m|..3 + |m|] == ", "
      && r[3 + |m|..|r| - 1] == v && r[|r| - 1] == ')'
  {
    "(" + Repr(message) + ", " + Repr(value) + ")"
  }

  /**
   * `str(e)` for the exceptions that reach a message. A custom exception keeps
   * both constructor arguments in `args` and defines no `__str__`, so it prints
   * as the tuple of the two, message first.
   */
  function ExcText(e: Exc): (r: string)
    ensures e.Custom? ==> r == ArgsText(e.message, e.value)
  {
    match e
    case Custom(_, message, value) => ArgsText(message, value)
    case ApiException(status, reason) => "(" + Render(Int(status)) + ")\nReason: " + reason
    case TypeError(text) => text
    case AttributeError(text) => text
    case KeyError(key) => "'" + key + "'"
    case StopIteration => ""
    case RuntimeError(text) => text
    case FileNotFoundError(text, _) => text
    case Fault(text) => text
  }
}
