/// The manager the entry point drives: it takes the parsed command-line
/// parameters, moves `kube_config` out of them into the (singleton) function
/// manager, registers the eight operations and runs one of them.
///
/// The parameters dict is the caller's own object: the manager keeps a reference
/// to it, not a copy, so what the caller removes from it later is gone for the
/// commands as well.
module K8sManager {
  import opened Values
  import opened Exceptions
  import opened KubeClient
  import opened KubeObjects
  import opened Funcs
  import opened CommandExecutor

  /** The class name the singleton cache keeps the function manager under. */
  const FunctionManagerClass := "K8sFunctionManager"

  /** `m` with the operations `_register_commands` registers, in its order. */
  function WithOperations(m: map<Value, CommandClass>): map<Value, CommandClass>
  {
    m[Str("deploy") := DeployCommand]
     [Str("delete") := DeleteCommand]
     [Str("exec") := ExecCommand]
     [Str("list") := ListCommand]
     [Str("download") := DownloadCommand]
     [Str("upload") := UploadCommand]
     [Str("list-pods-for-all-namespaces") := ListPodsCommand]
     [Str("health-check") := HealthCheckCommand]
  }

  /** The name each command class is registered under. */
  function OperationName(c: CommandClass): Value
  {
    match c
    case DeployCommand => Str("deploy")
    case DeleteCommand => Str("delete")
    case ExecCommand => Str("exec")
    case ListCommand => Str("list")
    case DownloadCommand => Str("download")
    case UploadCommand => Str("upload")
    case ListPodsCommand => Str("list-pods-for-all-namespaces")
    case HealthCheckCommand => Str("health-check")
  }

  /** The registry of a new manager. */
  function Registry(): map<Value, CommandClass>
  {
    WithOperations(map[])
  }

  /** Exactly eight operations are registered, and running with no operation (`None`) is not one of them. */
  lemma RegistryHasEightOperations()
    ensures |Registry()| == 8
    ensures Null !in Registry()
  {
    var m0: map<Value, CommandClass> := map[];
    var m1 := m0[Str("deploy") := DeployCommand];
    assert "delete"[2] != "deploy"[2];
    var m2 := m1[Str("delete") := DeleteCommand];
    var m3 := m2[Str("exec") := ExecCommand];
    assert "list"[0] != "exec"[0];
    var m4 := m3[Str("list") := ListCommand];
    var m5 := m4[Str("download") := DownloadCommand];
    assert "upload"[0] != "deploy"[0] && "upload"[0] != "delete"[0];
    var m6 := m5[Str("upload") := UploadCommand];
    var m7 := m6[Str("list-pods-for-all-namespaces") := ListPodsCommand];
    var m8 := m7[Str("health-check") := HealthCheckCommand];
    assert |m8| == 8;
    assert m8 == Registry();
  }

  /**
   * Every registered operation names the class registered under it, so no class
   * is registered under two names.
   */
  lemma RegistryIsOneToOne()
    ensures forall a | a in Registry() :: OperationName(Registry()[a]) == a
    ensures forall a, b :: a in Registry() && b in Registry() && a != b ==> Registry()[a] != Registry()[b]
  {
    assert "delete"[2] != "deploy"[2];
    assert "list"[0] != "exec"[0];
    assert "upload"[0] != "deploy"[0] && "upload"[0] != "delete"[0];
    assert forall a | a in Registry() :: OperationName(Registry()[a]) == a;
  }

  /**
   * `execute_operation`'s handler: `UnsupportedKubeOperationProvided` is caught
   * and printed as `Error: <e>`; every other exception propagates.
   */
  function Handled(out: Outcome): (r: (Outcome, Option<string>))
    ensures r.1.Some? <==> out.Raised? && out.exc.Custom? && out.exc.kind == UnsupportedKubeOperationProvided
    ensures r.1.Some? ==> r.0 == Done && r.1.value == "Error: " + ExcText(out.exc)
    ensures r.1.None? ==> r.0 == out
  {
    match out
    case Raised(e) =>
      if e.Custom? && e.kind == UnsupportedKubeOperationProvided then (Done, Some("Error: " + ExcText(e)))
      else (out, None)
    case Done => (out, None)
  }

  /**
   * As written, an unknown operation is not caught: the `TypeError` from the
   * one-argument raise escapes `execute_operation`.
   */
  lemma UnknownOperationEscapes(commands: map<Value, CommandClass>, operation: Value,
                                kwargs: map<string, Value>, run: Invocation -> Outcome)
    requires operation !in commands
    ensures var r := Handled(Dispatch(commands, operation, kwargs, run).1);
      r.0 == Raised(UnknownOperation(operation)) && r.0.exc.TypeError? && r.1.None?
  {
  }

  /**
   * With the two-argument raise, an unknown operation is caught; the printed
   * line shows the exception's two arguments as a tuple, the message first and
   * the operation second.
   */
  lemma IntendedUnknownOperationCaught(operation: Value)
    ensures Handled(Raised(UnknownOperationIntended(operation)))
            == (Done, Some("Error: " + ArgsText(Str(UnsupportedMessage(operation)), operation)))
  {
  }

  /**
   * For an operation name with no quote, backslash or control character (such as
   * `bogus`), the printed line is `Error: ('Unsupported operation: <name>', '<name>')`.
   */
  lemma {:induction false} IntendedUnknownOperationText(name: string)
    requires Plain(name)
    ensures Handled(Raised(UnknownOperationIntended(Str(name)))).1
            == Some("Error: ('" + UnsupportedMessage(Str(name)) + "', '" + name + "')")
  {
    IntendedUnknownOperationCaught(Str(name));
    UnsupportedMessagePlain(name);
    var m := UnsupportedMessage(Str(name));
    ReprOfPlain(m);
    ReprOfPlain(name);
    QuotedPairText(m, name);
  }

  /** The text of a tuple of two plainly quoted strings, regrouped. */
  lemma QuotedPairText(a: string, b: string)
    ensures "Error: " + ("(" + ("'" + a + "'") + ", " + ("'" + b + "'") + ")") == "Error: ('" + a + "', '" + b + "')"
  {
  }

  /** `K8sManager`: the kube-config path, the shared parameters dict, the executor and the function manager. */
  class Manager {
    var kubeConfig: Value
    const commandParameters: Dict
    const executor: Executor
    const functions: FunctionManager

    /**
     * `K8sManager(parameters)`: pop `kube_config`, keep the dict itself, put the
     * function manager into it and register the operations. The function
     * manager is the cached one if it exists, whatever its kube-config.
     */
    constructor (parameters: Dict, cache: SingletonCache, cluster: Cluster)
      requires "kube_config" in parameters.entries
      modifies parameters, cache
      ensures kubeConfig == old(parameters.entries["kube_config"])
      ensures commandParameters == parameters
      ensures parameters.entries
              == (old(parameters.entries) - {"kube_config"})[ "k8s_func_manager" := Handle(FunctionManagerClass)]
      ensures fresh(executor) && executor.commands == Registry() && executor.executed == []
      ensures FunctionManagerClass in cache.instances && functions == cache.instances[FunctionManagerClass]
      ensures FunctionManagerClass in old(cache.instances) ==>
        functions == old(cache.instances[FunctionManagerClass]) && cache.instances == old(cache.instances)
      ensures FunctionManagerClass !in old(cache.instances) ==>
        fresh(functions) && functions.kubeConfig == kubeConfig && functions.cluster == cluster
    {
      var config := parameters.entries["kube_config"];
      parameters.entries := parameters.entries - {"kube_config"};
      var fm := cache.Instantiate(FunctionManagerClass, config, cluster);
      parameters.entries := parameters.entries["k8s_func_manager" := Handle(FunctionManagerClass)];
      kubeConfig := config;
      commandParameters := parameters;
      functions := fm;
      executor := new Executor();
      new;
      RegisterCommands();
    }

    /** `_register_commands`: the eight operations, each mapped to its class, in order. */
    method RegisterCommands()
      modifies executor`commands
      ensures executor.commands == WithOperations(old(executor.commands))
    {
      executor.RegisterCommand(Str("deploy"), DeployCommand);
      executor.RegisterCommand(Str("delete"), DeleteCommand);
      executor.RegisterCommand(Str("exec"), ExecCommand);
      executor.RegisterCommand(Str("list"), ListCommand);
      executor.RegisterCommand(Str("download"), DownloadCommand);
      executor.RegisterCommand(Str("upload"), UploadCommand);
      executor.RegisterCommand(Str("list-pods-for-all-namespaces"), ListPodsCommand);
      executor.RegisterCommand(Str("health-check"), HealthCheckCommand);
    }

    /**
     * `execute_operation(operation)`: run it with the current contents of the
     * parameters dict; `printed` is the error line when one is caught.
     */
    method ExecuteOperation(operation: Value, run: Invocation -> Outcome)
      returns (r: Outcome, printed: Option<string>)
      modifies executor`executed
      ensures var (runs, out) := Dispatch(executor.commands, operation, commandParameters.entries, run);
        executor.executed == old(executor.executed) + runs && (r, printed) == Handled(out)
    {
      var out := executor.ExecuteCommand(operation, commandParameters.entries, run);
      r, printed := Handled(out).0, Handled(out).1;
    }
  }

  /**
   * The entry point's use of the manager: build it from the parsed parameters,
   * then pop `operation` from the same dict and run it. Because the manager
   * shares the dict, the command receives neither `kube_config` nor `operation`.
   * Without a subcommand the parameters hold no `kube_config`, and the
   * constructor's `pop` raises `KeyError` before anything else happens.
   */
  method RunTool(parameters: Dict, cache: SingletonCache, cluster: Cluster, run: Invocation -> Outcome)
    returns (r: Outcome, printed: Option<string>, ghost m: Manager?)
    requires "operation" in parameters.entries
    modifies parameters, cache
    ensures "kube_config" !in old(parameters.entries) ==>
      && r == Raised(KeyError("kube_config")) && printed.None?
      && parameters.entries == old(parameters.entries) && cache.instances == old(cache.instances)
    ensures "kube_config" in old(parameters.entries) ==>
      var kwargs := (old(parameters.entries) - {"kube_config", "operation"})["k8s_func_manager" := Handle(FunctionManagerClass)];
      var op := old(parameters.entries["operation"]);
      && m != null
      && parameters.entries == kwargs
      && m.executor.executed == Dispatch(Registry(), op, kwargs, run).0
      && (r, printed) == Handled(Dispatch(Registry(), op, kwargs, run).1)
  {
    if "kube_config" !in parameters.entries {
      return Raised(KeyError("kube_config")), None, null;
    }
    var manager := new Manager(parameters, cache, cluster);
    m := manager;
    var op := parameters.entries["operation"];
    parameters.entries := parameters.entries - {"operation"};
    assert (old(parameters.entries) - {"kube_config"})["k8s_func_manager" := Handle(FunctionManagerClass)] - {"operation"}
           == (old(parameters.entries) - {"kube_config", "operation"})["k8s_func_manager" := Handle(FunctionManagerClass)];
    r, printed := manager.ExecuteOperation(op, run);
  }
}
