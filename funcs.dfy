/// The function manager: one instance per process (a singleton cache keyed by
/// class), a kube-config path that can be set only while unset, and the
/// operations the commands call. Deploy and delete walk the documents of a
/// definition file in order and stop at the first failure; the copy operations
/// create the target directory before transferring.
module Funcs {
  import opened Values
  import opened Exceptions
  import opened KubeClient
  import opened KubeObjects
  import opened Resources
  import opened Pod
  import opened PodFileTransfer
  import opened Helpers
  import opened PosixPath

  // ---------------------------------------------------------------------------
  // Deploying and deleting the documents of a definition file.
  // ---------------------------------------------------------------------------

  /** What is done to every object of a definition file. */
  datatype Action = CreateAction | DeleteAction

  /** One `create()` or `delete()` call, as `Resources` states it. */
  function Step(action: Action, kind: ResourceKind, f: Fields, answer: (nat, Request) -> Reply, at: nat)
    : (Fields, seq<Request>, Outcome)
  {
    match action
    case CreateAction => CreateStep(kind, f, answer, at)
    case DeleteAction => DeleteStep(kind, f, answer, at)
  }

  /** What one document costs: the requests its call sends and how it ends. */
  type DocStep = (Value, nat) -> (seq<Request>, Outcome)

  /**
   * Walking the first `n` documents in order, the first request being number
   * `at`: each document's step runs after the previous ones all succeeded, and
   * the first failure ends the walk.
   */
  function Walk(step: DocStep, docs: seq<Value>, n: nat, at: nat): (r: (seq<Request>, Outcome))
    requires n <= |docs|
    ensures forall k | 0 <= k <= n :: Walk(step, docs, k, at).0 <= r.0
    ensures r.1.Done? ==> forall k | 0 <= k <= n :: Walk(step, docs, k, at).1.Done?
    decreases n
  {
    if n == 0 then ([], Done)
    else
      var w := Walk(step, docs, n - 1, at);
      if w.1.Raised? then w
      else
        var one := step(docs[n - 1], at + |w.0|);
        (w.0 + one.0, one.1)
  }

  /** A walk that has succeeded so far extends by the next document's step. */
  lemma WalkExtend(step: DocStep, docs: seq<Value>, i: nat, at: nat, before: seq<Request>)
    requires i < |docs| && Walk(step, docs, i, at).1.Done? && |before| == at
    ensures var prev := Walk(step, docs, i, at).0;
      var one := step(docs[i], |before + prev|);
      && Walk(step, docs, i + 1, at) == (prev + one.0, one.1)
      && before + prev + one.0 == before + Walk(step, docs, i + 1, at).0
  {
  }

  /** A document whose step fails with nothing sent ends the walk there. */
  lemma WalkFailsAt(step: DocStep, docs: seq<Value>, i: nat, at: nat)
    requires i < |docs| && Walk(step, docs, i, at).1.Done?
    requires var one := step(docs[i], at + |Walk(step, docs, i, at).0|); one.0 == [] && one.1.Raised?
    ensures Walk(step, docs, |docs|, at)
            == (Walk(step, docs, i, at).0, step(docs[i], at + |Walk(step, docs, i, at).0|).1)
  {
    assert Walk(step, docs, i, at).0 + [] == Walk(step, docs, i, at).0;
    WalkStopped(step, docs, i + 1, |docs|, at);
  }

  /** Once a walk has failed, later documents are never touched. */
  lemma {:induction false} WalkStopped(step: DocStep, docs: seq<Value>, k: nat, m: nat, at: nat)
    requires k <= m <= |docs|
    requires Walk(step, docs, k, at).1.Raised?
    ensures Walk(step, docs, m, at) == Walk(step, docs, k, at)
    decreases m
  {
    if m > k {
      WalkStopped(step, docs, k, m - 1, at);
    }
  }

  /** The walk of a prefix depends on nothing after it. */
  lemma {:induction false} WalkPrefix(step: DocStep, docs: seq<Value>, more: seq<Value>, n: nat, at: nat)
    requires n <= |docs|
    ensures Walk(step, docs + more, n, at) == Walk(step, docs, n, at)
    decreases n
  {
    if n > 0 {
      WalkPrefix(step, docs, more, n - 1, at);
      assert (docs + more)[n - 1] == docs[n - 1];
    }
  }

  /** When every step sends at most one request, so does every document of a walk. */
  lemma {:induction false} WalkAtMostOneEach(step: DocStep, docs: seq<Value>, n: nat, at: nat)
    requires n <= |docs|
    requires forall doc, k :: |step(doc, k).0| <= 1
    ensures |Walk(step, docs, n, at).0| <= n
    decreases n
  {
    if n > 0 {
      WalkAtMostOneEach(step, docs, n - 1, at);
    }
  }

  /**
   * One document of a definition file: build its object (a failure here leaves
   * the generator, so `StopIteration` becomes `RuntimeError`), then call
   * `create()` or `delete()` on it. It sends at most one request, of the
   * document's kind, and none when the kind is not supported.
   */
  function ApplyOne(action: Action, answer: (nat, Request) -> Reply, doc: Value, at: nat): (r: (seq<Request>, Outcome))
    ensures |r.0| <= 1
    ensures r.0 != [] ==> KindOf(doc).Ok? && !r.0[0].ConnectExec? && !r.0[0].ListNamespace?
                          && r.0[0].kind == KindOf(doc).value
    ensures KindOf(doc).Err? ==> r == ([], Raised(Escape(KindOf(doc).error)))
  {
    match KindOf(doc)
    case Err(e) => ([], Raised(Escape(e)))
    case Ok(kind) =>
      var (_, reqs, out) := Step(action, kind, FromDocument(doc.entries), answer, at);
      (reqs, out)
  }

  /** `ApplyOne` for a fixed action and cluster, as a step of a walk. */
  function StepFor(action: Action, answer: (nat, Request) -> Reply): DocStep
  {
    (doc: Value, at: nat) => ApplyOne(action, answer, doc, at)
  }

  /**
   * `step` computes what `ApplyOne` does. The trigger keeps the equation from
   * being used until an `ApplyOne` term is at hand.
   */
  ghost predicate Implements(step: DocStep, action: Action, answer: (nat, Request) -> Reply)
  {
    forall doc, n {:trigger ApplyOne(action, answer, doc, n)} :: step(doc, n) == ApplyOne(action, answer, doc, n)
  }

  lemma StepForImplements(action: Action, answer: (nat, Request) -> Reply)
    ensures Implements(StepFor(action, answer), action, answer)
  {
  }

  /** Deploying or deleting a file sends at most one request per document. */
  lemma AtMostOneRequestPerDocument(action: Action, answer: (nat, Request) -> Reply, docs: seq<Value>, at: nat)
    ensures |Walk(StepFor(action, answer), docs, |docs|, at).0| <= |docs|
  {
    assert forall doc, n :: |StepFor(action, answer)(doc, n).0| <= 1;
    WalkAtMostOneEach(StepFor(action, answer), docs, |docs|, at);
  }

  /**
   * A document of an unsupported kind, reached after the earlier ones all
   * succeeded, ends the walk with `RuntimeError` (the generator's
   * `StopIteration`), having sent exactly the earlier documents' requests.
   */
  lemma UnsupportedKindStops(action: Action, answer: (nat, Request) -> Reply, docs: seq<Value>, i: nat, at: nat)
    requires i < |docs| && docs[i].Dict? && SupportedKind(Get(docs[i].entries, "kind")).None?
    requires Walk(StepFor(action, answer), docs, i, at).1.Done?
    ensures Walk(StepFor(action, answer), docs, |docs|, at)
            == (Walk(StepFor(action, answer), docs, i, at).0, Raised(RuntimeError("generator raised StopIteration")))
  {
    var before := Walk(StepFor(action, answer), docs, i, at).0;
    UnsupportedDocumentFails(action, answer, docs[i], at + |before|);
    WalkFailsAt(StepFor(action, answer), docs, i, at);
  }

  /** A document of an unsupported kind sends nothing and raises `RuntimeError`. */
  lemma UnsupportedDocumentFails(action: Action, answer: (nat, Request) -> Reply, doc: Value, n: nat)
    requires doc.Dict? && SupportedKind(Get(doc.entries, "kind")).None?
    ensures StepFor(action, answer)(doc, n) == ([], Raised(RuntimeError("generator raised StopIteration")))
  {
    UnsupportedBranchUnreachable(doc);
  }

  // ---------------------------------------------------------------------------
  // The singleton cache and the manager.
  // ---------------------------------------------------------------------------

  /** The kube-config setter's rule: assign only while the current value is `None`. */
  function SetOnce(current: Value, v: Value): (r: Value)
    ensures current != Null ==> r == current
    ensures current == Null ==> r == v
  {
    if current == Null then v else current
  }

  /** Once set to something other than `None`, the value never changes again. */
  lemma SetOnceSticks(current: Value, v: Value, w: Value)
    requires SetOnce(current, v) != Null
    ensures SetOnce(SetOnce(current, v), w) == SetOnce(current, v)
  {
  }

  /** `K8sFunctionManager`: the kube-config path and the cluster its client talks to. */
  class FunctionManager {
    var kubeConfig: Value
    const cluster: Cluster

    constructor (kubeConfig: Value, cluster: Cluster)
      ensures this.kubeConfig == kubeConfig && this.cluster == cluster
    {
      this.kubeConfig := kubeConfig;
      this.cluster := cluster;
    }

    /** The `kube_config` setter. */
    method SetKubeConfig(v: Value)
      modifies this`kubeConfig
      ensures kubeConfig == SetOnce(old(kubeConfig), v)
    {
      if kubeConfig == Null {
        kubeConfig := v;
      }
    }

    /**
     * The loop shared by `deploy_from_yaml` and `delete_from_yaml`: load the
     * file (its errors surface on the first step of the generator), then for
     * each document build its object and call `create()` or `delete()` on it.
     */
    method ApplyFromYaml(action: Action, path: string, files: DefinitionFiles) returns (r: Outcome)
      modifies cluster`log
      ensures match LoadYaml(path, files)
        case Err(e) => r == Raised(e) && cluster.log == old(cluster.log)
        case Ok(docs) =>
          var (reqs, out) := Walk(StepFor(action, cluster.answer), docs, |docs|, |old(cluster.log)|);
          cluster.log == old(cluster.log) + reqs && r == out
    {
      var loaded := LoadYaml(path, files);
      if loaded.Err? {
        return Raised(loaded.error);
      }
      StepForImplements(action, cluster.answer);
      r := WalkDocuments(action, loaded.value, StepFor(action, cluster.answer));
    }

    /**
     * The loop of `ApplyFromYaml` over the loaded documents, in order; `step`
     * is `StepFor(action, cluster.answer)`, passed in so that the loop reasons
     * about the walk alone.
     */
    method WalkDocuments(action: Action, docs: seq<Value>, ghost step: DocStep) returns (r: Outcome)
      requires Implements(step, action, cluster.answer)
      modifies cluster`log
      ensures var w := Walk(step, docs, |docs|, |old(cluster.log)|);
        cluster.log == old(cluster.log) + w.0 && r == w.1
    {
      var i := 0;
      while i < |docs|
        invariant 0 <= i <= |docs|
        invariant Walk(step, docs, i, |old(cluster.log)|).1 == Done
        invariant cluster.log == old(cluster.log) + Walk(step, docs, i, |old(cluster.log)|).0
      {
        r := ApplyDocument(action, docs[i]);
        WalkExtend(step, docs, i, |old(cluster.log)|, old(cluster.log));
        if r.Raised? {
          WalkStopped(step, docs, i + 1, |docs|, |old(cluster.log)|);
          return;
        }
        i := i + 1;
      }
      r := Done;
    }

    /** The body of the loop of `ApplyFromYaml`: build one document's object and call it. */
    method ApplyDocument(action: Action, doc: Value) returns (r: Outcome)
      modifies cluster`log
      ensures var one := ApplyOne(action, cluster.answer, doc, |old(cluster.log)|);
        cluster.log == old(cluster.log) + one.0 && r == one.1
    {
      var converted := ConvertDictToKubeObject(doc);
      if converted.Err? {
        return Raised(Escape(converted.error));
      }
      var obj := converted.value;
      if action == CreateAction {
        r := Create(obj, cluster);
      } else {
        r := Delete(obj, cluster);
      }
    }

    /** `deploy_from_yaml(path)`. */
    method DeployFromYaml(path: string, files: DefinitionFiles) returns (r: Outcome)
      modifies cluster`log
      ensures match LoadYaml(path, files)
        case Err(e) => r == Raised(e) && cluster.log == old(cluster.log)
        case Ok(docs) =>
          var (reqs, out) := Walk(StepFor(CreateAction, cluster.answer), docs, |docs|, |old(cluster.log)|);
          cluster.log == old(cluster.log) + reqs && r == out
    {
      r := ApplyFromYaml(CreateAction, path, files);
    }

    /** `delete_from_yaml(path)`. */
    method DeleteFromYaml(path: string, files: DefinitionFiles) returns (r: Outcome)
      modifies cluster`log
      ensures match LoadYaml(path, files)
        case Err(e) => r == Raised(e) && cluster.log == old(cluster.log)
        case Ok(docs) =>
          var (reqs, out) := Walk(StepFor(DeleteAction, cluster.answer), docs, |docs|, |old(cluster.log)|);
          cluster.log == old(cluster.log) + reqs && r == out
    {
      r := ApplyFromYaml(DeleteAction, path, files);
    }

    /**
     * `exec_bash_in_pod(pod_name, namespace, command)`: a Pod built from the two
     * names alone, whose getters return them unchanged, runs the command.
     */
    method ExecBashInPod(podName: string, namespace: string, command: string)
      returns (r: Outcome, ghost stderr: seq<string>)
      modifies cluster`log, cluster`channels
      ensures var req := ConnectExec(ExecStreamRequest(Target(Str(podName), Str(namespace)), ShellCommand(command)));
        && cluster.log == old(cluster.log) + [req]
        && r == ExecResult(Target(Str(podName), Str(namespace)), old(cluster.NextReply(req)), stderr)
    {
      ExplicitValuesWin(Fields(None, Null, Str(namespace), Str(podName), Null));
      r, stderr := ExecBash(Target(Str(podName), Str(namespace)), cluster, command);
    }

    /** `list_existing_files(pod_name, namespace, path)`: run exactly `ls <path>` in the pod. */
    method ListExistingFiles(podName: string, namespace: string, path: string)
      returns (r: Outcome, ghost stderr: seq<string>)
      modifies cluster`log, cluster`channels
      ensures var req := ConnectExec(ExecStreamRequest(Target(Str(podName), Str(namespace)), ShellCommand("ls " + path)));
        && cluster.log == old(cluster.log) + [req]
        && r == ExecResult(Target(Str(podName), Str(namespace)), old(cluster.NextReply(req)), stderr)
    {
      r, stderr := ExecBashInPod(podName, namespace, "ls " + path);
    }

    /**
     * `health_check()`: list the namespaces. It never raises: it returns nothing
     * when the listing succeeds, and a message naming the failure otherwise.
     */
    method HealthCheck() returns (message: Option<string>)
      modifies cluster`log
      ensures cluster.log == old(cluster.log) + [ListNamespace]
      ensures var reply := old(cluster.NextReply(ListNamespace));
        && (message.None? <==> reply.Accepted?)
        && (reply.Rejected? && reply.fault.ApiException? ==>
              message == Some("API exception occurred: " + ExcText(reply.fault)))
        && (reply.Rejected? && !reply.fault.ApiException? ==>
              message == Some("Error while connecting to the cluster: " + ExcText(reply.fault)))
    {
      var out := cluster.Call(ListNamespace);
      match out
      case Done =>
        message := None;   // prints that the connection is healthy
      case Raised(e) =>
        if e.ApiException? {
          message := Some("API exception occurred: " + ExcText(e));
        } else {
          message := Some("Error while connecting to the cluster: " + ExcText(e));
        }
    }

    /**
     * `copy_file_to_pod(namespace, pod_name, source, destination)`: create the
     * destination directory in the pod first; only if that succeeds is the
     * upload stream opened, with the reply the cluster gives at the next place
     * in its log. A refused upload stream raises; an accepted one ends normally,
     * and its channel received exactly the archive (in chunks of at most
     * `ChunkSize` bytes) and was closed once, or nothing and was left open when
     * the archive could not be built.
     */
    method CopyFileToPod(namespace: string, podName: string, source: string, destination: string,
                         tar: TarMember -> Result<seq<byte>, Exc>) returns (r: Outcome, ghost stderr: seq<string>)
      modifies cluster`log, cluster`channels
      ensures var t := Target(Str(podName), Str(namespace));
        var mkdir := ConnectExec(ExecStreamRequest(t, ShellCommand("mkdir -p " + destination)));
        var made := ExecResult(t, old(cluster.NextReply(mkdir)), stderr);
        var up := ConnectExec(ExecStreamRequest(t, UploadCommand(destination)));
        var reply := cluster.answer(|old(cluster.log)| + 1, up);
        var archive := tar(TarMember(source, Basename(source)));
        && (made.Raised? ==> cluster.log == old(cluster.log) + [mkdir] && r == made)
        && (made.Done? ==> cluster.log == old(cluster.log) + [mkdir, up])
        && (made.Done? && reply.Rejected? ==> r == Raised(reply.fault))
        && (made.Done? && reply.Accepted? ==>
              && r == Done && |cluster.channels| > 0
              && var ch := cluster.channels[|cluster.channels| - 1];
                 && (archive.Ok? ==> ch.Received() == archive.value && ch.closeCalls == 1 && !ch.open
                                     && forall i :: 0 <= i < |ch.stdinWrites| ==> 1 <= |ch.stdinWrites[i]| <= ChunkSize)
                 && (archive.Err? ==> ch.stdinWrites == [] && ch.closeCalls == 0 && ch.open))
    {
      var t := Target(Str(podName), Str(namespace));
      var made;
      made, stderr := Pod.CreateDirectory(t, cluster, destination);
      if made.Raised? {
        return made, stderr;
      }
      r := PodFileTransfer.CopyFileToPod(t, cluster, source, destination, tar);
    }

    /**
     * `copy_file_from_pod(namespace, pod_name, source, destination)`: create the
     * local destination directory first; only if that succeeds is the download
     * stream opened. A refused stream raises; an accepted one is drained,
     * closed once and sent nothing, and the call ends as extracting the UTF-8
     * encoding of everything the pod wrote to stdout ends.
     */
    method CopyFileFromPod(namespace: string, podName: string, source: string, destination: string,
                           fs: LocalFs, untar: (seq<byte>, string) -> Outcome) returns (r: Outcome)
      modifies fs`dirs, cluster`log, cluster`channels
      ensures var (after, ok) := MakeDirs(old(fs.dirs), fs.failing, destination);
        var down := ConnectExec(ExecStreamRequest(Target(Str(podName), Str(namespace)), DownloadCommand(source)));
        var reply := cluster.answer(|old(cluster.log)|, down);
        && fs.dirs == after
        && (!ok ==> r == Raised(CreateDirectoryFailure(destination)) && cluster.log == old(cluster.log))
        && (ok ==> destination in fs.dirs && cluster.log == old(cluster.log) + [down])
        && (ok && reply.Rejected? ==> r == Raised(reply.fault) && cluster.channels == old(cluster.channels))
        && (ok && reply.Accepted? ==>
              && r == untar(Encode(OutText(reply.frames)), destination)
              && |cluster.channels| == |old(cluster.channels)| + 1
              && cluster.channels[|old(cluster.channels)|].closeCalls == 1
              && cluster.channels[|old(cluster.channels)|].stdinWrites == [])
    {
      var made := Helpers.CreateDirectory(fs, destination);
      if made.Raised? {
        return made;
      }
      r := PodFileTransfer.CopyFileFromPod(Target(Str(podName), Str(namespace)), cluster, source, destination, untar);
    }
  }

  /**
   * `SingletonMeta`: the instance made by the first construction of a class,
   * kept by class name.
   */
  class SingletonCache {
    var instances: map<string, FunctionManager>

    constructor ()
      ensures instances == map[]
    {
      instances := map[];
    }

    /**
     * `SingletonMeta.__call__`: the first call for a class builds the instance
     * from its arguments; every later call returns that instance and ignores them.
     */
    method Instantiate(cls: string, kubeConfig: Value, cluster: Cluster) returns (m: FunctionManager)
      modifies this`instances
      ensures cls in old(instances) ==> m == old(instances[cls]) && instances == old(instances)
      ensures cls !in old(instances) ==>
        fresh(m) && m.kubeConfig == kubeConfig && m.cluster == cluster && instances == old(instances)[cls := m]
    {
      if cls !in instances {
        var made := new FunctionManager(kubeConfig, cluster);
        instances := instances[cls := made];
      }
      m := instances[cls];
    }
  }
}
