/// The Pod resource: its constructor, running a shell command in it over an exec
/// stream, and creating a directory in it.
///
/// `ExecBash` opens a stream for `["/bin/sh", "-c", command]`, drains it while it
/// is open (stdout is printed, stderr chunks are kept in read order), closes it,
/// and turns a non-zero exit status into `FailedToExecuteCommand` carrying the
/// stderr chunks joined with ", ".
module Pod {
  import opened Values
  import opened Exceptions
  import opened KubeClient
  import opened KubeObjects

  /** The pod a command runs in, as its `name` and `namespace` getters report them. */
  datatype Target = Target(name: Value, namespace: Value)

  /** `Pod(body, namespace, name)`: the arguments reach the base class in the same order. */
  method New(body: Dict?, namespace: Value, name: Value) returns (pod: KubeObject)
    ensures fresh(pod) && pod.kind == PodKind && pod.body == body
    ensures pod.State() == Fields(if body == null then None else Some(body.entries), Null, namespace, name, Null)
  {
    pod := new KubeObject(PodKind, body, namespace, name);
  }

  /** The command vector `exec_bash` runs. */
  function ShellCommand(command: string): (v: seq<string>)
    ensures |v| == 3 && v[2] == command
  {
    ["/bin/sh", "-c", command]
  }

  /** `get_namespaced_pod_exec_stream`: the pod, the command, stdin/stdout/stderr on, no tty. */
  function ExecStreamRequest(t: Target, command: seq<string>): (r: ExecRequest)
    ensures r.command == command && r.name == t.name && r.namespace == t.namespace
    ensures r.stdin && r.stdout && r.stderr && !r.tty
  {
    ExecRequest(t.name, t.namespace, command, true, true, true, false)
  }

  /**
   * How `exec_bash` ends, given the cluster's reply to the stream request and the
   * stderr chunks read: an API error on opening becomes "pod not found", any other
   * error propagates, and after the drain a non-zero exit status fails.
   */
  function ExecResult(t: Target, reply: Reply, stderr: seq<string>): (r: Outcome)
    ensures r.Done? <==> reply.Accepted? && reply.returncode == 0
    ensures reply.Rejected? && !reply.fault.ApiException? ==> r == Raised(reply.fault)
  {
    match reply
    case Rejected(e) =>
      if e.ApiException? then
        Raised(Raise(KubernetesResourceWasNotFound,
                     [Str("The pod " + Render(t.name) + " was not found in " + Render(t.namespace) + " namespace."),
                      Str(e.reason)]))
      else Raised(e)
    case Accepted(_, rc) =>
      if rc != 0 then
        Raised(Raise(FailedToExecuteCommand, [Str("Failed to execute sh command in pod"), Str(Join(stderr, ", "))]))
      else Done
  }

  /** Once the stream is open, a non-zero exit status fails with the stderr chunks joined by ", ". */
  lemma ExecFailsIffNonZero(t: Target, frames: seq<Frame>, rc: int, stderr: seq<string>)
    ensures rc != 0 ==> ExecResult(t, Accepted(frames, rc), stderr)
                        == Raised(Custom(FailedToExecuteCommand, Str("Failed to execute sh command in pod"),
                                         Str(Join(stderr, ", "))))
  {
  }

  /** An API error while opening the stream always reads as "pod not found", with the API's reason. */
  lemma OpenFailureIsNotFound(t: Target, status: int, reason: string, stderr: seq<string>)
    ensures var r := ExecResult(t, Rejected(ApiException(status, reason)), stderr);
      r.Raised? && r.exc.Custom? && r.exc.kind == KubernetesResourceWasNotFound && r.exc.value == Str(reason)
  {
  }

  /** Appending a chunk appends its text to the concatenation. */
  lemma ConcatAppend(parts: seq<string>, s: string)
    ensures Concat(parts + [s]) == Concat(parts) + s
  {
    assert (parts + [s])[..|parts|] == parts;
  }

  /**
   * One round of the read loop of `exec_bash`: poll and print whatever stdout
   * holds, then poll and take whatever stderr holds. A round on an open stream
   * always makes progress.
   */
  method PollRound(resp: Channel) returns (hasErr: bool, err: string)
    requires resp.Valid() && resp.open
    modifies resp`open, resp`script, resp`pendingOut, resp`pendingErr
    ensures resp.Valid()
    ensures resp.Progress() < old(resp.Progress())
    ensures hasErr ==> err != "" && err + resp.OutstandingErr() == old(resp.OutstandingErr())
    ensures !hasErr ==> resp.OutstandingErr() == old(resp.OutstandingErr())
  {
    var hasOut := resp.PeekStdout();
    if hasOut {
      var out := resp.ReadStdout();   // printed, not kept
    }
    hasErr := resp.PeekStderr();
    err := "";
    if hasErr {
      err := resp.ReadStderr();
    }
  }

  /**
   * The read loop of `exec_bash`: while the stream is open, run a round. It ends
   * with the stream closed by the remote side and every stderr byte collected, in
   * order, in non-empty chunks.
   */
  method DrainStream(resp: Channel) returns (chunks: seq<string>)
    requires resp.Valid()
    modifies resp`open, resp`script, resp`pendingOut, resp`pendingErr
    ensures resp.Valid() && !resp.open
    ensures Concat(chunks) == old(resp.OutstandingErr())
    ensures forall i :: 0 <= i < |chunks| ==> chunks[i] != ""
  {
    chunks := [];
    while resp.IsOpen()
      invariant resp.Valid()
      invariant Concat(chunks) + resp.OutstandingErr() == old(resp.OutstandingErr())
      invariant forall i :: 0 <= i < |chunks| ==> chunks[i] != ""
      decreases resp.Progress()
    {
      ghost var rest := resp.OutstandingErr();
      var hasErr, err := PollRound(resp);
      if hasErr {
        ConcatAppend(chunks, err);
        assert Concat(chunks + [err]) + resp.OutstandingErr() == Concat(chunks) + rest;
        chunks := chunks + [err];
      }
    }
  }

  /**
   * `exec_bash(command)`. The ghost result `stderr` is the list of stderr chunks
   * the drain loop collected: all non-empty, together exactly what the command
   * wrote to stderr. The stream is closed exactly once and nothing is written to
   * its stdin.
   */
  method ExecBash(t: Target, cluster: Cluster, command: string) returns (r: Outcome, ghost stderr: seq<string>)
    modifies cluster`log, cluster`channels
    ensures cluster.log == old(cluster.log) + [ConnectExec(ExecStreamRequest(t, ShellCommand(command)))]
    ensures var reply := old(cluster.NextReply(ConnectExec(ExecStreamRequest(t, ShellCommand(command)))));
      && r == ExecResult(t, reply, stderr)
      && (reply.Rejected? ==> cluster.channels == old(cluster.channels) && stderr == [])
      && (reply.Accepted? ==>
            && |cluster.channels| == |old(cluster.channels)| + 1
            && cluster.channels[..|old(cluster.channels)|] == old(cluster.channels)
            && cluster.channels[|old(cluster.channels)|].closeCalls == 1
            && !cluster.channels[|old(cluster.channels)|].open
            && cluster.channels[|old(cluster.channels)|].stdinWrites == []
            && Concat(stderr) == ErrText(reply.frames)
            && (forall i :: 0 <= i < |stderr| ==> stderr[i] != ""))
  {
    var req := ExecStreamRequest(t, ShellCommand(command));
    ghost var reply := cluster.NextReply(ConnectExec(req));
    var conn := cluster.Connect(req);
    if conn.Err? {
      stderr := [];
      var e := conn.error;
      if e.ApiException? {
        r := Raised(Raise(KubernetesResourceWasNotFound,
                          [Str("The pod " + Render(t.name) + " was not found in " + Render(t.namespace) + " namespace."),
                           Str(e.reason)]));
      } else {
        r := Raised(e);
      }
      return;
    }
    var resp: Channel := conn.value;
    var chunks := DrainStream(resp);
    resp.Close();
    if resp.returncode != 0 {
      r := Raised(Raise(FailedToExecuteCommand, [Str("Failed to execute sh command in pod"), Str(Join(chunks, ", "))]));
    } else {
      r := Done;
    }
    stderr := chunks;
  }

  /** `create_directory(path)`: run `mkdir -p <path>`; it fails exactly when that command does. */
  method CreateDirectory(t: Target, cluster: Cluster, path: string) returns (r: Outcome, ghost stderr: seq<string>)
    modifies cluster`log, cluster`channels
    ensures cluster.log == old(cluster.log) + [ConnectExec(ExecStreamRequest(t, ShellCommand("mkdir -p " + path)))]
    ensures var reply := old(cluster.NextReply(ConnectExec(ExecStreamRequest(t, ShellCommand("mkdir -p " + path)))));
      && r == ExecResult(t, reply, stderr)
      && (reply.Accepted? ==> |cluster.channels| == |old(cluster.channels)| + 1
                              && cluster.channels[|old(cluster.channels)|].closeCalls == 1
                              && Concat(stderr) == ErrText(reply.frames))
      && (reply.Rejected? ==> cluster.channels == old(cluster.channels))
  {
    r, stderr := ExecBash(t, cluster, "mkdir -p " + path);
  }
}
