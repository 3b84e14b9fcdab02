/// Abstract stand-in for the Kubernetes client that the core drives.
///
/// A `Cluster` records every request it receives, in order, and answers each one
/// from a fixed answer function of (position in the log, request); that function
/// plays the part of the real cluster. An exec request that is accepted opens a
/// `Channel`: a multiplexed stream whose remote side is a script of stdout and
/// stderr frames, delivered one per `Update`, followed by an exit status.
module KubeClient {
  import opened Values
  import opened Exceptions

  /** The three declarative resource kinds the tool handles. */
  datatype ResourceKind = PodKind | ServiceKind | DeploymentKind

  /** A chunk of output the remote command produces on one of its two output flows. */
  datatype Frame = StdoutFrame(text: string) | StderrFrame(text: string)

  /** The arguments of one `stream(connect_get_namespaced_pod_exec, ...)` call. */
  datatype ExecRequest = ExecRequest(
    name: Value, namespace: Value, command: seq<string>,
    stdin: bool, stdout: bool, stderr: bool, tty: bool)

  /** A request sent to the cluster. */
  datatype Request =
    | CreateNamespaced(kind: ResourceKind, namespace: Value, body: Value)
    | DeleteNamespaced(kind: ResourceKind, name: Value, namespace: Value)
    | ConnectExec(exec: ExecRequest)
    | ListNamespace

  /**
   * The cluster's answer to a request: the call returns normally (for an exec
   * request, with a channel whose remote side sends `frames` then exits with
   * `returncode`), or it raises `fault`.
   */
  datatype Reply = Accepted(frames: seq<Frame>, returncode: int) | Rejected(fault: Exc)

  /** How a call that returns nothing ends, given the cluster's reply. */
  function OutcomeOf(reply: Reply): (r: Outcome)
    ensures r.Done? <==> reply.Accepted?
    ensures reply.Rejected? ==> r.exc == reply.fault
  {
    match reply
    case Accepted(_, _) => Done
    case Rejected(e) => Raised(e)
  }

  /** Everything the remote side writes to stdout, in order. */
  function OutText(frames: seq<Frame>): string
  {
    if frames == [] then ""
    else (if frames[0].StdoutFrame? then frames[0].text else "") + OutText(frames[1..])
  }

  /** Everything the remote side writes to stderr, in order. */
  function ErrText(frames: seq<Frame>): string
  {
    if frames == [] then ""
    else (if frames[0].StderrFrame? then frames[0].text else "") + ErrText(frames[1..])
  }

  /**
   * A live exec stream. `open` is what `is_open()` reports; `pendingOut` and
   * `pendingErr` are the data received but not yet read; `script` is what the
   * remote side has still to send; `stdinWrites` is every chunk written to stdin.
   * The channel reports closed only once the remote side has finished and every
   * received byte has been read, or after `close()`.
   */
  class Channel {
    const request: ExecRequest
    const returncode: int
    var open: bool
    var script: seq<Frame>
    var pendingOut: string
    var pendingErr: string
    var stdinWrites: seq<seq<byte>>
    var closeCalls: nat

    ghost predicate Valid()
      reads this
    {
      !open ==> script == [] && pendingOut == "" && pendingErr == ""
    }

    /** Stdout data the client has still to read: buffered, then still to arrive. */
    ghost function OutstandingOut(): string
      reads this
    {
      pendingOut + OutText(script)
    }

    /** Stderr data the client has still to read: buffered, then still to arrive. */
    ghost function OutstandingErr(): string
      reads this
    {
      pendingErr + ErrText(script)
    }

    /** A measure that no operation increases and that every poll round decreases. */
    ghost function Progress(): nat
      reads this
    {
      3 * |script| + (if pendingOut != "" then 1 else 0) + (if pendingErr != "" then 1 else 0)
      + (if open then 1 else 0)
    }

    /** Every byte the remote side has received on stdin, in order. */
    function Received(): seq<byte>
      reads this
    {
      Flatten(stdinWrites)
    }

    constructor (request: ExecRequest, frames: seq<Frame>, returncode: int)
      ensures Valid() && open
      ensures this.request == request && this.returncode == returncode
      ensures script == frames && pendingOut == "" && pendingErr == ""
      ensures stdinWrites == [] && closeCalls == 0
    {
      this.request := request;
      this.returncode := returncode;
      open := true;
      script := frames;
      pendingOut, pendingErr := "", "";
      stdinWrites := [];
      closeCalls := 0;
    }

    /** `is_open()`. */
    predicate IsOpen()
      reads this
    {
      open
    }

    /**
     * `update()`: receive the next frame, if the remote side has one; once it has
     * sent everything and the client has read everything, the channel closes.
     */
    method Update()
      requires Valid()
      modifies this`open, this`script, this`pendingOut, this`pendingErr
      ensures Valid()
      ensures old(script) != [] ==>
        && open
        && script == old(script)[1..]
        && pendingOut == old(pendingOut) + (if old(script)[0].StdoutFrame? then old(script)[0].text else "")
        && pendingErr == old(pendingErr) + (if old(script)[0].StderrFrame? then old(script)[0].text else "")
      ensures old(script) == [] ==>
        && script == [] && pendingOut == old(pendingOut) && pendingErr == old(pendingErr)
        && open == (old(open) && (pendingOut != "" || pendingErr != ""))
      ensures OutstandingOut() == old(OutstandingOut()) && OutstandingErr() == old(OutstandingErr())
      ensures old(open) ==> Progress() < old(Progress()) || (script == [] && pendingOut == old(pendingOut) && pendingErr == old(pendingErr)
                                             && open && (pendingOut != "" || pendingErr != ""))
    {
      if script != [] {
        var f := script[0];
        script := script[1..];
        match f
        case StdoutFrame(t) => pendingOut := pendingOut + t;
        case StderrFrame(t) => pendingErr := pendingErr + t;
      } else if pendingOut == "" && pendingErr == "" {
        open := false;
      }
    }

    /** `peek_stdout()`: poll the connection, then report whether stdout data is buffered. */
    method PeekStdout() returns (b: bool)
      requires Valid()
      modifies this`open, this`script, this`pendingOut, this`pendingErr
      ensures Valid()
      ensures b <==> pendingOut != ""
      ensures OutstandingOut() == old(OutstandingOut()) && OutstandingErr() == old(OutstandingErr())
      ensures old(open) ==> Progress() < old(Progress()) || (script == [] && pendingOut == old(pendingOut) && pendingErr == old(pendingErr)
                                             && open && (pendingOut != "" || pendingErr != ""))
      ensures Progress() <= old(Progress())
      ensures old(script) != [] ==> |script| < old(|script|)
      ensures old(script) == [] ==>
        script == [] && pendingOut == old(pendingOut) && pendingErr == old(pendingErr)
        && open == (old(open) && (pendingOut != "" || pendingErr != ""))
    {
      Update();
      b := pendingOut != "";
    }

    /** `peek_stderr()`: poll the connection, then report whether stderr data is buffered. */
    method PeekStderr() returns (b: bool)
      requires Valid()
      modifies this`open, this`script, this`pendingOut, this`pendingErr
      ensures Valid()
      ensures b <==> pendingErr != ""
      ensures OutstandingOut() == old(OutstandingOut()) && OutstandingErr() == old(OutstandingErr())
      ensures old(open) ==> Progress() < old(Progress()) || (script == [] && pendingOut == old(pendingOut) && pendingErr == old(pendingErr)
                                             && open && (pendingOut != "" || pendingErr != ""))
      ensures Progress() <= old(Progress())
      ensures old(script) != [] ==> |script| < old(|script|)
      ensures old(script) == [] ==>
        script == [] && pendingOut == old(pendingOut) && pendingErr == old(pendingErr)
        && open == (old(open) && (pendingOut != "" || pendingErr != ""))
    {
      Update();
      b := pendingErr != "";
    }

    /** `read_stdout()`: take everything buffered on stdout (polling first if nothing is). */
    method ReadStdout() returns (s: string)
      requires Valid()
      modifies this`open, this`script, this`pendingOut, this`pendingErr
      ensures Valid()
      ensures pendingOut == ""
      ensures s + OutstandingOut() == old(OutstandingOut())
      ensures OutstandingErr() == old(OutstandingErr())
      ensures old(pendingOut) != "" ==> s == old(pendingOut) && Progress() < old(Progress())
      ensures Progress() <= old(Progress())
    {
      if pendingOut == "" {
        Update();
      }
      s := pendingOut;
      pendingOut := "";
    }

    /** `read_stderr()`: take everything buffered on stderr (polling first if nothing is). */
    method ReadStderr() returns (s: string)
      requires Valid()
      modifies this`open, this`script, this`pendingOut, this`pendingErr
      ensures Valid()
      ensures pendingErr == ""
      ensures s + OutstandingErr() == old(OutstandingErr())
      ensures OutstandingOut() == old(OutstandingOut())
      ensures old(pendingErr) != "" ==> s == old(pendingErr) && Progress() < old(Progress())
      ensures Progress() <= old(Progress())
    {
      if pendingErr == "" {
        Update();
      }
      s := pendingErr;
      pendingErr := "";
    }

    /** `write_stdin(chunk)`: the remote side receives the chunk after everything sent before it. */
    method WriteStdin(chunk: seq<byte>)
      modifies this`stdinWrites
      ensures stdinWrites == old(stdinWrites) + [chunk]
      ensures Received() == old(Received()) + chunk
    {
      stdinWrites := stdinWrites + [chunk];
      FlattenAppend(old(stdinWrites), chunk);
    }

    /** `close()`: terminate the connection; whatever was not read is dropped. */
    method Close()
      modifies this`open, this`script, this`pendingOut, this`pendingErr, this`closeCalls
      ensures Valid() && !open
      ensures closeCalls == old(closeCalls) + 1
    {
      open := false;
      script, pendingOut, pendingErr := [], "", "";
      closeCalls := closeCalls + 1;
    }
  }

  /**
   * The cluster as the tool sees it through the client: it logs every request in
   * order and answers it with `answer(position, request)`; `channels` lists the
   * exec channels it has opened.
   */
  class Cluster {
    const answer: (nat, Request) -> Reply
    var log: seq<Request>
    var channels: seq<Channel>

    constructor (answer: (nat, Request) -> Reply)
      ensures this.answer == answer && log == [] && channels == []
    {
      this.answer := answer;
      log := [];
      channels := [];
    }

    /** The reply the next request would receive. */
    function NextReply(req: Request): Reply
      reads this
    {
      answer(|log|, req)
    }

    /** A create, delete or list call: returns normally or raises, as the cluster answers. */
    method Call(req: Request) returns (r: Outcome)
      modifies this`log
      ensures log == old(log) + [req]
      ensures r == OutcomeOf(old(NextReply(req)))
    {
      r := OutcomeOf(NextReply(req));
      log := log + [req];
    }

    /** Opening an exec stream: a fresh open channel, or the exception the cluster raises. */
    method Connect(req: ExecRequest) returns (r: Result<Channel, Exc>)
      modifies this`log, this`channels
      ensures log == old(log) + [ConnectExec(req)]
      ensures match old(NextReply(ConnectExec(req)))
        case Rejected(e) => r == Err(e) && channels == old(channels)
        case Accepted(frames, rc) =>
          && r.Ok? && fresh(r.value) && channels == old(channels) + [r.value]
          && r.value.Valid() && r.value.open && r.value.request == req && r.value.returncode == rc
          && r.value.script == frames && r.value.pendingOut == "" && r.value.pendingErr == ""
          && r.value.stdinWrites == [] && r.value.closeCalls == 0
    {
      var reply := NextReply(ConnectExec(req));
      log := log + [ConnectExec(req)];
      match reply
      case Rejected(e) =>
        r := Err(e);
      case Accepted(frames, rc) =>
        var ch := new Channel(req, frames, rc);
        channels := channels + [ch];
        r := Ok(ch);
    }
  }
}
