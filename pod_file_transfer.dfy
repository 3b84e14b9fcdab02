/// Copying a file into and out of a pod over an exec stream.
///
/// Upload runs `tar xvf - -C <destination>` in the pod and pumps a local archive
/// of the file into the stream's stdin in chunks of at most 1024 bytes. Download
/// runs `tar cmf - -C <dir> <name>` and appends the UTF-8 encoding of every stdout
/// read to a local buffer, which is then extracted. The archive format itself is
/// opaque here: building and extracting an archive are parameters.
module PodFileTransfer {
  import opened Values
  import opened Exceptions
  import opened KubeClient
  import opened PosixPath
  import opened Pod

  /** The most bytes one read of the upload buffer takes. */
  const ChunkSize: nat := 1024

  /** The command that unpacks the uploaded archive in the pod. */
  function UploadCommand(destination: string): (v: seq<string>)
    ensures |v| == 5 && v[4] == destination
  {
    ["tar", "xvf", "-", "-C", destination]
  }

  /**
   * The command that packs `source` in the pod: change to its directory and
   * archive its last component, which holds no slash.
   */
  function DownloadCommand(source: string): (v: seq<string>)
    ensures |v| == 6 && v[..4] == ["tar", "cmf", "-", "-C"]
    ensures v[5] == Basename(source) && forall k :: 0 <= k < |v[5]| ==> v[5][k] != '/'
    ensures |v[4]| + |v[5]| <= |source| && source[..|v[4]|] == v[4]
    ensures AllSlashes(source[|v[4]|..|source| - |v[5]|])
  {
    SplitShape(source);
    var (dir, name) := Split(source);
    ["tar", "cmf", "-", "-C", dir, name]
  }

  /** The member `tar.add` is asked for: the file's path, stored under its basename. */
  datatype TarMember = TarMember(path: string, arcname: string)

  /** A seekable temporary file: its bytes and the position of the next read or write. */
  class TempFile {
    var data: seq<byte>
    var pos: nat

    ghost predicate Valid()
      reads this
    {
      pos <= |data|
    }

    constructor ()
      ensures Valid() && data == [] && pos == 0
    {
      data, pos := [], 0;
    }

    /** `read(n)`: up to `n` bytes from the position on; fewer only at the end of the file. */
    method Read(n: nat) returns (chunk: seq<byte>)
      requires Valid()
      modifies this`pos
      ensures Valid()
      ensures pos == old(pos) + |chunk| && chunk == data[old(pos)..pos]
      ensures |chunk| == if old(pos) + n <= |data| then n else |data| - old(pos)
    {
      var end := if pos + n <= |data| then pos + n else |data|;
      chunk := data[pos..end];
      pos := end;
    }

    /** `write(bytes)`: overwrite from the position on, extending the file as needed. */
    method Write(bytes: seq<byte>)
      requires Valid()
      modifies this
      ensures Valid()
      ensures pos == old(pos) + |bytes|
      ensures data == old(data[..pos]) + bytes
                      + (if old(pos) + |bytes| < old(|data|) then old(data)[old(pos) + |bytes|..] else [])
    {
      data := data[..pos] + bytes + (if pos + |bytes| < |data| then data[pos + |bytes|..] else []);
      pos := pos + |bytes|;
    }

    /** `seek(0)`. */
    method SeekStart()
      modifies this`pos
      ensures pos == 0
    {
      pos := 0;
    }
  }

  /**
   * `_create_tar_buffer`: write the archive of `source`, stored under its
   * basename, into the buffer and rewind it. A failure to build the archive
   * propagates and leaves the buffer as it was.
   */
  method CreateTarBuffer(buf: TempFile, source: string, tar: TarMember -> Result<seq<byte>, Exc>)
    returns (r: Outcome)
    requires buf.Valid()
    modifies buf
    ensures buf.Valid()
    ensures var archive := tar(TarMember(source, Basename(source)));
      && (r.Done? <==> archive.Ok?)
      && (archive.Err? ==> r == Raised(archive.error) && buf.data == old(buf.data) && buf.pos == old(buf.pos))
      && (archive.Ok? ==>
            && buf.pos == 0
            && buf.data == old(buf.data[..buf.pos]) + archive.value
                           + (if old(buf.pos) + |archive.value| < old(|buf.data|)
                              then old(buf.data)[old(buf.pos) + |archive.value|..] else []))
  {
    var archive := tar(TarMember(source, Basename(source)));
    if archive.Err? {
      return Raised(archive.error);
    }
    buf.Write(archive.value);
    buf.SeekStart();
    r := Done;
  }

  /**
   * `_stream_to_pod`: while the stream is open, read up to 1024 bytes from the
   * buffer and write them to stdin; an empty read ends the loop; then close.
   * The pod receives exactly the bytes read, in order, and the count returned
   * is their number. If the stream stays open the whole rest of the buffer is
   * sent; if it is already closed nothing is.
   */
  method StreamToPod(buf: TempFile, resp: Channel) returns (total: nat)
    requires buf.Valid() && resp.Valid()
    modifies buf`pos, resp`stdinWrites, resp`open, resp`script, resp`pendingOut, resp`pendingErr, resp`closeCalls
    ensures buf.Valid() && buf.data == old(buf.data) && buf.pos == old(buf.pos) + total
    ensures resp.Received() == old(resp.Received()) + buf.data[old(buf.pos)..buf.pos]
    ensures |old(resp.stdinWrites)| <= |resp.stdinWrites|
    ensures resp.stdinWrites[..|old(resp.stdinWrites)|] == old(resp.stdinWrites)
    ensures forall i :: |old(resp.stdinWrites)| <= i < |resp.stdinWrites| ==> 1 <= |resp.stdinWrites[i]| <= ChunkSize
    ensures old(resp.open) ==> buf.pos == |buf.data|
    ensures !old(resp.open) ==> total == 0 && resp.stdinWrites == old(resp.stdinWrites)
    ensures resp.Valid() && !resp.open && resp.closeCalls == old(resp.closeCalls) + 1
  {
    total := 0;
    while resp.IsOpen()
      invariant buf.Valid() && buf.data == old(buf.data) && buf.pos == old(buf.pos) + total
      invariant resp.Received() == old(resp.Received()) + buf.data[old(buf.pos)..buf.pos]
      invariant |old(resp.stdinWrites)| <= |resp.stdinWrites|
      invariant resp.stdinWrites[..|old(resp.stdinWrites)|] == old(resp.stdinWrites)
      invariant forall i :: |old(resp.stdinWrites)| <= i < |resp.stdinWrites| ==> 1 <= |resp.stdinWrites[i]| <= ChunkSize
      invariant resp.open == old(resp.open) && resp.Valid() && resp.closeCalls == old(resp.closeCalls)
      invariant !resp.open ==> total == 0 && resp.stdinWrites == old(resp.stdinWrites)
      decreases |buf.data| - buf.pos
    {
      ghost var before := buf.pos;
      var chunk := buf.Read(ChunkSize);
      if chunk != [] {
        resp.WriteStdin(chunk);
        total := total + |chunk|;
        assert buf.data[old(buf.pos)..before] + buf.data[before..buf.pos] == buf.data[old(buf.pos)..buf.pos];
      } else {
        break;
      }
    }
    resp.Close();
  }

  /** The stdout half of a download round: if stdout holds data, append its encoding to the buffer. */
  method SaveStdout(resp: Channel, buf: TempFile) returns (got: string)
    requires resp.Valid() && buf.Valid() && buf.pos == |buf.data|
    modifies buf, resp`open, resp`script, resp`pendingOut, resp`pendingErr
    ensures resp.Valid() && resp.Progress() <= old(resp.Progress())
    ensures got + resp.OutstandingOut() == old(resp.OutstandingOut())
    ensures buf.Valid() && buf.data == old(buf.data) + Encode(got) && buf.pos == |buf.data|
    ensures old(resp.open) && old(resp.script) == [] && old(resp.pendingOut) != "" ==>
      resp.Progress() < old(resp.Progress())
    ensures old(resp.script) == [] && old(resp.pendingOut) == "" ==>
      && resp.script == [] && resp.pendingOut == "" && resp.pendingErr == old(resp.pendingErr)
      && resp.open == (old(resp.open) && resp.pendingErr != "")
  {
    var hasOut := resp.PeekStdout();
    got := "";
    if hasOut {
      got := resp.ReadStdout();
      buf.Write(Encode(got));
    }
  }

  /** The stderr half of a download round: print whatever stderr holds; it never ends the loop. */
  method ForwardStderr(resp: Channel)
    requires resp.Valid()
    modifies resp`open, resp`script, resp`pendingOut, resp`pendingErr
    ensures resp.Valid() && resp.Progress() <= old(resp.Progress())
    ensures resp.OutstandingOut() == old(resp.OutstandingOut())
    ensures old(resp.open) && old(resp.script) == [] && old(resp.pendingErr) != "" ==>
      resp.Progress() < old(resp.Progress())
  {
    var hasErr := resp.PeekStderr();
    if hasErr {
      var err := resp.ReadStderr();   // printed to stderr
    }
  }

  /**
   * One round of the read loop of `_stream_from_pod`: poll, append the encoding
   * of whatever stdout holds to the buffer, then print whatever stderr holds.
   */
  method DownloadRound(resp: Channel, buf: TempFile) returns (got: string)
    requires resp.Valid() && resp.open && buf.Valid() && buf.pos == |buf.data|
    modifies buf, resp`open, resp`script, resp`pendingOut, resp`pendingErr
    ensures resp.Valid() && resp.Progress() < old(resp.Progress())
    ensures got + resp.OutstandingOut() == old(resp.OutstandingOut())
    ensures buf.Valid() && buf.data == old(buf.data) + Encode(got) && buf.pos == |buf.data|
  {
    resp.Update();
    got := SaveStdout(resp, buf);
    ForwardStderr(resp);
  }

  /**
   * The read loop of `_stream_from_pod`: rounds until the stream reports
   * closed. The buffer gains the encoding of everything the pod wrote to
   * stdout, in order, and the count adds up the lengths of the decoded reads.
   */
  method DownloadRounds(resp: Channel, buf: TempFile) returns (total: nat)
    requires resp.Valid() && buf.Valid() && buf.pos == |buf.data|
    modifies buf, resp`open, resp`script, resp`pendingOut, resp`pendingErr
    ensures buf.Valid() && buf.pos == |buf.data|
    ensures buf.data == old(buf.data) + Encode(old(resp.OutstandingOut()))
    ensures total == |old(resp.OutstandingOut())|
    ensures resp.Valid() && !resp.open && resp.closeCalls == old(resp.closeCalls)
  {
    total := 0;
    ghost var read := "";
    while resp.IsOpen()
      invariant resp.Valid() && resp.closeCalls == old(resp.closeCalls)
      invariant read + resp.OutstandingOut() == old(resp.OutstandingOut())
      invariant buf.Valid() && buf.pos == |buf.data| && buf.data == old(buf.data) + Encode(read)
      invariant total == |read|
      decreases resp.Progress()
    {
      ghost var rest := resp.OutstandingOut();
      var got := DownloadRound(resp, buf);
      total := total + |got|;
      EncodeAppend(read, got);
      assert (read + got) + resp.OutstandingOut() == read + rest;
      read := read + got;
    }
    assert read == old(resp.OutstandingOut());
  }

  /**
   * `_stream_from_pod`: run rounds while the stream is open, then close it. The
   * buffer gains the encoding of everything the pod wrote to stdout, in order.
   * The count returned adds up the lengths of the decoded reads, so it is at
   * most the number of bytes written, and equal only for ASCII text.
   */
  method StreamFromPod(resp: Channel, buf: TempFile) returns (total: nat)
    requires resp.Valid() && buf.Valid() && buf.pos == |buf.data|
    modifies buf, resp`open, resp`script, resp`pendingOut, resp`pendingErr, resp`closeCalls
    ensures buf.Valid() && buf.pos == |buf.data|
    ensures buf.data == old(buf.data) + Encode(old(resp.OutstandingOut()))
    ensures total == |old(resp.OutstandingOut())| && total <= |buf.data| - |old(buf.data)|
    ensures total == |buf.data| - |old(buf.data)|
            <==> forall i :: 0 <= i < total ==> old(resp.OutstandingOut())[i] as int < 0x80
    ensures resp.Valid() && !resp.open && resp.closeCalls == old(resp.closeCalls) + 1
  {
    total := DownloadRounds(resp, buf);
    resp.Close();
    EncodeLength(old(resp.OutstandingOut()));
  }

  /** `_extract_tar_to_destination`: rewind the buffer and extract the whole archive. */
  method ExtractTarToDestination(buf: TempFile, destination: string, untar: (seq<byte>, string) -> Outcome)
    returns (r: Outcome)
    modifies buf`pos
    ensures buf.pos == 0
    ensures r == untar(buf.data, destination)
  {
    buf.SeekStart();
    r := untar(buf.data[buf.pos..], destination);
  }

  /**
   * The guarded part of `copy_file_to_pod` on an open stream: archive the file
   * into a fresh buffer and pump it. A failure to build the archive is caught
   * and printed, and leaves the stream open and untouched.
   */
  method UploadArchive(resp: Channel, source: string, tar: TarMember -> Result<seq<byte>, Exc>)
    requires resp.Valid() && resp.open && resp.stdinWrites == [] && resp.closeCalls == 0
    modifies resp`stdinWrites, resp`open, resp`script, resp`pendingOut, resp`pendingErr, resp`closeCalls
    ensures var archive := tar(TarMember(source, Basename(source)));
      && (archive.Ok? ==> resp.Received() == archive.value && resp.closeCalls == 1 && !resp.open
                          && forall i :: 0 <= i < |resp.stdinWrites| ==> 1 <= |resp.stdinWrites[i]| <= ChunkSize)
      && (archive.Err? ==> resp.stdinWrites == [] && resp.closeCalls == 0 && resp.open)
  {
    var buf := new TempFile();
    var made := CreateTarBuffer(buf, source, tar);
    if made.Raised? {
      return;   // printed, not propagated
    }
    var total := StreamToPod(buf, resp);
    assert buf.data[0..buf.pos] == buf.data;
  }

  /**
   * `copy_file_to_pod`: open the upload stream (a failure here propagates), then
   * archive the file and pump it. A failure to build the archive is caught and
   * printed, and leaves the stream open; otherwise the pod receives exactly the
   * archive, in chunks of 1 to 1024 bytes, and the stream is closed once.
   */
  method CopyFileToPod(t: Target, cluster: Cluster, source: string, destination: string,
                       tar: TarMember -> Result<seq<byte>, Exc>) returns (r: Outcome)
    modifies cluster`log, cluster`channels
    ensures cluster.log == old(cluster.log) + [ConnectExec(ExecStreamRequest(t, UploadCommand(destination)))]
    ensures var reply := old(cluster.NextReply(ConnectExec(ExecStreamRequest(t, UploadCommand(destination)))));
      && (reply.Rejected? ==> r == Raised(reply.fault) && cluster.channels == old(cluster.channels))
      && (reply.Accepted? ==> r == Done && |cluster.channels| == |old(cluster.channels)| + 1
                              && cluster.channels[..|old(cluster.channels)|] == old(cluster.channels))
    ensures var reply := old(cluster.NextReply(ConnectExec(ExecStreamRequest(t, UploadCommand(destination)))));
      var archive := tar(TarMember(source, Basename(source)));
      reply.Accepted? ==>
        var ch := cluster.channels[|old(cluster.channels)|];
        && (archive.Ok? ==> ch.Received() == archive.value && ch.closeCalls == 1 && !ch.open
                            && forall i :: 0 <= i < |ch.stdinWrites| ==> 1 <= |ch.stdinWrites[i]| <= ChunkSize)
        && (archive.Err? ==> ch.stdinWrites == [] && ch.closeCalls == 0 && ch.open)
  {
    var req := ExecStreamRequest(t, UploadCommand(destination));
    var conn := cluster.Connect(req);
    if conn.Err? {
      return Raised(conn.error);
    }
    var resp: Channel := conn.value;
    UploadArchive(resp, source, tar);
    r := Done;
  }

  /**
   * `copy_file_from_pod`: open the download stream for the split source path (a
   * failure here propagates), drain it into a fresh buffer, and extract what
   * arrived. The archive extracted is the encoding of everything the pod wrote
   * to stdout; the stream is closed once and receives nothing on stdin.
   */
  method CopyFileFromPod(t: Target, cluster: Cluster, source: string, destination: string,
                         untar: (seq<byte>, string) -> Outcome) returns (r: Outcome)
    modifies cluster`log, cluster`channels
    ensures cluster.log == old(cluster.log) + [ConnectExec(ExecStreamRequest(t, DownloadCommand(source)))]
    ensures var reply := old(cluster.NextReply(ConnectExec(ExecStreamRequest(t, DownloadCommand(source)))));
      && (reply.Rejected? ==> r == Raised(reply.fault) && cluster.channels == old(cluster.channels))
      && (reply.Accepted? ==>
            && r == untar(Encode(OutText(reply.frames)), destination)
            && |cluster.channels| == |old(cluster.channels)| + 1
            && cluster.channels[..|old(cluster.channels)|] == old(cluster.channels)
            && cluster.channels[|old(cluster.channels)|].closeCalls == 1
            && cluster.channels[|old(cluster.channels)|].stdinWrites == [])
  {
    var req := ExecStreamRequest(t, DownloadCommand(source));
    var conn := cluster.Connect(req);
    if conn.Err? {
      return Raised(conn.error);
    }
    var resp: Channel := conn.value;
    var buf := new TempFile();
    ghost var out := resp.OutstandingOut();
    assert out == OutText(resp.script);
    var total := StreamFromPod(resp, buf);
    assert buf.data == Encode(out);
    r := ExtractTarToDestination(buf, destination, untar);
  }
}
