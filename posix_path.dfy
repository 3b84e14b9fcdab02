/// The POSIX path rules the file transfer relies on: `os.path.split` and
/// `os.path.basename` with `/` as the only separator.
module PosixPath {

  /** Every character of `s` is a slash (vacuously so for the empty string). */
  predicate AllSlashes(s: string)
  {
    forall k :: 0 <= k < |s| ==> s[k] == '/'
  }

  /** `p.rfind('/') + 1`: where the last component of `p` starts. */
  function TailStart(p: string): (i: nat)
    ensures i <= |p|
    ensures i > 0 ==> p[i - 1] == '/'
    ensures forall j :: i <= j < |p| ==> p[j] != '/'
  {
    if p == [] then 0
    else if p[|p| - 1] == '/' then |p|
    else TailStart(p[..|p| - 1])
  }

  /** `s.rstrip('/')`: `s` without its trailing slashes. */
  function RStripSlashes(s: string): (r: string)
    ensures |r| <= |s| && s[..|r|] == r
    ensures r == [] || r[|r| - 1] != '/'
    ensures AllSlashes(s[|r|..])
  {
    if s != [] && s[|s| - 1] == '/' then RStripSlashes(s[..|s| - 1]) else s
  }

  /**
   * `os.path.split(p)`: the text after the last slash is the tail; the text up to
   * and including it is the head, with its trailing slashes removed unless it
   * consists of slashes only.
   */
  function Split(p: string): (r: (string, string))
    ensures r.1 == Basename(p)
    ensures |r.0| + |r.1| <= |p| && p[..|r.0|] == r.0
  {
    var i := TailStart(p);
    var head := p[..i];
    (if head != [] && !AllSlashes(head) then RStripSlashes(head) else head, p[i..])
  }

  /** `os.path.basename(p)`: the text after the last slash. */
  function Basename(p: string): (b: string)
    ensures |b| <= |p| && p[|p| - |b|..] == b
    ensures forall k :: 0 <= k < |b| ==> b[k] != '/'
  {
    p[TailStart(p)..]
  }

  /** Unless it is all of `p`, the basename starts right after a slash. */
  lemma BasenameFollowsSlash(p: string)
    ensures |Basename(p)| < |p| ==> p[|p| - |Basename(p)| - 1] == '/'
  {
  }

  /**
   * The shape of `split(p) == (head, tail)`: `p` is `head`, then a run of slashes,
   * then `tail`; the tail is the basename and holds no slash; the head is empty
   * exactly when `p` has no slash, and ends in a slash only when it is all slashes;
   * when everything up to the last slash is slashes, the head keeps all of them.
   */
  lemma {:induction false} SplitShape(p: string)
    ensures var (head, tail) := Split(p);
      && tail == Basename(p)
      && (forall k :: 0 <= k < |tail| ==> tail[k] != '/')
      && |head| + |tail| <= |p|
      && p[..|head|] == head && p[|p| - |tail|..] == tail
      && AllSlashes(p[|head|..|p| - |tail|])
      && (head == [] <==> forall k :: 0 <= k < |p| ==> p[k] != '/')
      && (head != [] && head[|head| - 1] == '/' ==> AllSlashes(head))
      && (AllSlashes(p[..TailStart(p)]) ==> head == p[..TailStart(p)])
  {
    var i := TailStart(p);
    var h := p[..i];
    var (head, tail) := Split(p);
    assert tail == p[i..];
    if h != [] && !AllSlashes(h) {
      var r := RStripSlashes(h);
      assert head == r;
      assert p[..|head|] == head by { assert p[..|head|] == h[..|head|]; }
      assert p[|head|..|p| - |tail|] == h[|r|..];
      assert p[i - 1] == '/';
    } else {
      assert head == h;
      assert p[|head|..|p| - |tail|] == [];
      if h != [] {
        assert p[i - 1] == '/';
      }
    }
  }
}
