/// Python-level values that the tool passes around: YAML documents and resource
/// bodies, command parameters, the cached fields of a resource object, and the
/// text and byte helpers (joining, UTF-8 encoding) that the core relies on.
module Values {

  datatype Option<+T> = None | Some(value: T)

  datatype Result<+T, +E> = Ok(value: T) | Err(error: E)

  /** A byte of a file, an archive or a stream. */
  type byte = b: int | 0 <= b < 256

  /** A value as Python sees it. `Null` is `None`; `Handle` is an object the model does not look inside. */
  datatype Value =
    | Null
    | Str(s: string)
    | Int(i: int)
    | Bool(b: bool)
    | List(items: seq<Value>)
    | Dict(entries: map<string, Value>)
    | Handle(tag: string)

  /** Python truthiness of a value. */
  predicate Truthy(v: Value)
  {
    match v
    case Null => false
    case Str(s) => s != ""
    case Int(i) => i != 0
    case Bool(b) => b
    case List(items) => items != []
    case Dict(m) => m != map[]
    case Handle(_) => true
  }

  /** `m.get(key)`: the entry, or `None` when the key is absent. */
  function Get(m: map<string, Value>, key: string): Value
  {
    if key in m then m[key] else Null
  }

  /** Decimal digits of a natural number, as `str(n)` prints it. */
  function NatToString(n: nat): (s: string)
    ensures |s| >= 1
    decreases n
  {
    var d := ['0', '1', '2', '3', '4', '5', '6', '7', '8', '9'][n % 10];
    if n < 10 then [d] else NatToString(n / 10) + [d]
  }

  /** Text of `f"{v}"` for the scalar values that the core formats into messages. */
  function Render(v: Value): string
  {
    match v
    case Null => "None"
    case Str(s) => s
    case Int(i) => if i < 0 then "-" + NatToString(-i) else NatToString(i)
    case Bool(b) => if b then "True" else "False"
    case List(_) => "[...]"
    case Dict(_) => "{...}"
    case Handle(tag) => "<" + tag + ">"
  }

  /** The quote `repr(s)` puts around a string: double quotes only when `s` has a single quote and no double quote. */
  function QuoteFor(s: string): char
  {
    if '\'' in s && '"' !in s then '"' else '\''
  }

  /** `s` with the characters that `repr` writes as escape sequences so written, for strings quoted with `q`. */
  function EscapeRepr(s: string, q: char): (r: string)
    ensures |s| <= |r|
  {
    if s == [] then ""
    else
      var c := s[0];
      var e := if c == '\\' then "\\\\"
               else if c == q then ['\\', q]
               else if c == '\n' then "\\n"
               else if c == '\r' then "\\r"
               else if c == '\t' then "\\t"
               else [c];
      e + EscapeRepr(s[1..], q)
  }

  /** Text of `repr(v)`, as a tuple or `str()` of an exception shows its arguments. */
  function Repr(v: Value): string
  {
    match v
    case Str(s) => var q := QuoteFor(s); [q] + EscapeRepr(s, q) + [q]
    case _ => Render(v)
  }

  /** A character that `repr` escapes, or that changes its choice of quote. */
  predicate Special(c: char)
  {
    c == '\\' || c == '\'' || c == '\n' || c == '\r' || c == '\t'
  }

  /** No character of `s` is special to `repr`. */
  predicate Plain(s: string)
  {
    forall k :: 0 <= k < |s| ==> !Special(s[k])
  }

  /** A plain string is shown by `repr` as itself between single quotes. */
  lemma {:induction false} ReprOfPlain(s: string)
    requires Plain(s)
    ensures Repr(Str(s)) == "'" + s + "'"
  {
    EscapePlain(s);
  }

  /** Escaping leaves a plain string alone. */
  lemma {:induction false} EscapePlain(s: string)
    requires Plain(s)
    ensures EscapeRepr(s, '\'') == s
  {
    if s != [] {
      assert s[0] == s[0..1][0];
      assert Plain(s[1..]) by {
        forall k | 0 <= k < |s[1..]| ensures !Special(s[1..][k]) {
          assert s[1..][k] == s[k + 1];
        }
      }
      EscapePlain(s[1..]);
      assert s == [s[0]] + s[1..];
    }
  }

  /** Concatenation of a list of strings, `"".join(parts)`. */
  function Concat(parts: seq<string>): string
  {
    if parts == [] then "" else Concat(parts[..|parts| - 1]) + parts[|parts| - 1]
  }

  /** `sep.join(parts)`. */
  function Join(parts: seq<string>, sep: string): string
  {
    if parts == [] then ""
    else if |parts| == 1 then parts[0]
    else Join(parts[..|parts| - 1], sep) + sep + parts[|parts| - 1]
  }

  /** Concatenation of a list of byte chunks, in order. */
  function Flatten(chunks: seq<seq<byte>>): seq<byte>
  {
    if chunks == [] then [] else Flatten(chunks[..|chunks| - 1]) + chunks[|chunks| - 1]
  }

  /** Appending one chunk to the list appends its bytes to the flattened sequence. */
  lemma {:induction false} FlattenAppend(chunks: seq<seq<byte>>, c: seq<byte>)
    ensures Flatten(chunks + [c]) == Flatten(chunks) + c
  {
    assert (chunks + [c])[..|chunks|] == chunks;
  }

  // ---------------------------------------------------------------------------
  // UTF-8, as `str.encode()` produces it.
  // ---------------------------------------------------------------------------

  /** The UTF-8 encoding of one character: one byte for ASCII, up to four otherwise. */
  function EncodeChar(c: char): (bs: seq<byte>)
    ensures 1 <= |bs| <= 4
    ensures |bs| == 1 <==> c as int < 0x80
  {
    var n := c as int;
    if n < 0x80 then [n]
    else if n < 0x800 then [0xC0 + n / 64, 0x80 + n % 64]
    else if n < 0x10000 then [0xE0 + n / 4096, 0x80 + (n / 64) % 64, 0x80 + n % 64]
    else [0xF0 + n / 262144 % 8, 0x80 + (n / 4096) % 64, 0x80 + (n / 64) % 64, 0x80 + n % 64]
  }

  /** `s.encode()`: the UTF-8 bytes of a string. */
  function Encode(s: string): seq<byte>
  {
    if s == [] then [] else EncodeChar(s[0]) + Encode(s[1..])
  }

  /** Encoding distributes over concatenation, so encoding chunk by chunk equals encoding the whole. */
  lemma {:induction false} EncodeAppend(a: string, b: string)
    ensures Encode(a + b) == Encode(a) + Encode(b)
  {
    if a != [] {
      assert (a + b)[0] == a[0];
      assert (a + b)[1..] == a[1..] + b;
      EncodeAppend(a[1..], b);
    } else {
      assert a + b == b;
    }
  }

  /** Every character is encoded in at least one byte, and in exactly one only when it is ASCII. */
  lemma {:induction false} EncodeLength(s: string)
    ensures |s| <= |Encode(s)|
    ensures |Encode(s)| == |s| <==> forall i :: 0 <= i < |s| ==> s[i] as int < 0x80
  {
    if s != [] {
      EncodeLength(s[1..]);
      assert forall i :: 1 <= i < |s| ==> s[i] == s[1..][i - 1];
      if |Encode(s)| == |s| {
        assert |EncodeChar(s[0])| == 1;
      }
    }
  }
}
