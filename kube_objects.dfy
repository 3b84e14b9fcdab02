/// The common base of the Pod, Service and Deployment resource objects: a body
/// (the caller's dict, shared and mutable) and four cache fields (metadata,
/// namespace, name, spec) that the getters fill from the body on first read.
///
/// The getters' rules are stated once as functions on the `Fields` snapshot of an
/// object; the class's methods are proved to follow them.
module KubeObjects {
  import opened Values
  import opened Exceptions
  import opened KubeClient

  /** A dict that its owner may change in place. */
  class Dict {
    var entries: map<string, Value>

    constructor (entries: map<string, Value>)
      ensures this.entries == entries
    {
      this.entries := entries;
    }
  }

  /** The state a getter reads and writes: the body's entries (if any) and the four caches. */
  datatype Fields = Fields(
    body: Option<map<string, Value>>,
    metadata: Value, namespace: Value, name: Value, spec: Value)

  /** The name Python reports for the type of a value. */
  function TypeName(v: Value): string
  {
    match v
    case Null => "NoneType"
    case Str(_) => "str"
    case Int(_) => "int"
    case Bool(_) => "bool"
    case List(_) => "list"
    case Dict(_) => "dict"
    case Handle(tag) => tag
  }

  /** `v.get(key)`: only a dict has `.get`; on anything else it raises `AttributeError`. */
  function GetAttr(v: Value, key: string): (r: Result<Value, Exc>)
    ensures r.Ok? <==> v.Dict?
    ensures v.Dict? ==> r.value == Get(v.entries, key)
    ensures r.Err? ==> r.error.AttributeError?
  {
    if v.Dict? then Ok(Get(v.entries, key))
    else Err(AttributeError("'" + TypeName(v) + "' object has no attribute 'get'"))
  }

  /** The `metadata` getter: fill the cache from `body["metadata"]` when it is empty and a body exists. */
  function ReadMetadata(f: Fields): (r: (Fields, Value))
    ensures r.0 == f.(metadata := r.0.metadata) && r.1 == r.0.metadata
    ensures f.metadata != Null || f.body.None? ==> r == (f, f.metadata)
  {
    var g := if f.metadata == Null && f.body.Some? then f.(metadata := Get(f.body.value, "metadata")) else f;
    (g, g.metadata)
  }

  /**
   * The `namespace` getter: when the cache is empty and a body exists, the
   * metadata's namespace if it is truthy, else `"default"`; reading it calls
   * `.get` on the metadata, which raises when the metadata is not a dict.
   */
  function ReadNamespace(f: Fields): (r: (Fields, Result<Value, Exc>))
    ensures r.0.body == f.body && r.0.name == f.name && r.0.spec == f.spec
    ensures r.1.Ok? ==> r.0.namespace == r.1.value
    ensures r.1.Err? ==> r.1.error.AttributeError? && r.0.namespace == Null
    ensures f.namespace == Null && f.body.Some? && r.1.Ok? ==> Truthy(r.1.value)
  {
    if f.namespace == Null && f.body.Some? then
      var (g, m) := ReadMetadata(f);
      match GetAttr(m, "namespace")
      case Err(e) => (g, Err(e))
      case Ok(ns) =>
        var v := if Truthy(ns) then ns else Str("default");
        (g.(namespace := v), Ok(v))
    else (f, Ok(f.namespace))
  }

  /** The `name` getter: when the cache is empty and a body exists, the metadata's name. */
  function ReadName(f: Fields): (r: (Fields, Result<Value, Exc>))
    ensures r.0.body == f.body && r.0.namespace == f.namespace && r.0.spec == f.spec
    ensures r.1.Ok? ==> r.0.name == r.1.value
    ensures r.1.Err? ==> r.1.error.AttributeError? && r.0.name == Null
  {
    if f.name == Null && f.body.Some? then
      var (g, m) := ReadMetadata(f);
      match GetAttr(m, "name")
      case Err(e) => (g, Err(e))
      case Ok(n) => (g.(name := n), Ok(n))
    else (f, Ok(f.name))
  }

  /** The `spec` getter: when the cache is empty and a body exists, `body["spec"]`. */
  function ReadSpec(f: Fields): (r: (Fields, Value))
    ensures r.0 == f.(spec := r.0.spec) && r.1 == r.0.spec
    ensures f.spec != Null || f.body.None? ==> r == (f, f.spec)
  {
    var g := if f.spec == Null && f.body.Some? then f.(spec := Get(f.body.value, "spec")) else f;
    (g, g.spec)
  }

  /** The `spec` setter: write through to the body and the cache, only when a body exists. */
  function WriteSpec(f: Fields, v: Value): (g: Fields)
    ensures g.metadata == f.metadata && g.namespace == f.namespace && g.name == f.name
    ensures g.body.Some? <==> f.body.Some?
  {
    if f.body.Some? then f.(body := Some(f.body.value["spec" := v]), spec := v) else f
  }

  // ---------------------------------------------------------------------------
  // What the getters promise.
  // ---------------------------------------------------------------------------

  /** A name or namespace given explicitly is returned unchanged, whatever the body holds. */
  lemma ExplicitValuesWin(f: Fields)
    ensures f.namespace != Null ==> ReadNamespace(f) == (f, Ok(f.namespace))
    ensures f.name != Null ==> ReadName(f) == (f, Ok(f.name))
  {
  }

  /**
   * With no explicit namespace and a body whose metadata is a dict, the namespace
   * is the metadata's namespace when truthy and `"default"` otherwise.
   */
  lemma NamespaceFromMetadata(f: Fields, m: map<string, Value>)
    requires f.namespace == Null && f.body.Some?
    requires ReadMetadata(f).1 == Dict(m)
    ensures ReadNamespace(f).1 == Ok(if Truthy(Get(m, "namespace")) then Get(m, "namespace") else Str("default"))
    ensures ReadNamespace(f).1.value != Null
  {
  }

  /** A body without `"metadata"` makes reading the namespace (or the name) raise. */
  lemma MissingMetadataRaises(f: Fields)
    requires f.body.Some? && "metadata" !in f.body.value && f.metadata == Null
    ensures f.namespace == Null ==> ReadNamespace(f).1.Err? && ReadNamespace(f).1.error.AttributeError?
    ensures f.name == Null ==> ReadName(f).1.Err? && ReadName(f).1.error.AttributeError?
  {
  }

  /** With no body and nothing explicit, every getter yields `None` and nothing changes. */
  lemma NoBodyYieldsNone(f: Fields)
    requires f == Fields(None, Null, Null, Null, Null)
    ensures ReadMetadata(f) == (f, Null) && ReadSpec(f) == (f, Null)
    ensures ReadNamespace(f) == (f, Ok(Null)) && ReadName(f) == (f, Ok(Null))
  {
  }

  /**
   * Once a read has filled a cache with a value other than `None`, later reads
   * return that value even if the body has changed meanwhile.
   */
  lemma CachedValuesIgnoreBody(f: Fields, later: map<string, Value>)
    ensures ReadMetadata(f).1 != Null ==>
      var g := ReadMetadata(f).0.(body := Some(later)); ReadMetadata(g) == (g, ReadMetadata(f).1)
    ensures ReadNamespace(f).1.Ok? && ReadNamespace(f).1.value != Null ==>
      var g := ReadNamespace(f).0.(body := Some(later)); ReadNamespace(g) == (g, ReadNamespace(f).1)
    ensures ReadName(f).1.Ok? && ReadName(f).1.value != Null ==>
      var g := ReadName(f).0.(body := Some(later)); ReadName(g) == (g, ReadName(f).1)
    ensures ReadSpec(f).1 != Null ==>
      var g := ReadSpec(f).0.(body := Some(later)); ReadSpec(g) == (g, ReadSpec(f).1)
  {
  }

  /**
   * A successful namespace read settles it: reading it again from any later state
   * with the same body and namespace cache gives the same answer and changes nothing.
   */
  lemma NamespaceSettled(f: Fields, g: Fields)
    requires ReadNamespace(f).1.Ok?
    requires g.body == f.body && g.namespace == ReadNamespace(f).0.namespace
    ensures ReadNamespace(g) == (g, ReadNamespace(f).1)
  {
  }

  /** A successful name read settles it in the same way. */
  lemma NameSettled(f: Fields, g: Fields)
    requires ReadName(f).1.Ok?
    requires g.body == f.body && g.name == ReadName(f).0.name && g.metadata == ReadName(f).0.metadata
    ensures ReadName(g) == (g, ReadName(f).1)
  {
  }

  /** The spec setter writes `body["spec"]` and the cache when a body exists, and is a no-op otherwise. */
  lemma SpecWriteThrough(f: Fields, v: Value)
    ensures f.body.Some? ==> WriteSpec(f, v).body.value["spec"] == v && ReadSpec(WriteSpec(f, v)).1 == v
    ensures f.body.Some? ==> forall k :: k in f.body.value && k != "spec" ==>
      k in WriteSpec(f, v).body.value && WriteSpec(f, v).body.value[k] == f.body.value[k]
    ensures f.body.None? ==> WriteSpec(f, v) == f
  {
  }

  // ---------------------------------------------------------------------------
  // The object.
  // ---------------------------------------------------------------------------

  /** A resource object: its kind (the subclass), the shared body dict, and the caches. */
  class KubeObject {
    const kind: ResourceKind
    var body: Dict?
    var cachedMetadata: Value
    var cachedNamespace: Value
    var cachedName: Value
    var cachedSpec: Value

    /** The snapshot the getter rules are stated on. */
    function State(): Fields
      reads this, body
    {
      Fields(if body == null then None else Some(body.entries),
             cachedMetadata, cachedNamespace, cachedName, cachedSpec)
    }

    /** `KubeObject.__init__(body, namespace, name)`: explicit values go straight into the caches. */
    constructor (kind: ResourceKind, body: Dict?, namespace: Value, name: Value)
      ensures this.kind == kind && this.body == body
      ensures State() == Fields(if body == null then None else Some(body.entries), Null, namespace, name, Null)
    {
      this.kind := kind;
      this.body := body;
      cachedNamespace := namespace;
      cachedName := name;
      cachedMetadata := Null;
      cachedSpec := Null;
    }

    method Metadata() returns (v: Value)
      modifies this`cachedMetadata
      ensures (State(), v) == ReadMetadata(old(State()))
    {
      if cachedMetadata == Null && body != null {
        cachedMetadata := Get(body.entries, "metadata");
      }
      v := cachedMetadata;
    }

    method Namespace() returns (r: Result<Value, Exc>)
      modifies this`cachedMetadata, this`cachedNamespace
      ensures (State(), r) == ReadNamespace(old(State()))
    {
      if cachedNamespace == Null && body != null {
        var m := Metadata();
        var ns := GetAttr(m, "namespace");
        if ns.Err? {
          return Err(ns.error);
        }
        if Truthy(ns.value) {
          var again := Metadata();
          cachedNamespace := Get(again.entries, "namespace");
        } else {
          cachedNamespace := Str("default");
        }
      }
      r := Ok(cachedNamespace);
    }

    method SetNamespace(v: Value)
      modifies this`cachedNamespace
      ensures State() == old(State()).(namespace := v)
    {
      cachedNamespace := v;
    }

    method Name() returns (r: Result<Value, Exc>)
      modifies this`cachedMetadata, this`cachedName
      ensures (State(), r) == ReadName(old(State()))
    {
      if cachedName == Null && body != null {
        var m := Metadata();
        var n := GetAttr(m, "name");
        if n.Err? {
          return Err(n.error);
        }
        cachedName := n.value;
      }
      r := Ok(cachedName);
    }

    method SetName(v: Value)
      modifies this`cachedName
      ensures State() == old(State()).(name := v)
    {
      cachedName := v;
    }

    method Spec() returns (v: Value)
      modifies this`cachedSpec
      ensures (State(), v) == ReadSpec(old(State()))
    {
      if cachedSpec == Null && body != null {
        cachedSpec := Get(body.entries, "spec");
      }
      v := cachedSpec;
    }

    /** The spec setter mutates the shared body dict in place. */
    method SetSpec(v: Value)
      modifies this`cachedSpec, body
      ensures body == old(body)
      ensures State() == WriteSpec(old(State()), v)
    {
      if body != null {
        body.entries := body.entries["spec" := v];
        cachedSpec := v;
      }
    }
  }
}
