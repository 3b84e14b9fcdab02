/// Reading definition files and turning their documents into resource objects,
/// and creating a local directory.
///
/// The kind lookup is modelled as written: the `filter` object it tests is always
/// truthy, so an unknown kind never reaches `KubernetesObjectIsNotSupportedYet`;
/// asking the empty filter for its first element raises `StopIteration`, which
/// leaves the document generator as `RuntimeError`. `KindOfIntended` is the
/// lookup as its documentation describes it.
module Helpers {
  import opened Values
  import opened Exceptions
  import opened KubeClient
  import opened KubeObjects
  import opened PosixPath
  import Pod
  import Service
  import Deployment

  // ---------------------------------------------------------------------------
  // Loading a definition file.
  // ---------------------------------------------------------------------------

  /** `s.endswith(suffix)`. */
  predicate EndsWith(s: string, suffix: string)
  {
    |suffix| <= |s| && s[|s| - |suffix|..] == suffix
  }

  /** The extension check of `load_yaml`: `.yaml` or `.yml`, case-sensitive. */
  predicate HasYamlExtension(path: string)
    ensures HasYamlExtension(path) ==>
      && 4 <= |path| && path[|path| - 1] == 'l'
      && (path[|path| - 4] == '.' || (5 <= |path| && path[|path| - 5] == '.'))
  {
    EndsWith(path, ".yaml") || EndsWith(path, ".yml")
  }

  /** The check accepts the two extensions exactly as spelled, and nothing shorter. */
  lemma YamlExtensionExamples()
    ensures HasYamlExtension("deploy.yaml") && HasYamlExtension("deploy.yml") && HasYamlExtension(".yml")
    ensures !HasYamlExtension("deploy.YAML") && !HasYamlExtension("deploy.json") && !HasYamlExtension("yml")
    ensures forall path :: |path| < 4 ==> !HasYamlExtension(path)
  {
    assert "deploy.yaml"[6..] == ".yaml";
    assert "deploy.yml"[6..] == ".yml";
    assert "deploy.YAML"[6..][1] != ".yaml"[1] && "deploy.YAML"[7..][1] != ".yml"[1];
  }

  /**
   * The local files a definition path can name: whether it exists, and the
   * documents (or the parse error) that reading it gives.
   */
  datatype DefinitionFiles = DefinitionFiles(present: string -> bool, parse: string -> Result<seq<Value>, Exc>)

  /**
   * `load_yaml(path)`: the extension is checked first, then existence; a parse
   * error becomes `FailedToLoadYamlFile`; otherwise the documents, in file order.
   */
  function LoadYaml(path: string, files: DefinitionFiles): (r: Result<seq<Value>, Exc>)
    ensures r.Ok? <==> HasYamlExtension(path) && files.present(path) && files.parse(path).Ok?
    ensures r.Ok? ==> r.value == files.parse(path).value
    ensures !HasYamlExtension(path) ==> r.Err? && r.error == Custom(InvalidFileExtension,
              Str("The correct file extension is .yaml or .yml"), Str(path))
    ensures HasYamlExtension(path) && !files.present(path) ==>
              r.Err? && r.error.FileNotFoundError? && r.error.path == path
    ensures HasYamlExtension(path) && files.present(path) && files.parse(path).Err? ==>
              r.Err? && r.error.Custom? && r.error.kind == FailedToLoadYamlFile
  {
    if !HasYamlExtension(path) then
      Err(Raise(InvalidFileExtension, [Str("The correct file extension is .yaml or .yml"), Str(path)]))
    else if !files.present(path) then
      Err(FileNotFoundError("The file " + Basename(path) + " does not found.", path))
    else match files.parse(path)
      case Err(e) => Err(Raise(FailedToLoadYamlFile, [Str("Failed to load " + path + " file."), Handle("exception")]))
      case Ok(docs) => Ok(docs)
  }

  // ---------------------------------------------------------------------------
  // Kind dispatch.
  // ---------------------------------------------------------------------------

  /** The class a `kind` names among the supported ones, tried in the order Pod, Service, Deployment. */
  function SupportedKind(kind: Value): Option<ResourceKind>
  {
    if kind == Str("Pod") then Some(PodKind)
    else if kind == Str("Service") then Some(ServiceKind)
    else if kind == Str("Deployment") then Some(DeploymentKind)
    else None
  }

  /** The three supported kinds are named by exactly their class names. */
  lemma SupportedKindsAreExactlyThree(kind: Value)
    ensures SupportedKind(kind).Some? <==> kind in {Str("Pod"), Str("Service"), Str("Deployment")}
    ensures SupportedKind(Str("Pod")) == Some(PodKind)
    ensures SupportedKind(Str("Service")) == Some(ServiceKind)
    ensures SupportedKind(Str("Deployment")) == Some(DeploymentKind)
  {
  }

  /**
   * The class `convert_dict_to_kube_object` picks, as written. The filter's test
   * calls `.get` on the document, so a document that is not a dict raises
   * `AttributeError`; an unknown or missing kind leaves the filter empty, and
   * taking its first element raises `StopIteration`.
   */
  function KindOf(doc: Value): (r: Result<ResourceKind, Exc>)
    ensures r.Ok? <==> doc.Dict? && SupportedKind(Get(doc.entries, "kind")).Some?
    ensures r.Ok? ==> r.value == SupportedKind(Get(doc.entries, "kind")).value
  {
    match GetAttr(doc, "kind")
    case Err(e) => Err(e)
    case Ok(kind) =>
      match SupportedKind(kind)
      case Some(k) => Ok(k)
      case None => Err(StopIteration)
  }

  /** The message the unreachable branch of `convert_dict_to_kube_object` would carry. */
  function NotSupportedMessage(kind: Value): string
  {
    "The kubernetes object " + Render(kind) + " does not supported yet. Please contact DevOps team if support is needed."
  }

  /** The lookup as documented: an unknown or missing kind raises `KubernetesObjectIsNotSupportedYet`. */
  function KindOfIntended(doc: Value): (r: Result<ResourceKind, Exc>)
    ensures r.Ok? <==> doc.Dict? && SupportedKind(Get(doc.entries, "kind")).Some?
    ensures doc.Dict? && r.Err? ==> r.error == Custom(KubernetesObjectIsNotSupportedYet,
              Str(NotSupportedMessage(Get(doc.entries, "kind"))), Get(doc.entries, "kind"))
  {
    match GetAttr(doc, "kind")
    case Err(e) => Err(e)
    case Ok(kind) =>
      match SupportedKind(kind)
      case Some(k) => Ok(k)
      case None => Err(Raise(KubernetesObjectIsNotSupportedYet, [Str(NotSupportedMessage(kind)), kind]))
  }

  /**
   * As written, no document ever yields `KubernetesObjectIsNotSupportedYet`: a
   * dict whose kind is unknown gives `StopIteration`. The lookup as written and
   * the documented one agree on every other document.
   */
  lemma UnsupportedBranchUnreachable(doc: Value)
    ensures KindOf(doc).Err? ==> !KindOf(doc).error.Custom?
    ensures doc.Dict? && KindOf(doc).Err? ==> KindOf(doc).error == StopIteration
    ensures KindOf(doc).Ok? || !doc.Dict? ==> KindOf(doc) == KindOfIntended(doc)
  {
  }

  /** A dict of kind "ConfigMap" gives `StopIteration` as written and the custom exception as documented. */
  lemma ConfigMapIsNotReported()
    ensures KindOf(Dict(map["kind" := Str("ConfigMap")])) == Err(StopIteration)
    ensures KindOfIntended(Dict(map["kind" := Str("ConfigMap")])).error.kind == KubernetesObjectIsNotSupportedYet
  {
  }

  /**
   * An exception raised inside the body of a generator, as its consumer sees it:
   * `StopIteration` is turned into `RuntimeError`; every other exception passes.
   */
  function Escape(e: Exc): (r: Exc)
    ensures r.RuntimeError? <==> e.StopIteration? || e.RuntimeError?
    ensures !e.StopIteration? ==> r == e
  {
    if e.StopIteration? then RuntimeError("generator raised StopIteration") else e
  }

  /** The fields of an object built from a document alone: the document is the body, nothing is explicit. */
  function FromDocument(entries: map<string, Value>): (f: Fields)
    ensures f.body == Some(entries)
    ensures ReadMetadata(f).1 == Get(entries, "metadata") && ReadSpec(f).1 == Get(entries, "spec")
  {
    Fields(Some(entries), Null, Null, Null, Null)
  }

  /**
   * `convert_dict_to_kube_object(doc)`: an instance of the class the document's
   * kind names, whose body is the document itself.
   */
  method ConvertDictToKubeObject(doc: Value) returns (r: Result<KubeObject, Exc>)
    ensures r.Ok? <==> KindOf(doc).Ok?
    ensures r.Err? ==> r.error == KindOf(doc).error
    ensures r.Ok? ==> && fresh(r.value) && fresh(r.value.body)
                      && r.value.kind == KindOf(doc).value && r.value.State() == FromDocument(doc.entries)
  {
    var kind := KindOf(doc);
    if kind.Err? {
      return Err(kind.error);
    }
    var body := new Dict(doc.entries);
    var obj: KubeObject;
    match kind.value {
      case PodKind => obj := Pod.New(body, Null, Null);
      case ServiceKind => obj := Service.New(body, Null, Null);
      case DeploymentKind => obj := Deployment.New(body, Null, Null);
    }
    r := Ok(obj);
  }

  // ---------------------------------------------------------------------------
  // The local file system.
  // ---------------------------------------------------------------------------

  /**
   * The local directories: those that exist, and the paths at which creating a
   * directory fails with `OSError` (no permission, a file in the way).
   */
  class LocalFs {
    var dirs: set<string>
    const failing: set<string>

    constructor (dirs: set<string>, failing: set<string>)
      ensures this.dirs == dirs && this.failing == failing
    {
      this.dirs := dirs;
      this.failing := failing;
    }
  }

  /**
   * `os.makedirs(path, exist_ok=True)` on a set of directories: an existing
   * directory is fine, a failing path raises, anything else is created.
   */
  function MakeDirs(dirs: set<string>, failing: set<string>, path: string): (r: (set<string>, bool))
    ensures r.1 <==> path in r.0
    ensures dirs <= r.0 && r.0 - dirs <= {path}
    ensures !r.1 ==> r.0 == dirs && path in failing
  {
    if path in dirs then (dirs, true)
    else if path in failing then (dirs, false)
    else (dirs + {path}, true)
  }

  /** Creating a directory twice is the same as creating it once, and the second time always succeeds. */
  lemma MakeDirsIdempotent(dirs: set<string>, failing: set<string>, path: string)
    ensures var (after, ok) := MakeDirs(dirs, failing, path);
      ok ==> MakeDirs(after, failing, path) == (after, true)
  {
  }

  /** The error `create_directory` raises when `os.makedirs` fails: the path is its value. */
  function CreateDirectoryFailure(path: string): (e: Exc)
    ensures e == Custom(FailedToCreateLocalDir, Str("Failed to create " + path + " directory."), Str(path))
  {
    Raise(FailedToCreateLocalDir, [Str("Failed to create " + path + " directory."), Str(path)])
  }

  /** `Helpers.create_directory(path)`. */
  method CreateDirectory(fs: LocalFs, path: string) returns (r: Outcome)
    modifies fs`dirs
    ensures var (after, ok) := MakeDirs(old(fs.dirs), fs.failing, path);
      fs.dirs == after && r == (if ok then Done else Raised(CreateDirectoryFailure(path)))
    ensures r.Done? <==> path in fs.dirs
  {
    if path in fs.dirs {
      r := Done;
    } else if path in fs.failing {
      r := Raised(CreateDirectoryFailure(path));
    } else {
      fs.dirs := fs.dirs + {path};
      r := Done;
    }
  }
}
