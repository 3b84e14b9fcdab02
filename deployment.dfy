/// The Deployment resource: its constructor and the messages of its create and
/// delete failures. The constructor hands its `name` and `namespace` arguments to
/// the base class in swapped positions.
module Deployment {
  import opened Values
  import opened Exceptions
  import opened KubeClient
  import opened KubeObjects
  import opened Resources

  /**
   * `Deployment(body, namespace, name)` as written: the base class receives
   * `(body, name, namespace)`, so the namespace cache holds the name and the name
   * cache holds the namespace.
   */
  method New(body: Dict?, namespace: Value, name: Value) returns (d: KubeObject)
    ensures fresh(d) && d.kind == DeploymentKind && d.body == body
    ensures d.State() == Fields(if body == null then None else Some(body.entries), Null, name, namespace, Null)
  {
    d := new KubeObject(DeploymentKind, body, name, namespace);
  }

  /** The constructor as evidently intended: each argument in its own place. */
  method NewIntended(body: Dict?, namespace: Value, name: Value) returns (d: KubeObject)
    ensures fresh(d) && d.kind == DeploymentKind && d.body == body
    ensures d.State() == Fields(if body == null then None else Some(body.entries), Null, namespace, name, Null)
  {
    d := new KubeObject(DeploymentKind, body, namespace, name);
  }

  /** The state `New` builds, as a function of its arguments. */
  function Built(body: Option<map<string, Value>>, namespace: Value, name: Value): Fields
  {
    Fields(body, Null, name, namespace, Null)
  }

  /** The state `NewIntended` builds. */
  function BuiltIntended(body: Option<map<string, Value>>, namespace: Value, name: Value): Fields
  {
    Fields(body, Null, namespace, name, Null)
  }

  /**
   * With explicit values, the namespace getter of a deployment built as written
   * reports the name: `Deployment(namespace = "prod", name = "web").namespace` is "web".
   */
  lemma SwappedNamespace()
    ensures ReadNamespace(Built(None, Str("prod"), Str("web"))).1 == Ok(Str("web"))
    ensures ReadName(Built(None, Str("prod"), Str("web"))).1 == Ok(Str("prod"))
    ensures ReadNamespace(BuiltIntended(None, Str("prod"), Str("web"))).1 == Ok(Str("prod"))
  {
  }

  /**
   * The intended constructor returns exactly the explicit values from the getters,
   * and agrees with the constructor as written when neither value is given (the
   * only way the definition-file loader builds a deployment).
   */
  lemma IntendedKeepsExplicitValues(body: Option<map<string, Value>>, namespace: Value, name: Value)
    ensures namespace != Null ==> ReadNamespace(BuiltIntended(body, namespace, name)).1 == Ok(namespace)
    ensures name != Null ==> ReadName(BuiltIntended(body, namespace, name)).1 == Ok(name)
    ensures Built(body, namespace, name) == BuiltIntended(body, namespace, name) <==> namespace == name
  {
  }

  /** `create()`: 409 means the deployment already exists, 422 that its definition is wrong. */
  lemma CreateMessages(name: Value, namespace: Value, status: int, reason: string)
    ensures var e := CreateFailure(WordingOf(DeploymentKind), name, namespace, status, reason);
      && (status == 409 ==> e == Custom(ResourceAlreadyExist,
            Str("The deployment " + Render(name) + " already exist in " + Render(namespace) + "."), Str(reason)))
      && (status == 422 ==> e == Custom(InvalidDefinitionFile,
            Str("The " + Render(name) + " deployment definition yaml file is wrong."), Str(reason)))
      && (status != 409 && status != 422 ==> e == ApiException(status, reason))
  {
  }

  /** `delete()`: 404 means the deployment was not found; anything else is re-raised. */
  lemma DeleteMessages(name: Value, namespace: Value, status: int, reason: string)
    ensures var e := DeleteFailure(WordingOf(DeploymentKind), name, namespace, status, reason);
      && (status == 404 ==> e == Custom(KubernetesResourceWasNotFound,
            Str("The deployment " + Render(name) + " was not found in " + Render(namespace) + " namespace."),
            Str(reason)))
      && (status != 404 ==> e == ApiException(status, reason))
  {
  }
}
