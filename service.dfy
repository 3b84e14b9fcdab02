/// The Service resource: its constructor and the messages of its create and
/// delete failures (a rejected definition is called "invalid" here).
module Service {
  import opened Values
  import opened Exceptions
  import opened KubeClient
  import opened KubeObjects
  import opened Resources

  /** `Service(body, namespace, name)`: the arguments reach the base class in the same order. */
  method New(body: Dict?, namespace: Value, name: Value) returns (s: KubeObject)
    ensures fresh(s) && s.kind == ServiceKind && s.body == body
    ensures s.State() == Fields(if body == null then None else Some(body.entries), Null, namespace, name, Null)
  {
    s := new KubeObject(ServiceKind, body, namespace, name);
  }

  /** `create()`: 409 means the service already exists, 422 that its definition is invalid. */
  lemma CreateMessages(name: Value, namespace: Value, status: int, reason: string)
    ensures var e := CreateFailure(WordingOf(ServiceKind), name, namespace, status, reason);
      && (status == 409 ==> e == Custom(ResourceAlreadyExist,
            Str("The service " + Render(name) + " already exist in " + Render(namespace) + "."), Str(reason)))
      && (status == 422 ==> e == Custom(InvalidDefinitionFile,
            Str("The " + Render(name) + " service definition yaml file is invalid."), Str(reason)))
      && (status != 409 && status != 422 ==> e == ApiException(status, reason))
  {
  }

  /** `delete()`: 404 means the service was not found; anything else is re-raised. */
  lemma DeleteMessages(name: Value, namespace: Value, status: int, reason: string)
    ensures var e := DeleteFailure(WordingOf(ServiceKind), name, namespace, status, reason);
      && (status == 404 ==> e == Custom(KubernetesResourceWasNotFound,
            Str("The service " + Render(name) + " was not found in " + Render(namespace) + " namespace."),
            Str(reason)))
      && (status != 404 ==> e == ApiException(status, reason))
  {
  }
}
