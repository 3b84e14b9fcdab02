/// Creating and deleting a Pod, Service or Deployment through the cluster API,
/// and how an API error is classified: on create, 409 means the resource already
/// exists and 422 that its definition is invalid; on delete, 404 means it was not
/// found; every other error is re-raised unchanged.
///
/// `CreateStep` and `DeleteStep` state each call as a function of the object's
/// fields and the cluster's answer, including the getter reads that the messages
/// trigger; `Create` and `Delete` are proved to follow them.
module Resources {
  import opened Values
  import opened Exceptions
  import opened KubeClient
  import opened KubeObjects

  /**
   * The fixed parts of a kind's messages: the opening naming the kind, and the
   * end of the message for a rejected definition.
   */
  datatype Wording = Wording(subject: string, invalidTail: string)

  /** Pod and Deployment call a rejected definition "wrong", Service calls it "invalid". */
  function WordingOf(kind: ResourceKind): Wording
  {
    match kind
    case PodKind => Wording("The pod ", " pod definition yaml file is wrong.")
    case DeploymentKind => Wording("The deployment ", " deployment definition yaml file is wrong.")
    case ServiceKind => Wording("The service ", " service definition yaml file is invalid.")
  }

  /** The exception a create ends with when the API raises `ApiException(status, reason)`. */
  function CreateFailure(w: Wording, name: Value, namespace: Value, status: int, reason: string): (e: Exc)
    ensures status == 409 <==> e.Custom? && e.kind == ResourceAlreadyExist
    ensures status == 422 <==> e.Custom? && e.kind == InvalidDefinitionFile
    ensures status != 409 && status != 422 <==> e == ApiException(status, reason)
    ensures e.Custom? ==> e.value == Str(reason)
  {
    if status == 409 then
      Raise(ResourceAlreadyExist,
            [Str(w.subject + Render(name) + " already exist in " + Render(namespace) + "."), Str(reason)])
    else if status == 422 then
      Raise(InvalidDefinitionFile,
            [Str("The " + Render(name) + w.invalidTail), Str(reason)])
    else ApiException(status, reason)
  }

  /** The exception a delete ends with when the API raises `ApiException(status, reason)`. */
  function DeleteFailure(w: Wording, name: Value, namespace: Value, status: int, reason: string): (e: Exc)
    ensures status == 404 <==> e.Custom?
    ensures e.Custom? ==> e.kind == KubernetesResourceWasNotFound && e.value == Str(reason)
    ensures status != 404 <==> e == ApiException(status, reason)
  {
    if status == 404 then
      Raise(KubernetesResourceWasNotFound,
            [Str(w.subject + Render(name) + " was not found in " + Render(namespace) + " namespace."),
             Str(reason)])
    else ApiException(status, reason)
  }

  /** The body handed to the API: the dict, or `None`. */
  function BodyValue(f: Fields): Value
  {
    if f.body.Some? then Dict(f.body.value) else Null
  }

  /** The status codes for which a create builds a message, and so reads the name. */
  predicate CreateTranslates(e: Exc)
  {
    e.ApiException? && (e.status == 409 || e.status == 422)
  }

  /**
   * One create call from fields `f`, sent as request number `at`: the fields
   * afterwards, the requests sent, and how the call ends. The namespace is read
   * before the call (a failure there sends nothing); the name is read for the
   * success message and for the two translated errors.
   */
  function CreateStep(kind: ResourceKind, f: Fields, answer: (nat, Request) -> Reply, at: nat)
    : (r: (Fields, seq<Request>, Outcome))
    ensures r.0.body == f.body && r.0.spec == f.spec
    ensures r.1 == [] <==> ReadNamespace(f).1.Err?
    ensures r.1 != [] ==> r.1 == [CreateNamespaced(kind, ReadNamespace(f).1.value, BodyValue(f))]
    ensures r.2.Done? ==> r.1 != [] && answer(at, r.1[0]).Accepted?
    ensures r.1 != [] && answer(at, r.1[0]).Rejected? ==> r.2.Raised?
  {
    var (f1, ns) := ReadNamespace(f);
    if ns.Err? then (f1, [], Raised(ns.error))
    else
      var req := CreateNamespaced(kind, ns.value, BodyValue(f1));
      var reply := answer(at, req);
      if reply.Rejected? && !CreateTranslates(reply.fault) then (f1, [req], Raised(reply.fault))
      else
        var (f2, nm) := ReadName(f1);
        if nm.Err? then (f2, [req], Raised(nm.error))
        else if reply.Accepted? then (f2, [req], Done)
        else (f2, [req], Raised(CreateFailure(WordingOf(kind), nm.value, ns.value,
                                              reply.fault.status, reply.fault.reason)))
  }

  /**
   * One delete call from fields `f`, sent as request number `at`: the name and
   * then the namespace are read for the call; a failure there sends nothing.
   */
  function DeleteStep(kind: ResourceKind, f: Fields, answer: (nat, Request) -> Reply, at: nat)
    : (r: (Fields, seq<Request>, Outcome))
    ensures r.0.body == f.body && r.0.spec == f.spec
    ensures r.1 == [] <==> ReadName(f).1.Err? || ReadNamespace(ReadName(f).0).1.Err?
    ensures r.1 != [] ==> r.1 == [DeleteNamespaced(kind, ReadName(f).1.value, ReadNamespace(ReadName(f).0).1.value)]
    ensures r.2.Done? <==> r.1 != [] && answer(at, r.1[0]).Accepted?
  {
    var (f1, nm) := ReadName(f);
    if nm.Err? then (f1, [], Raised(nm.error))
    else
      var (f2, ns) := ReadNamespace(f1);
      if ns.Err? then (f2, [], Raised(ns.error))
      else
        var req := DeleteNamespaced(kind, nm.value, ns.value);
        match answer(at, req)
        case Accepted(_, _) => (f2, [req], Done)
        case Rejected(e) =>
          if e.ApiException? then (f2, [req], Raised(DeleteFailure(WordingOf(kind), nm.value, ns.value, e.status, e.reason)))
          else (f2, [req], Raised(e))
  }

  /**
   * On create, an API error other than 409 and 422 (404 included) reaches the
   * caller unchanged, without reading the name.
   */
  lemma CreateStepPassesOtherErrors(kind: ResourceKind, f: Fields, answer: (nat, Request) -> Reply, at: nat)
    ensures var (g, reqs, r) := CreateStep(kind, f, answer, at);
      forall status, reason ::
        reqs != [] && answer(at, reqs[0]) == Rejected(ApiException(status, reason)) && status != 409 && status != 422
        ==> r == Raised(ApiException(status, reason)) && g == ReadNamespace(f).0
  {
  }

  /**
   * On delete, an API error other than 404 (409 included) reaches the caller
   * unchanged.
   */
  lemma DeleteStepPassesOtherErrors(kind: ResourceKind, f: Fields, answer: (nat, Request) -> Reply, at: nat)
    ensures var (g, reqs, r) := DeleteStep(kind, f, answer, at);
      forall status, reason ::
        reqs != [] && answer(at, reqs[0]) == Rejected(ApiException(status, reason)) && status != 404
        ==> r == Raised(ApiException(status, reason))
  {
  }

  /** `create()` of a Pod, Service or Deployment. */
  method Create(obj: KubeObject, cluster: Cluster) returns (r: Outcome)
    modifies obj`cachedMetadata, obj`cachedNamespace, obj`cachedName, cluster`log
    ensures obj.State().body == old(obj.State()).body
    ensures var (g, reqs, out) := CreateStep(obj.kind, old(obj.State()), cluster.answer, |old(cluster.log)|);
      obj.State() == g && cluster.log == old(cluster.log) + reqs && r == out
  {
    ghost var s0 := obj.State();
    var ns := obj.Namespace();
    if ns.Err? {
      return Raised(ns.error);
    }
    var body := if obj.body == null then Null else Dict(obj.body.entries);
    var req := CreateNamespaced(obj.kind, ns.value, body);
    ghost var reply := cluster.NextReply(req);
    r := cluster.Call(req);
    if r.Raised? && !CreateTranslates(r.exc) {
      return;
    }
    ghost var s1 := obj.State();
    var nm := obj.Name();
    if nm.Err? {
      return Raised(nm.error);
    }
    NamespaceSettled(s0, obj.State());
    if r.Done? || r.exc.status == 409 {
      var ns2 := obj.Namespace();   // these messages format the namespace after the name
    }
    if r.Raised? {
      r := Raised(CreateFailure(WordingOf(obj.kind), nm.value, ns.value, r.exc.status, r.exc.reason));
    }
  }

  /** `delete()` of a Pod, Service or Deployment. */
  method Delete(obj: KubeObject, cluster: Cluster) returns (r: Outcome)
    modifies obj`cachedMetadata, obj`cachedNamespace, obj`cachedName, cluster`log
    ensures obj.State().body == old(obj.State()).body
    ensures var (g, reqs, out) := DeleteStep(obj.kind, old(obj.State()), cluster.answer, |old(cluster.log)|);
      obj.State() == g && cluster.log == old(cluster.log) + reqs && r == out
  {
    var nm := obj.Name();
    if nm.Err? {
      return Raised(nm.error);
    }
    var ns := obj.Namespace();
    if ns.Err? {
      return Raised(ns.error);
    }
    var req := DeleteNamespaced(obj.kind, nm.value, ns.value);
    r := cluster.Call(req);
    if r.Raised? && r.exc.ApiException? {
      r := Raised(DeleteFailure(WordingOf(obj.kind), nm.value, ns.value, r.exc.status, r.exc.reason));
    }
  }
}
