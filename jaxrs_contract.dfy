/**
 * `JAXRSContract`: the steps that read one interface method's JAX-RS
 * annotations and write them, in place, into the method's metadata. Each
 * step is proved to do what the matching function of `JaxRsRules` says.
 */
module JaxRsContract {
  import opened Wrappers
  import opened Annotations
  import opened Metadata
  import Multimap
  import Strings
  import JaxRsRules
  import JaxRsProperties

  /** A step's effect: the new contents on success; on failure the error, and the contents as they were. */
  ghost predicate Applied(r: Result<Meta, Error>, before: Meta, after: Meta, err: Option<Error>)
  {
    match r
    case Success(m) => err == None && after == m
    case Failure(e) => err == Some(e) && after == before
  }

  /** `processAnnotationOnInterface` */
  method ProcessAnnotationOnInterface(data: MethodMetadata, ifaceAnnotation: Annotation, ifaceName: string)
    returns (err: Option<Error>)
    requires data.Valid()
    modifies data, data.template
    ensures data.Valid()
    ensures Applied(JaxRsRules.OnInterface(old(data.Snapshot()), ifaceName, ifaceAnnotation),
                    old(data.Snapshot()), data.Snapshot(), err)
  {
    err := ProcessAnnotationOnInterfaceOrMethod(data, ifaceName, ifaceAnnotation);
  }

  /** `processAnnotationOnMethod` */
  method ProcessAnnotationOnMethod(data: MethodMetadata, methodAnnotation: Annotation, methodName: string)
    returns (err: Option<Error>)
    requires data.Valid()
    modifies data, data.template
    ensures data.Valid()
    ensures Applied(JaxRsRules.OnMethod(old(data.Snapshot()), methodName, methodAnnotation),
                    old(data.Snapshot()), data.Snapshot(), err)
  {
    match methodAnnotation {
      case Verb(verb) =>
        if data.template.httpMethod.Some? {
          return Some(MultipleHttpMethods(methodName, data.template.httpMethod.value, verb));
        }
        data.template.SetMethod(verb);
        err := None;
      case _ =>
        err := ProcessAnnotationOnInterfaceOrMethod(data, methodName, methodAnnotation);
    }
  }

  /** `processAnnotationOnInterfaceOrMethod`: Path, Produces and Consumes. */
  method ProcessAnnotationOnInterfaceOrMethod(data: MethodMetadata, annotatedName: string, annotation: Annotation)
    returns (err: Option<Error>)
    requires data.Valid()
    modifies data, data.template
    ensures data.Valid()
    ensures Applied(JaxRsRules.OnInterfaceOrMethod(old(data.Snapshot()), annotatedName, annotation),
                    old(data.Snapshot()), data.Snapshot(), err)
  {
    match annotation {
      case Path(value) =>
        if JaxRsRules.EmptyToNone(value).None? {
          return Some(EmptyPath(annotatedName));
        }
        var fragment := value;
        if !Strings.StartsWith(fragment, "/") && !Strings.EndsWith(data.template.url, "/") {
          fragment := "/" + fragment;
        }
        data.template.Append(fragment);
        err := None;
      case Produces(serverProduces) =>
        var clientAccepts := if |serverProduces| == 0 then None else JaxRsRules.EmptyToNone(serverProduces[0]);
        if clientAccepts.None? {
          return Some(EmptyProduces(annotatedName));
        }
        data.template.Header(JaxRsRules.ACCEPT, [clientAccepts.value]);
        err := None;
      case Consumes(serverConsumes) =>
        var clientProduces := if |serverConsumes| == 0 then None else JaxRsRules.EmptyToNone(serverConsumes[0]);
        if clientProduces.None? {
          return Some(EmptyConsumes(annotatedName));
        }
        data.template.Header(JaxRsRules.CONTENT_TYPE, [clientProduces.value]);
        err := None;
      case _ =>
        err := None;
    }
  }

  /** `nameParam`: appends `name` to the names recorded under the parameter index. */
  method NameParam(data: MethodMetadata, name: string, paramIndex: nat)
    requires data.Valid()
    modifies data
    ensures data.Valid()
    ensures data.indexToName == Multimap.Add(old(data.indexToName), paramIndex, name)
    ensures data.formParams == old(data.formParams)
  {
    data.indexToName := JaxRsRules.NameParam(data.indexToName, name, paramIndex);
  }

  /** The outcome of the remaining annotations, given whether a binding annotation was already seen. */
  ghost function SeenBefore(isHttpParam: bool, rest: JaxRsRules.Bound): JaxRsRules.Bound
  {
    JaxRsRules.Bound(rest.state, match rest.outcome
      case Success(seen) => Success(isHttpParam || seen)
      case Failure(e) => Failure(e))
  }

  /** The first annotation of those left either hands its state and its binding on, or ends the loop. */
  lemma SeenStep(seen: bool, m: Meta, anns: seq<Annotation>, index: nat)
    requires anns != []
    ensures JaxRsRules.OnParam(m, anns[0], index).Success? ==>
      SeenBefore(seen, JaxRsRules.OnParams(m, anns, index))
      == SeenBefore(seen || anns[0].IsHttpParam(), JaxRsRules.OnParams(JaxRsRules.OnParam(m, anns[0], index).value, anns[1..], index))
    ensures JaxRsRules.OnParam(m, anns[0], index).Failure? ==>
      SeenBefore(seen, JaxRsRules.OnParams(m, anns, index)) == JaxRsRules.Bound(m, Failure(JaxRsRules.OnParam(m, anns[0], index).error))
  {
  }

  /** The metadata a binding annotation with a non-empty name leaves, field by field. */
  lemma BindingResult(m: Meta, a: Annotation, index: nat)
    requires a.IsHttpParam() && a.name != ""
    ensures JaxRsRules.OnParam(m, a, index) == Success(m.(
      queries := if a.QueryParam?
                 then Multimap.Put(m.queries, a.name, JaxRsRules.AddTemplatedParam(Multimap.Get(m.queries, a.name), Some(JaxRsRules.Placeholder(a.name))))
                 else m.queries,
      headers := if a.HeaderParam?
                 then Multimap.Put(m.headers, a.name, JaxRsRules.AddTemplatedParam(Multimap.Get(m.headers, a.name), JaxRsRules.Placeholder(a.name)))
                 else m.headers,
      formParams := if a.FormParam? then m.formParams + [a.name] else m.formParams,
      indexToName := Multimap.Add(m.indexToName, index, a.name)))
  {
  }

  /** One annotation of the loop in `processAnnotationsOnParameter`: whether it binds, or why it fails. */
  method ProcessAnnotationOnParameter(data: MethodMetadata, annotation: Annotation, paramIndex: nat)
    returns (binds: Result<bool, Error>)
    requires data.Valid()
    modifies data, data.template
    ensures data.Valid()
    ensures match JaxRsRules.OnParam(old(data.Snapshot()), annotation, paramIndex)
            case Success(m) => binds == Success(annotation.IsHttpParam()) && data.Snapshot() == m
            case Failure(e) => binds == Failure(e) && data.Snapshot() == old(data.Snapshot())
  {
    ghost var before := data.Snapshot();
    match annotation {
      case PathParam(name) =>
        if JaxRsRules.EmptyToNone(name).None? {
          return Failure(EmptyPathParam(paramIndex));
        }
        NameParam(data, name, paramIndex);
        BindingResult(before, annotation, paramIndex);
      case QueryParam(name) =>
        if JaxRsRules.EmptyToNone(name).None? {
          return Failure(EmptyQueryParam(paramIndex));
        }
        var query := JaxRsRules.AddTemplatedParam(Multimap.Get(data.template.queries, name),
                                                  Some(JaxRsRules.Placeholder(name)));
        data.template.Query(name, query);
        NameParam(data, name, paramIndex);
        BindingResult(before, annotation, paramIndex);
      case HeaderParam(name) =>
        if JaxRsRules.EmptyToNone(name).None? {
          return Failure(EmptyHeaderParam(paramIndex));
        }
        var header := JaxRsRules.AddTemplatedParam(Multimap.Get(data.template.headers, name),
                                                   JaxRsRules.Placeholder(name));
        data.template.Header(name, header);
        NameParam(data, name, paramIndex);
        BindingResult(before, annotation, paramIndex);
      case FormParam(name) =>
        if JaxRsRules.EmptyToNone(name).None? {
          return Failure(EmptyFormParam(paramIndex));
        }
        data.formParams := data.formParams + [name];
        NameParam(data, name, paramIndex);
        BindingResult(before, annotation, paramIndex);
      case _ =>
    }
    binds := Success(annotation.IsHttpParam());
  }

  /** `processAnnotationsOnParameter`: returns whether any binding annotation is present. */
  method ProcessAnnotationsOnParameter(data: MethodMetadata, annotations: seq<Annotation>, paramIndex: nat)
    returns (outcome: Result<bool, Error>)
    requires data.Valid()
    modifies data, data.template
    ensures data.Valid()
    ensures JaxRsRules.OnParams(old(data.Snapshot()), annotations, paramIndex) == JaxRsRules.Bound(data.Snapshot(), outcome)
    ensures outcome.Success? ==> (outcome.value <==> exists j :: 0 <= j < |annotations| && annotations[j].IsHttpParam())
    ensures outcome.Failure? <==> exists j :: 0 <= j < |annotations| && annotations[j].IsHttpParam() && annotations[j].name == ""
  {
    ghost var start := data.Snapshot();
    ghost var expected := JaxRsRules.OnParams(start, annotations, paramIndex);
    var isHttpParam := false;
    var i := 0;
    assert annotations[i..] == annotations;
    while i < |annotations|
      invariant 0 <= i <= |annotations|
      invariant data.Valid()
      invariant expected == SeenBefore(isHttpParam, JaxRsRules.OnParams(data.Snapshot(), annotations[i..], paramIndex))
    {
      SeenStep(isHttpParam, data.Snapshot(), annotations[i..], paramIndex);
      assert annotations[i..][1..] == annotations[i + 1..];
      var binds := ProcessAnnotationOnParameter(data, annotations[i], paramIndex);
      if binds.Failure? {
        JaxRsProperties.OnParamsFails(start, annotations, paramIndex);
        return Failure(binds.error);
      }
      isHttpParam := isHttpParam || binds.value;
      i := i + 1;
    }
    JaxRsProperties.OnParamsFails(start, annotations, paramIndex);
    JaxRsProperties.OnParamsBinds(start, annotations, paramIndex);
    outcome := Success(isHttpParam);
  }

  /**
   * The metadata of one method: fresh metadata with the interface's, the
   * method's and then each parameter's annotations applied, stopping at the
   * first failure, and failing when the method's annotations set no verb
   * (the assumed orchestration of `JaxRsRules.ParseMethod`).
   */
  method ParseAndValidateMetadata(ifaceName: string, ifaceAnns: seq<Annotation>, methodName: string,
                                  methodAnns: seq<Annotation>, params: seq<seq<Annotation>>)
    returns (data: MethodMetadata, err: Option<Error>)
    ensures fresh(data) && data.Valid()
    ensures match JaxRsRules.ParseMethod(ifaceName, ifaceAnns, methodName, methodAnns, params)
            case Success(m) => err == None && data.Snapshot() == m
            case Failure(e) => err == Some(e)
  {
    data := new MethodMetadata();
    err := None;
    var i := 0;
    while i < |ifaceAnns|
      invariant 0 <= i <= |ifaceAnns|
      invariant fresh(data) && fresh(data.template) && data.Valid() && err == None
      invariant JaxRsRules.OnInterfaceAll(Empty, ifaceName, ifaceAnns)
             == JaxRsRules.OnInterfaceAll(data.Snapshot(), ifaceName, ifaceAnns[i..])
    {
      assert ifaceAnns[i..][1..] == ifaceAnns[i + 1..];
      err := ProcessAnnotationOnInterface(data, ifaceAnns[i], ifaceName);
      if err.Some? {
        return;
      }
      i := i + 1;
    }
    ghost var afterIface := data.Snapshot();
    i := 0;
    while i < |methodAnns|
      invariant 0 <= i <= |methodAnns|
      invariant fresh(data) && fresh(data.template) && data.Valid() && err == None
      invariant JaxRsRules.OnMethodAll(afterIface, methodName, methodAnns)
             == JaxRsRules.OnMethodAll(data.Snapshot(), methodName, methodAnns[i..])
    {
      assert methodAnns[i..][1..] == methodAnns[i + 1..];
      err := ProcessAnnotationOnMethod(data, methodAnns[i], methodName);
      if err.Some? {
        return;
      }
      i := i + 1;
    }
    if data.template.httpMethod.None? {
      err := Some(MissingHttpMethod(methodName));
      return;
    }
    ghost var afterMethod := data.Snapshot();
    i := 0;
    while i < |params|
      invariant 0 <= i <= |params|
      invariant fresh(data) && fresh(data.template) && data.Valid() && err == None
      invariant JaxRsRules.OnEachParam(afterMethod, params, 0)
             == JaxRsRules.OnEachParam(data.Snapshot(), params[i..], i)
    {
      assert params[i..][1..] == params[i + 1..];
      var outcome := ProcessAnnotationsOnParameter(data, params[i], i);
      if outcome.Failure? {
        err := Some(outcome.error);
        return;
      }
      i := i + 1;
    }
  }
}
