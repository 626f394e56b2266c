/**
 * What each step of the JAX-RS contract does to a method's metadata, stated on
 * values: one function per kind of annotation, each either the new metadata or
 * the failure `checkState` raises.
 */
module JaxRsRules {
  import opened Wrappers
  import opened Annotations
  import opened Metadata
  import Multimap
  import Strings
  import opened QueryLine
  import opened RequestTemplates

  const ACCEPT: string := "Accept"
  const CONTENT_TYPE: string := "Content-Type"

  /** `emptyToNull` on an annotation value, which is never null itself: no trimming. */
  function EmptyToNone(s: string): (r: Option<string>)
    ensures r.None? <==> s == ""
    ensures r.Some? ==> r.value == s
  {
    if s == "" then None else Some(s)
  }

  /** Neither the url ends with `/` nor the value starts with one. */
  predicate NeedsSlash(url: string, value: string)
  {
    !Strings.StartsWith(value, "/") && !Strings.EndsWith(url, "/")
  }

  /** The fragment handed to `append` for a Path value. */
  function SlashedFragment(url: string, value: string): string
  {
    if NeedsSlash(url, value) then "/" + value else value
  }

  /**
   * The url a Path value joins onto `url`: the url is kept, the value follows
   * unchanged, and one `/` comes between them exactly when neither side has one.
   */
  function JoinPath(url: string, value: string): (r: string)
    ensures |url| <= |r| && r[..|url|] == url
    ensures |value| <= |r| && r[|r| - |value|..] == value
    ensures |r| == |url| + |value| + (if NeedsSlash(url, value) then 1 else 0)
    ensures NeedsSlash(url, value) ==> r[|url|] == '/'
    ensures value != "" ==> Strings.EndsWith(url, "/") || r[|url|] == '/'
  {
    assert value != "" && !NeedsSlash(url, value) && !Strings.EndsWith(url, "/") ==> value[0] == '/';
    url + SlashedFragment(url, value)
  }

  /** A `@Path` on the type or method named `annotatedName`. */
  function PathStep(m: Meta, annotatedName: string, value: string): (r: Result<Meta, Error>)
    ensures r.Failure? <==> value == ""
    ensures r.Failure? ==> r.error == EmptyPath(annotatedName)
    ensures r.Success? ==> r.value == m.(url := r.value.url, queries := r.value.queries)
    ensures r.Success? ==> (r.value.url, r.value.queries) == AppendToUrl(m.url, m.queries, SlashedFragment(m.url, value))
    ensures r.Success? && '?' !in m.url && '?' !in value ==> r.value == m.(url := JoinPath(m.url, value))
    ensures r.Success? && WellFormed(m) ==> WellFormed(r.value)
  {
    if EmptyToNone(value).None? then Failure(EmptyPath(annotatedName))
    else
      var fragment := SlashedFragment(m.url, value);
      assert '?' !in m.url && '?' !in value ==> '?' !in m.url + fragment;
      var appended := AppendToUrl(m.url, m.queries, fragment);
      Success(m.(url := appended.0, queries := appended.1))
  }

  /**
   * `@Produces`/`@Consumes`: the header takes the first declared value; no
   * value, or an empty first one, is the given failure.
   */
  function FirstValueToHeader(m: Meta, values: seq<string>, header: string, error: Error): (r: Result<Meta, Error>)
    ensures r.Failure? <==> |values| == 0 || values[0] == ""
    ensures r.Failure? ==> r.error == error
    ensures r.Success? ==> Multimap.Get(r.value.headers, header) == Some([values[0]])
    ensures r.Success? ==> forall k :: k != header ==> Multimap.Get(r.value.headers, k) == Multimap.Get(m.headers, k)
    ensures r.Success? ==> r.value == m.(headers := r.value.headers)
    ensures r.Success? && WellFormed(m) ==> WellFormed(r.value)
  {
    var first := if |values| == 0 then None else EmptyToNone(values[0]);
    match first
    case None => Failure(error)
    case Some(v) =>
      Multimap.PutDistinct(m.headers, header, [v]);
      Success(m.(headers := Multimap.Put(m.headers, header, [v])))
  }

  /** An annotation on the type or method named `annotatedName` other than a verb. */
  function OnInterfaceOrMethod(m: Meta, annotatedName: string, a: Annotation): (r: Result<Meta, Error>)
    ensures a.Path? ==> r == PathStep(m, annotatedName, a.value)
    ensures a.Produces? ==> r == FirstValueToHeader(m, a.values, ACCEPT, EmptyProduces(annotatedName))
    ensures a.Consumes? ==> r == FirstValueToHeader(m, a.values, CONTENT_TYPE, EmptyConsumes(annotatedName))
    ensures !(a.Path? || a.Produces? || a.Consumes?) ==> r == Success(m)
    ensures r.Success? ==> r.value.httpMethod == m.httpMethod
    ensures r.Success? ==> r.value.formParams == m.formParams && r.value.indexToName == m.indexToName
    ensures r.Success? && WellFormed(m) ==> WellFormed(r.value)
  {
    match a
    case Path(value) => PathStep(m, annotatedName, value)
    case Produces(values) => FirstValueToHeader(m, values, ACCEPT, EmptyProduces(annotatedName))
    case Consumes(values) => FirstValueToHeader(m, values, CONTENT_TYPE, EmptyConsumes(annotatedName))
    case _ => Success(m)
  }

  /** An annotation on the interface named `ifaceName`: verbs and parameter annotations are ignored there. */
  function OnInterface(m: Meta, ifaceName: string, a: Annotation): (r: Result<Meta, Error>)
    ensures r == OnInterfaceOrMethod(m, ifaceName, a)
    ensures a.Path? && a.value == "" ==> r == Failure(EmptyPath(ifaceName))
    ensures (a.Verb? || a.IsHttpParam() || a.Other?) ==> r == Success(m)
    ensures r.Success? ==> r.value.httpMethod == m.httpMethod
    ensures r.Success? && WellFormed(m) ==> WellFormed(r.value)
  {
    OnInterfaceOrMethod(m, ifaceName, a)
  }

  /** An annotation on the method named `methodName`: a verb sets the HTTP method, once. */
  function OnMethod(m: Meta, methodName: string, a: Annotation): (r: Result<Meta, Error>)
    ensures a.Verb? ==> (r.Success? <==> m.httpMethod.None?)
    ensures a.Verb? && r.Success? ==> r.value == m.(httpMethod := Some(a.httpMethod))
    ensures a.Verb? && r.Failure? ==> r.error == MultipleHttpMethods(methodName, m.httpMethod.value, a.httpMethod)
    ensures !a.Verb? ==> r == OnInterfaceOrMethod(m, methodName, a)
    ensures r.Success? && WellFormed(m) ==> WellFormed(r.value)
  {
    match a
    case Verb(verb) =>
      (match m.httpMethod
       case Some(found) => Failure(MultipleHttpMethods(methodName, found, verb))
       case None => Success(m.(httpMethod := Some(verb))))
    case _ => OnInterfaceOrMethod(m, methodName, a)
  }

  /** The `{name}` token a query or header parameter contributes. */
  function Placeholder(name: string): string
  {
    "{" + name + "}"
  }

  /** `addTemplatedParam`: the existing values, or none, followed by the placeholder. */
  function AddTemplatedParam<V>(possiblyNull: Option<seq<V>>, placeholder: V): (r: seq<V>)
    ensures |r| >= 1 && r[|r| - 1] == placeholder
    ensures r[..|r| - 1] == (if possiblyNull.Some? then possiblyNull.value else [])
  {
    match possiblyNull
    case None => [placeholder]
    case Some(vs) => vs + [placeholder]
  }

  /**
   * A query or header parameter's update, `put(name, addTemplatedParam(get(name), placeholder))`:
   * it is the accumulating add, so other names keep their values and their order.
   */
  function TemplatedParam<V>(values: Multimap.Multimap<string, V>, name: string, placeholder: V): (r: Multimap.Multimap<string, V>)
    ensures r == Multimap.Add(values, name, placeholder)
  {
    var vs := AddTemplatedParam(Multimap.Get(values, name), placeholder);
    assert vs == Multimap.ValuesOf(values, name) + [placeholder];
    Multimap.Put(values, name, AddTemplatedParam(Multimap.Get(values, name), placeholder))
  }

  /** `nameParam`: records `name` under the parameter index. */
  function NameParam(indexToName: Multimap.Multimap<nat, string>, name: string, index: nat): Multimap.Multimap<nat, string>
  {
    Multimap.Add(indexToName, index, name)
  }

  /** The failure an empty name on a binding annotation raises. */
  function EmptyName(a: Annotation, index: nat): Error
    requires a.IsHttpParam()
  {
    match a
    case PathParam(_) => EmptyPathParam(index)
    case QueryParam(_) => EmptyQueryParam(index)
    case HeaderParam(_) => EmptyHeaderParam(index)
    case FormParam(_) => EmptyFormParam(index)
  }

  /**
   * One annotation on the parameter at `index`. A binding annotation with an
   * empty name fails before anything changes; otherwise its name is recorded
   * under the index, and a query or header parameter adds its placeholder and a
   * form parameter its name. Any other annotation changes nothing.
   */
  function OnParam(m: Meta, a: Annotation, index: nat): (r: Result<Meta, Error>)
    ensures !a.IsHttpParam() ==> r == Success(m)
    ensures a.IsHttpParam() ==> (r.Failure? <==> a.name == "")
    ensures a.IsHttpParam() && r.Failure? ==> r.error == EmptyName(a, index)
    ensures r.Success? && a.IsHttpParam() ==> r.value.indexToName == Multimap.Add(m.indexToName, index, a.name)
    ensures r.Success? ==> r.value.httpMethod == m.httpMethod && r.value.url == m.url
    ensures r.Success? ==> r.value.formParams == m.formParams + (if a.FormParam? then [a.name] else [])
    ensures r.Success? ==>
      r.value.queries == (if a.QueryParam? then Multimap.Add(m.queries, a.name, Some(Placeholder(a.name))) else m.queries)
    ensures r.Success? ==>
      r.value.headers == (if a.HeaderParam? then Multimap.Add(m.headers, a.name, Placeholder(a.name)) else m.headers)
    ensures r.Success? && WellFormed(m) ==> WellFormed(r.value)
  {
    match a
    case PathParam(name) =>
      if EmptyToNone(name).None? then Failure(EmptyPathParam(index))
      else Success(m.(indexToName := NameParam(m.indexToName, name, index)))
    case QueryParam(name) =>
      if EmptyToNone(name).None? then Failure(EmptyQueryParam(index))
      else
        var query := TemplatedParam(m.queries, name, Some(Placeholder(name)));
        Success(m.(queries := query, indexToName := NameParam(m.indexToName, name, index)))
    case HeaderParam(name) =>
      if EmptyToNone(name).None? then Failure(EmptyHeaderParam(index))
      else
        var header := TemplatedParam(m.headers, name, Placeholder(name));
        Success(m.(headers := header, indexToName := NameParam(m.indexToName, name, index)))
    case FormParam(name) =>
      if EmptyToNone(name).None? then Failure(EmptyFormParam(index))
      else Success(m.(formParams := m.formParams + [name], indexToName := NameParam(m.indexToName, name, index)))
    case _ => Success(m)
  }

  /** The metadata after a parameter's annotations, and what the parameter step returns or raises. */
  datatype Bound = Bound(state: Meta, outcome: Result<bool, Error>)

  /**
   * All annotations of the parameter at `index`, in order. The outcome is
   * whether a binding annotation was seen; on a failure the state is the one
   * the earlier annotations left.
   */
  function OnParams(m: Meta, anns: seq<Annotation>, index: nat): (b: Bound)
    ensures b.state.httpMethod == m.httpMethod && b.state.url == m.url
    ensures WellFormed(m) ==> WellFormed(b.state)
    decreases |anns|
  {
    if anns == [] then Bound(m, Success(false))
    else
      match OnParam(m, anns[0], index)
      case Failure(e) => Bound(m, Failure(e))
      case Success(next) =>
        var rest := OnParams(next, anns[1..], index);
        assert forall j :: 0 < j < |anns| ==> anns[j] == anns[1..][j - 1];
        Bound(rest.state, if rest.outcome.Success? then Success(anns[0].IsHttpParam() || rest.outcome.value) else rest.outcome)
  }

  /*
   * The order in which a method's annotations reach the steps above: the
   * interface's, then the method's, then each parameter's, stopping at the
   * first failure. This is the orchestration of the base contract, which is
   * not part of this model; it is stated here as an assumption.
   */

  function OnInterfaceAll(m: Meta, ifaceName: string, anns: seq<Annotation>): (r: Result<Meta, Error>)
    ensures r.Success? ==> r.value.formParams == m.formParams && r.value.indexToName == m.indexToName
    ensures r.Success? ==> r.value.httpMethod == m.httpMethod
    ensures r.Success? && WellFormed(m) ==> WellFormed(r.value)
    decreases |anns|
  {
    if anns == [] then Success(m)
    else
      match OnInterface(m, ifaceName, anns[0])
      case Failure(e) => Failure(e)
      case Success(next) => OnInterfaceAll(next, ifaceName, anns[1..])
  }

  function OnMethodAll(m: Meta, methodName: string, anns: seq<Annotation>): (r: Result<Meta, Error>)
    ensures r.Success? ==> r.value.formParams == m.formParams && r.value.indexToName == m.indexToName
    ensures r.Success? && WellFormed(m) ==> WellFormed(r.value)
    decreases |anns|
  {
    if anns == [] then Success(m)
    else
      match OnMethod(m, methodName, anns[0])
      case Failure(e) => Failure(e)
      case Success(next) => OnMethodAll(next, methodName, anns[1..])
  }

  /** The parameters' annotations, the first of them at index `first`. */
  function OnEachParam(m: Meta, params: seq<seq<Annotation>>, first: nat): (r: Result<Meta, Error>)
    ensures r.Success? ==> r.value.httpMethod == m.httpMethod
    ensures r.Success? && WellFormed(m) ==> WellFormed(r.value)
    decreases |params|
  {
    if params == [] then Success(m)
    else
      var b := OnParams(m, params[0], first);
      match b.outcome
      case Failure(e) => Failure(e)
      case Success(_) => OnEachParam(b.state, params[1..], first + 1)
  }

  /**
   * The metadata of one method, from fresh metadata. A method whose annotations
   * set no verb fails before its parameters are read.
   */
  function ParseMethod(ifaceName: string, ifaceAnns: seq<Annotation>, methodName: string,
                       methodAnns: seq<Annotation>, params: seq<seq<Annotation>>): (r: Result<Meta, Error>)
    ensures r.Success? ==> r.value.httpMethod.Some?
    ensures r.Success? ==> WellFormed(r.value)
  {
    assert WellFormed(Empty);
    match OnInterfaceAll(Empty, ifaceName, ifaceAnns)
    case Failure(e) => Failure(e)
    case Success(m1) =>
      (match OnMethodAll(m1, methodName, methodAnns)
       case Failure(e) => Failure(e)
       case Success(m2) =>
         if m2.httpMethod.None? then Failure(MissingHttpMethod(methodName))
         else OnEachParam(m2, params, 0))
  }
}
