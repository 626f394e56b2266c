/** The contract's behaviour on the interfaces of its unit tests. */
module JaxRsTestCases {
  import opened Wrappers
  import opened Annotations
  import opened Metadata
  import Multimap
  import Sequences
  import Strings
  import opened QueryLine
  import opened JaxRsRules
  import JaxRsProperties

  /** The steps of a GET method with one path on its interface and one on itself. */
  lemma TwoPaths(iface: string, base: string, methodName: string, specific: string)
    requires base != "" && specific != "" && '?' !in base && '?' !in specific
    ensures ParseMethod(iface, [Path(base)], methodName, [Verb("GET"), Path(specific)], [])
         == Success(Empty.(httpMethod := Some("GET"), url := JoinPath(JoinPath("", base), specific)))
  {
    var m1 := Empty.(url := JoinPath("", base));
    var m2 := m1.(httpMethod := Some("GET"));
    InterfacePath(Empty, iface, base);
    VerbThen(m1, methodName, "GET", Path(specific));
    JoinStaysQueryFree("", base);
    MethodPath(m2, methodName, specific);
    assert OnEachParam(m2.(url := JoinPath(m2.url, specific)), [], 0) == Success(m2.(url := JoinPath(m2.url, specific)));
  }

  /** A single non-empty `@Path` without a query on the interface joins onto the url. */
  lemma InterfacePath(m: Meta, iface: string, base: string)
    requires base != "" && '?' !in base && '?' !in m.url
    ensures OnInterfaceAll(m, iface, [Path(base)]) == Success(m.(url := JoinPath(m.url, base)))
  {
    assert OnInterface(m, iface, Path(base)) == Success(m.(url := JoinPath(m.url, base)));
    assert [Path(base)][1..] == [];
  }

  /** A verb on a method without one, then one more annotation. */
  lemma VerbThen(m: Meta, methodName: string, verb: string, a: Annotation)
    requires m.httpMethod == None
    ensures OnMethodAll(m, methodName, [Verb(verb), a]) == OnMethod(m.(httpMethod := Some(verb)), methodName, a)
  {
    assert [Verb(verb), a][1..] == [a];
    SingleMethodAnnotation(m.(httpMethod := Some(verb)), methodName, a);
  }

  /** A single non-empty `@Path` without a query on the method joins onto the url. */
  lemma MethodPath(m: Meta, methodName: string, specific: string)
    requires specific != "" && '?' !in specific && '?' !in m.url
    ensures OnMethod(m, methodName, Path(specific)) == Success(m.(url := JoinPath(m.url, specific)))
  {
  }

  /** Joining two paths without a `?` gives a path without one. */
  lemma JoinStaysQueryFree(url: string, value: string)
    requires '?' !in url && '?' !in value
    ensures '?' !in JoinPath(url, value)
  {
    assert JoinPath(url, value) == url + SlashedFragment(url, value);
  }

  /** A slash is inserted when neither side has one. */
  lemma JoinInsertsSlash(url: string, value: string)
    requires !Strings.EndsWith(url, "/")
    requires value != "" && value[0] != '/'
    ensures JoinPath(url, value) == url + "/" + value
  {
    assert !Strings.StartsWith(value, "/") by {
      assert value[..1][0] == value[0];
    }
    Sequences.AppendRegroups(url, '/', value);
  }

  /** Nothing is inserted when the value starts with a slash. */
  lemma JoinKeepsLeadingSlash(url: string, value: string)
    ensures JoinPath(url, "/" + value) == url + "/" + value
  {
    assert Strings.StartsWith("/" + value, "/") by {
      assert ("/" + value)[..1] == "/";
    }
  }

  /**
   * Whichever side supplies the slash, or neither, an interface path and a
   * method path join to the same url: `/base/specific` for the slash tests.
   */
  lemma SlashPlacementDoesNotMatter(base: string, specific: string)
    requires base != "" && specific != ""
    requires base[0] != '/' && base[|base| - 1] != '/' && specific[0] != '/'
    ensures JoinPath(JoinPath("", base), specific) == "/" + base + "/" + specific
    ensures JoinPath(JoinPath("", "/" + base), specific) == "/" + base + "/" + specific
    ensures JoinPath(JoinPath("", base), "/" + specific) == "/" + base + "/" + specific
    ensures JoinPath(JoinPath("", "/" + base), "/" + specific) == "/" + base + "/" + specific
  {
    var b := "/" + base;
    JoinInsertsSlash("", base);
    JoinKeepsLeadingSlash("", base);
    assert !Strings.EndsWith(b, "/") by {
      assert b[|b| - 1..][0] == base[|base| - 1];
    }
    JoinInsertsSlash(b, specific);
    JoinKeepsLeadingSlash(b, specific);
  }

  /** `@POST`, `@PUT`, `@GET`, `@DELETE` and a custom `@PATCH`: the verb is the method's, the url stays empty. */
  lemma HttpMethods(iface: string, methodName: string, verb: string)
    ensures ParseMethod(iface, [], methodName, [Verb(verb)], []) == Success(Empty.(httpMethod := Some(verb)))
  {
    assert OnMethodAll(Empty, methodName, [Verb(verb)]) == Success(Empty.(httpMethod := Some(verb))) by {
      assert OnMethodAll(Empty.(httpMethod := Some(verb)), methodName, []) == Success(Empty.(httpMethod := Some(verb)));
    }
  }

  /** `@Produces(type)` adds `Accept: type`; `@Produces({})` and `@Produces({""})` fail naming the method. */
  lemma ProducesTests(iface: string, methodName: string, mediaType: string)
    requires mediaType != ""
    ensures ParseMethod(iface, [], methodName, [Verb("GET"), Produces([mediaType])], [])
         == Success(Empty.(httpMethod := Some("GET"), headers := [Multimap.Entry(ACCEPT, [mediaType])]))
    ensures ParseMethod(iface, [], methodName, [Verb("GET"), Produces([])], []) == Failure(EmptyProduces(methodName))
    ensures ParseMethod(iface, [], methodName, [Verb("GET"), Produces([""])], []) == Failure(EmptyProduces(methodName))
  {
    var m := Empty.(httpMethod := Some("GET"));
    var done := m.(headers := [Multimap.Entry(ACCEPT, [mediaType])]);
    assert OnMethodAll(m, methodName, [Produces([mediaType])]) == Success(done) by {
      assert m.headers == [];
      Multimap.PutNewKey([], ACCEPT, [mediaType]);
      assert Multimap.Put(m.headers, ACCEPT, [mediaType]) == done.headers;
      assert FirstValueToHeader(m, [mediaType], ACCEPT, EmptyProduces(methodName)) == Success(done);
      assert OnMethod(m, methodName, Produces([mediaType])) == Success(done);
      assert [Produces([mediaType])][1..] == [];
      assert OnMethodAll(done, methodName, []) == Success(done);
    }
    assert [Verb("GET"), Produces([mediaType])][1..] == [Produces([mediaType])];
    assert [Verb("GET"), Produces([])][1..] == [Produces([])];
    assert [Verb("GET"), Produces([""])][1..] == [Produces([""])];
  }

  /** `@Consumes(type)` adds `Content-Type: type`; `@Consumes({})` and `@Consumes({""})` fail naming the method. */
  lemma ConsumesTests(iface: string, methodName: string, mediaType: string)
    requires mediaType != ""
    ensures ParseMethod(iface, [], methodName, [Verb("POST"), Consumes([mediaType])], [])
         == Success(Empty.(httpMethod := Some("POST"), headers := [Multimap.Entry(CONTENT_TYPE, [mediaType])]))
    ensures ParseMethod(iface, [], methodName, [Verb("POST"), Consumes([])], []) == Failure(EmptyConsumes(methodName))
    ensures ParseMethod(iface, [], methodName, [Verb("POST"), Consumes([""])], []) == Failure(EmptyConsumes(methodName))
  {
    var m := Empty.(httpMethod := Some("POST"));
    var done := m.(headers := [Multimap.Entry(CONTENT_TYPE, [mediaType])]);
    assert OnMethodAll(m, methodName, [Consumes([mediaType])]) == Success(done) by {
      assert m.headers == [];
      Multimap.PutNewKey([], CONTENT_TYPE, [mediaType]);
      assert Multimap.Put(m.headers, CONTENT_TYPE, [mediaType]) == done.headers;
      assert FirstValueToHeader(m, [mediaType], CONTENT_TYPE, EmptyConsumes(methodName)) == Success(done);
      assert OnMethod(m, methodName, Consumes([mediaType])) == Success(done);
      assert [Consumes([mediaType])][1..] == [];
      assert OnMethodAll(done, methodName, []) == Success(done);
    }
    assert [Verb("POST"), Consumes([mediaType])][1..] == [Consumes([mediaType])];
    assert [Verb("POST"), Consumes([])][1..] == [Consumes([])];
    assert [Verb("POST"), Consumes([""])][1..] == [Consumes([""])];
  }

  /** An empty `@Path` on the interface fails naming the interface. */
  lemma EmptyPathOnType(iface: string, methodName: string)
    ensures ParseMethod(iface, [Path("")], methodName, [Verb("GET")], []) == Failure(EmptyPath(iface))
  {
  }

  /** An empty `@Path` on the method fails naming the method. */
  lemma EmptyPathOnMethod(iface: string, methodName: string, base: string)
    requires base != "" && '?' !in base
    ensures ParseMethod(iface, [Path(base)], methodName, [Verb("GET"), Path("")], []) == Failure(EmptyPath(methodName))
  {
    var m1 := Empty.(url := JoinPath("", base));
    InterfacePath(Empty, iface, base);
    VerbThen(m1, methodName, "GET", Path(""));
  }

  /*
   * One binding annotation on a parameter whose index and name are new: the
   * entries it adds go last. These are the steps the parameter examples below
   * are made of.
   */

  lemma PathParamBinds(m: Meta, name: string, index: nat)
    requires name != "" && index !in Multimap.Keys(m.indexToName)
    ensures OnParams(m, [PathParam(name)], index)
         == Bound(m.(indexToName := m.indexToName + [Multimap.Entry(index, [name])]), Success(true))
  {
    Multimap.AddNewKey(m.indexToName, index, name);
  }

  lemma QueryParamBinds(m: Meta, name: string, index: nat)
    requires name != "" && index !in Multimap.Keys(m.indexToName) && name !in Multimap.Keys(m.queries)
    ensures OnParams(m, [QueryParam(name)], index)
         == Bound(m.(queries := m.queries + [Multimap.Entry(name, [Some(Placeholder(name))])],
                     indexToName := m.indexToName + [Multimap.Entry(index, [name])]), Success(true))
  {
    Multimap.AddNewKey(m.indexToName, index, name);
    Multimap.AddNewKey(m.queries, name, Some(Placeholder(name)));
  }

  lemma HeaderParamBinds(m: Meta, name: string, index: nat)
    requires name != "" && index !in Multimap.Keys(m.indexToName) && name !in Multimap.Keys(m.headers)
    ensures OnParams(m, [HeaderParam(name)], index)
         == Bound(m.(headers := m.headers + [Multimap.Entry(name, [Placeholder(name)])],
                     indexToName := m.indexToName + [Multimap.Entry(index, [name])]), Success(true))
  {
    Multimap.AddNewKey(m.indexToName, index, name);
    Multimap.AddNewKey(m.headers, name, Placeholder(name));
  }

  lemma FormParamBinds(m: Meta, name: string, index: nat)
    requires name != "" && index !in Multimap.Keys(m.indexToName)
    ensures OnParams(m, [FormParam(name)], index)
         == Bound(m.(formParams := m.formParams + [name],
                     indexToName := m.indexToName + [Multimap.Entry(index, [name])]), Success(true))
  {
    Multimap.AddNewKey(m.indexToName, index, name);
  }

  /** A parameter whose annotations succeed hands its state on to the next parameter. */
  lemma EachParamStep(m: Meta, params: seq<seq<Annotation>>, first: nat, next: Meta)
    requires params != [] && OnParams(m, params[0], first).state == next
    requires OnParams(m, params[0], first).outcome.Success?
    ensures OnEachParam(m, params, first) == OnEachParam(next, params[1..], first + 1)
  {
  }

  /** One parameter per name, each annotated with just `@FormParam(name)`. */
  function FormParamsOf(names: seq<string>): (ps: seq<seq<Annotation>>)
    ensures |ps| == |names|
    ensures forall i :: 0 <= i < |names| ==> ps[i] == [FormParam(names[i])]
  {
    if names == [] then [] else [[FormParam(names[0])]] + FormParamsOf(names[1..])
  }

  /** One parameter per name, each annotated with just `@QueryParam(name)`. */
  function QueryParamsOf(names: seq<string>): (ps: seq<seq<Annotation>>)
    ensures |ps| == |names|
    ensures forall i :: 0 <= i < |names| ==> ps[i] == [QueryParam(names[i])]
  {
    if names == [] then [] else [[QueryParam(names[0])]] + QueryParamsOf(names[1..])
  }

  /** The name entries of consecutive parameters, the first at index `first`. */
  function IndexEntries(names: seq<string>, first: nat): (es: Multimap.Multimap<nat, string>)
    ensures |es| == |names|
    ensures forall i :: 0 <= i < |names| ==> es[i] == Multimap.Entry(first + i, [names[i]])
  {
    if names == [] then [] else [Multimap.Entry(first, [names[0]])] + IndexEntries(names[1..], first + 1)
  }

  /** The query entries of query parameters with distinct names, each holding its placeholder. */
  function QueryEntries(names: seq<string>): (es: QueryLine.QueryMap)
    ensures |es| == |names|
    ensures forall i :: 0 <= i < |names| ==> es[i] == Multimap.Entry(names[i], [Some(Placeholder(names[i]))])
  {
    if names == [] then [] else [Multimap.Entry(names[0], [Some(Placeholder(names[0]))])] + QueryEntries(names[1..])
  }

  /**
   * Form parameters with non-empty names, bound after earlier indices: the form
   * names are appended in parameter order and each is recorded under its index.
   */
  lemma {:induction false} FormParamsBindInOrder(m: Meta, names: seq<string>, first: nat)
    requires forall i :: 0 <= i < |names| ==> names[i] != ""
    requires forall k :: k in Multimap.Keys(m.indexToName) ==> k < first
    ensures OnEachParam(m, FormParamsOf(names), first)
         == Success(m.(formParams := m.formParams + names, indexToName := m.indexToName + IndexEntries(names, first)))
    decreases |names|
  {
    if names == [] {
      assert m.formParams + names == m.formParams && m.indexToName + IndexEntries(names, first) == m.indexToName;
    } else {
      var m1 := m.(formParams := m.formParams + [names[0]],
                   indexToName := m.indexToName + [Multimap.Entry(first, [names[0]])]);
      FormParamsStep(m, names, first);
      IndicesStayBelow(m.indexToName, first, names[0]);
      FormParamsBindInOrder(m1, names[1..], first + 1);
      FormParamsRegroup(m, names, first);
    }
  }

  /** The first of the form parameters binds on its own. */
  lemma FormParamsStep(m: Meta, names: seq<string>, first: nat)
    requires names != [] && names[0] != ""
    requires forall k :: k in Multimap.Keys(m.indexToName) ==> k < first
    ensures OnEachParam(m, FormParamsOf(names), first)
         == OnEachParam(m.(formParams := m.formParams + [names[0]],
                           indexToName := m.indexToName + [Multimap.Entry(first, [names[0]])]),
                        FormParamsOf(names[1..]), first + 1)
  {
    var ps := FormParamsOf(names);
    FormParamBinds(m, names[0], first);
    EachParamStep(m, ps, first, m.(formParams := m.formParams + [names[0]],
                                   indexToName := m.indexToName + [Multimap.Entry(first, [names[0]])]));
    assert ps[1..] == FormParamsOf(names[1..]);
  }

  /** What the first form parameter adds, followed by what the rest add, is what they all add. */
  lemma FormParamsRegroup(m: Meta, names: seq<string>, first: nat)
    requires names != []
    ensures m.(formParams := m.formParams + [names[0]],
               indexToName := m.indexToName + [Multimap.Entry(first, [names[0]])])
           .(formParams := m.formParams + [names[0]] + names[1..],
             indexToName := m.indexToName + [Multimap.Entry(first, [names[0]])] + IndexEntries(names[1..], first + 1))
         == m.(formParams := m.formParams + names, indexToName := m.indexToName + IndexEntries(names, first))
  {
    Sequences.AppendRegroups(m.formParams, names[0], names[1..]);
    assert [names[0]] + names[1..] == names;
    Sequences.AppendRegroups(m.indexToName, Multimap.Entry(first, [names[0]]), IndexEntries(names[1..], first + 1));
  }

  /**
   * Query parameters with distinct non-empty names not yet among the queries:
   * each name's placeholder is appended in parameter order, and each name is
   * recorded under its index.
   */
  lemma {:induction false} QueryParamsBindInOrder(m: Meta, names: seq<string>, first: nat)
    requires forall i :: 0 <= i < |names| ==> names[i] != "" && names[i] !in Multimap.Keys(m.queries)
    requires forall i, j :: 0 <= i < j < |names| ==> names[i] != names[j]
    requires forall k :: k in Multimap.Keys(m.indexToName) ==> k < first
    ensures OnEachParam(m, QueryParamsOf(names), first)
         == Success(m.(queries := m.queries + QueryEntries(names), indexToName := m.indexToName + IndexEntries(names, first)))
    decreases |names|
  {
    if names == [] {
      assert m.queries + QueryEntries(names) == m.queries && m.indexToName + IndexEntries(names, first) == m.indexToName;
    } else {
      var n := names[0];
      var m1 := m.(queries := m.queries + [Multimap.Entry(n, [Some(Placeholder(n))])],
                   indexToName := m.indexToName + [Multimap.Entry(first, [n])]);
      QueryParamsStep(m, names, first);
      QueryNamesStayFresh(m, names, first);
      QueryParamsBindInOrder(m1, names[1..], first + 1);
      QueryParamsRegroup(m, names, first);
    }
  }

  /** The first of the query parameters binds on its own. */
  lemma QueryParamsStep(m: Meta, names: seq<string>, first: nat)
    requires names != [] && names[0] != "" && names[0] !in Multimap.Keys(m.queries)
    requires forall k :: k in Multimap.Keys(m.indexToName) ==> k < first
    ensures OnEachParam(m, QueryParamsOf(names), first)
         == OnEachParam(m.(queries := m.queries + [Multimap.Entry(names[0], [Some(Placeholder(names[0]))])],
                           indexToName := m.indexToName + [Multimap.Entry(first, [names[0]])]),
                        QueryParamsOf(names[1..]), first + 1)
  {
    var ps := QueryParamsOf(names);
    QueryParamBinds(m, names[0], first);
    EachParamStep(m, ps, first, m.(queries := m.queries + [Multimap.Entry(names[0], [Some(Placeholder(names[0]))])],
                                   indexToName := m.indexToName + [Multimap.Entry(first, [names[0]])]));
    assert ps[1..] == QueryParamsOf(names[1..]);
  }

  /** What the first query parameter adds, followed by what the rest add, is what they all add. */
  lemma QueryParamsRegroup(m: Meta, names: seq<string>, first: nat)
    requires names != []
    ensures m.(queries := m.queries + [Multimap.Entry(names[0], [Some(Placeholder(names[0]))])] + QueryEntries(names[1..]),
               indexToName := m.indexToName + [Multimap.Entry(first, [names[0]])] + IndexEntries(names[1..], first + 1))
         == m.(queries := m.queries + QueryEntries(names), indexToName := m.indexToName + IndexEntries(names, first))
  {
    Sequences.AppendRegroups(m.queries, Multimap.Entry(names[0], [Some(Placeholder(names[0]))]), QueryEntries(names[1..]));
    Sequences.AppendRegroups(m.indexToName, Multimap.Entry(first, [names[0]]), IndexEntries(names[1..], first + 1));
  }

  /** Indices bound so far stay below the next one after binding the current index. */
  lemma IndicesStayBelow(indexToName: Multimap.Multimap<nat, string>, first: nat, name: string)
    requires forall k :: k in Multimap.Keys(indexToName) ==> k < first
    ensures forall k :: k in Multimap.Keys(indexToName + [Multimap.Entry(first, [name])]) ==> k < first + 1
  {
    assert Multimap.Keys(indexToName + [Multimap.Entry(first, [name])]) == Multimap.Keys(indexToName) + [first] by {
      Multimap.AddNewKey(indexToName, first, name);
    }
  }

  /** After the first query parameter binds, the remaining names are still new. */
  lemma QueryNamesStayFresh(m: Meta, names: seq<string>, first: nat)
    requires names != []
    requires forall i :: 0 <= i < |names| ==> names[i] != "" && names[i] !in Multimap.Keys(m.queries)
    requires forall i, j :: 0 <= i < j < |names| ==> names[i] != names[j]
    requires forall k :: k in Multimap.Keys(m.indexToName) ==> k < first
    ensures forall i :: 1 <= i < |names| ==>
      names[i] !in Multimap.Keys(m.queries + [Multimap.Entry(names[0], [Some(Placeholder(names[0]))])])
    ensures forall k :: k in Multimap.Keys(m.indexToName + [Multimap.Entry(first, [names[0]])]) ==> k < first + 1
  {
    var n := names[0];
    assert Multimap.Keys(m.indexToName + [Multimap.Entry(first, [n])]) == Multimap.Keys(m.indexToName) + [first] by {
      Multimap.AddNewKey(m.indexToName, first, n);
    }
    assert Multimap.Keys(m.queries + [Multimap.Entry(n, [Some(Placeholder(n))])]) == Multimap.Keys(m.queries) + [n] by {
      Multimap.AddNewKey(m.queries, n, Some(Placeholder(n)));
    }
  }

  /**
   * `login(@FormParam a, @FormParam b, @FormParam c)`, from any index past the
   * ones already bound: the form names in order, each under its index.
   */
  lemma FormParamsTest(m: Meta, a: string, b: string, c: string, first: nat)
    requires a != "" && b != "" && c != ""
    requires forall k :: k in Multimap.Keys(m.indexToName) ==> k < first
    ensures OnEachParam(m, [[FormParam(a)], [FormParam(b)], [FormParam(c)]], first)
         == Success(m.(formParams := m.formParams + [a, b, c],
                       indexToName := m.indexToName + [Multimap.Entry(first, [a]), Multimap.Entry(first + 1, [b]),
                                                       Multimap.Entry(first + 2, [c])]))
  {
    FormParamsBindInOrder(m, [a, b, c], first);
    ThreeNames(a, b, c, first);
  }

  /** The parameters and index entries of three form names, written out. */
  lemma ThreeNames(a: string, b: string, c: string, first: nat)
    ensures FormParamsOf([a, b, c]) == [[FormParam(a)], [FormParam(b)], [FormParam(c)]]
    ensures IndexEntries([a, b, c], first)
         == [Multimap.Entry(first, [a]), Multimap.Entry(first + 1, [b]), Multimap.Entry(first + 2, [c])]
  {
    var names := [a, b, c];
    assert FormParamsOf(names)[0] == [FormParam(a)];
    assert IndexEntries(names, first)[0] == Multimap.Entry(first, [a]);
  }

  /** `logout(@HeaderParam h)`: the new header `h` gets the placeholder `{h}`, and `h` is bound under its index. */
  lemma HeaderParamTest(m: Meta, h: string, index: nat)
    requires h != ""
    requires h !in Multimap.Keys(m.headers) && index !in Multimap.Keys(m.indexToName)
    ensures OnEachParam(m, [[HeaderParam(h)]], index)
         == Success(m.(headers := m.headers + [Multimap.Entry(h, [Placeholder(h)])],
                       indexToName := m.indexToName + [Multimap.Entry(index, [h])]))
  {
    var m1 := m.(headers := m.headers + [Multimap.Entry(h, [Placeholder(h)])],
                 indexToName := m.indexToName + [Multimap.Entry(index, [h])]);
    HeaderParamBinds(m, h, index);
    EachParamStep(m, [[HeaderParam(h)]], index, m1);
    assert OnEachParam(m1, [[HeaderParam(h)]][1..], index + 1) == Success(m1);
  }

  /**
   * `recordsByNameAndType(@PathParam p, @QueryParam q1, @QueryParam q2)`, for
   * any number of distinct new query names after the path parameter: the
   * queries get their placeholders in order, and every name is bound under
   * its index.
   */
  lemma PathAndQueryParamsTest(m: Meta, p: string, names: seq<string>, first: nat)
    requires p != "" && forall k :: k in Multimap.Keys(m.indexToName) ==> k < first
    requires forall i :: 0 <= i < |names| ==> names[i] != "" && names[i] !in Multimap.Keys(m.queries)
    requires forall i, j :: 0 <= i < j < |names| ==> names[i] != names[j]
    ensures OnEachParam(m, [[PathParam(p)]] + QueryParamsOf(names), first)
         == Success(m.(queries := m.queries + QueryEntries(names),
                       indexToName := m.indexToName + [Multimap.Entry(first, [p])] + IndexEntries(names, first + 1)))
  {
    var m1 := m.(indexToName := m.indexToName + [Multimap.Entry(first, [p])]);
    PathParamStep(m, p, first, QueryParamsOf(names));
    IndicesStayBelow(m.indexToName, first, p);
    QueryParamsBindInOrder(m1, names, first + 1);
  }

  /**
   * `uriParam(@PathParam a, URI endpoint, @PathParam b)`: the unannotated
   * parameter binds no name, so its index is skipped.
   */
  lemma UnannotatedParamSkipsIndex(m: Meta, a: string, b: string, first: nat)
    requires a != "" && b != ""
    requires forall k :: k in Multimap.Keys(m.indexToName) ==> k < first
    ensures OnEachParam(m, [[PathParam(a)], [], [PathParam(b)]], first)
         == Success(m.(indexToName := m.indexToName + [Multimap.Entry(first, [a]), Multimap.Entry(first + 2, [b])]))
  {
    var e0: Multimap.Entry<nat, string> := Multimap.Entry(first, [a]);
    var e2: Multimap.Entry<nat, string> := Multimap.Entry(first + 2, [b]);
    var m1 := m.(indexToName := m.indexToName + [e0]);
    assert [[PathParam(a)], [], [PathParam(b)]] == [[PathParam(a)]] + [[], [PathParam(b)]];
    PathParamStep(m, a, first, [[], [PathParam(b)]]);
    IndicesStayBelow(m.indexToName, first, a);
    UnannotatedThenPathParam(m1, b, first + 1);
    TwoEntriesRegroup(m, e0, e2);
  }

  /** Names added under one index and then another are the two entries added together. */
  lemma TwoEntriesRegroup(m: Meta, e0: Multimap.Entry<nat, string>, e2: Multimap.Entry<nat, string>)
    ensures m.(indexToName := m.indexToName + [e0]).(indexToName := m.indexToName + [e0] + [e2])
         == m.(indexToName := m.indexToName + [e0, e2])
  {
    Sequences.AppendAssociates(m.indexToName, [e0], [e2]);
    assert [e0] + [e2] == [e0, e2];
  }

  /** An unannotated parameter and then one bound by `@PathParam(name)` at a new index, the last two parameters. */
  lemma UnannotatedThenPathParam(m: Meta, name: string, index: nat)
    requires name != "" && index + 1 !in Multimap.Keys(m.indexToName)
    ensures OnEachParam(m, [[], [PathParam(name)]], index)
         == Success(m.(indexToName := m.indexToName + [Multimap.Entry(index + 1, [name])]))
  {
    assert [[], [PathParam(name)]] == [[]] + [[PathParam(name)]];
    UnannotatedStep(m, index, [[PathParam(name)]]);
    assert [[PathParam(name)]] == [[PathParam(name)]] + [];
    PathParamStep(m, name, index + 1, []);
  }

  /** A parameter bound by `@PathParam(name)` at a new index, followed by more parameters. */
  lemma PathParamStep(m: Meta, name: string, index: nat, rest: seq<seq<Annotation>>)
    requires name != "" && index !in Multimap.Keys(m.indexToName)
    ensures OnEachParam(m, [[PathParam(name)]] + rest, index)
         == OnEachParam(m.(indexToName := m.indexToName + [Multimap.Entry(index, [name])]), rest, index + 1)
  {
    var ps := [[PathParam(name)]] + rest;
    PathParamBinds(m, name, index);
    assert ps[0] == [PathParam(name)] && ps[1..] == rest;
  }

  /** A parameter without annotations binds nothing and moves on to the next index. */
  lemma UnannotatedStep(m: Meta, index: nat, rest: seq<seq<Annotation>>)
    ensures OnEachParam(m, [[]] + rest, index) == OnEachParam(m, rest, index + 1)
  {
    var ps := [[]] + rest;
    assert ps[0] == [] && ps[1..] == rest;
  }

  /** An empty name on any binding annotation of the first parameter fails, naming parameter 0. */
  lemma EmptyParamNameTests(m: Meta)
    ensures OnEachParam(m, [[PathParam("")]], 0) == Failure(EmptyPathParam(0))
    ensures OnEachParam(m, [[QueryParam("")]], 0) == Failure(EmptyQueryParam(0))
    ensures OnEachParam(m, [[HeaderParam("")]], 0) == Failure(EmptyHeaderParam(0))
    ensures OnEachParam(m, [[FormParam("")]], 0) == Failure(EmptyFormParam(0))
  {
  }

  /** A single method annotation after the verb is just that annotation's step. */
  lemma SingleMethodAnnotation(m: Meta, methodName: string, a: Annotation)
    ensures OnMethodAll(m, methodName, [a]) == OnMethod(m, methodName, a)
  {
    assert [a][1..] == [];
  }

  /**
   * `@GET @Path("path?query")` where the query lists parameters with distinct
   * keys: the url is the path alone and each parameter becomes one query entry,
   * in the order written.
   */
  lemma {:induction false} QueryParamsInPathExtract(iface: string, methodName: string, path: string, ps: seq<Param>)
    requires path != "" && '?' !in path
    requires ps != [] && QueryString(ps) != ""
    requires forall i :: 0 <= i < |ps| ==> Writable(ps[i])
    requires forall i, j :: 0 <= i < j < |ps| ==> ps[i].key != ps[j].key
    ensures ParseMethod(iface, [], methodName, [Verb("GET"), Path(path + "?" + QueryString(ps))], [])
         == Success(Empty.(httpMethod := Some("GET"), url := JoinPath("", path), queries := Singletons(ps)))
  {
    var m := Empty.(httpMethod := Some("GET"));
    var value := path + "?" + QueryString(ps);
    var done := m.(url := JoinPath("", path), queries := Singletons(ps));
    VerbThen(Empty, methodName, "GET", Path(value));
    PathQueryExtracts(m, methodName, path, ps);
    assert OnEachParam(done, [], 0) == Success(done);
  }

  /** A path with a query line on a template without one: the path joins the url and the pairs become queries. */
  lemma PathQueryExtracts(m: Meta, methodName: string, path: string, ps: seq<Param>)
    requires m.url == "" && m.queries == []
    requires path != "" && '?' !in path
    requires ps != [] && QueryString(ps) != ""
    requires forall i :: 0 <= i < |ps| ==> Writable(ps[i])
    requires forall i, j :: 0 <= i < j < |ps| ==> ps[i].key != ps[j].key
    ensures PathStep(m, methodName, path + "?" + QueryString(ps))
         == Success(m.(url := JoinPath("", path), queries := Singletons(ps)))
  {
    JaxRsProperties.PathWithQuery(m, methodName, path, QueryString(ps));
    ParseQueryString(ps);
    MergeNewKeys([], ps);
    assert [] + Singletons(ps) == Singletons(ps);
  }

  /** The root path `/` joined onto an empty url. */
  lemma RootJoin()
    ensures JoinPath("", "/") == "/"
  {
    assert Strings.StartsWith("/", "/");
  }

  /** The query line `flag&k1=v1&k2=v2`, written from its three parameters. */
  lemma FlagAndPairsLine(flag: string, k1: string, v1: string, k2: string, v2: string)
    ensures QueryString([Param(flag, None), Param(k1, Some(v1)), Param(k2, Some(v2))])
         == flag + "&" + (k1 + "=" + v1) + "&" + (k2 + "=" + v2)
  {
    var ps := [Param(flag, None), Param(k1, Some(v1)), Param(k2, Some(v2))];
    assert UnparseAll(ps) == [flag, k1 + "=" + v1, k2 + "=" + v2];
    var tail := [k1 + "=" + v1, k2 + "=" + v2];
    assert Strings.Join(tail[1..], '&') == k2 + "=" + v2;
    assert Strings.Join(tail, '&') == (k1 + "=" + v1) + "&" + (k2 + "=" + v2);
  }

  /**
   * `@GET @Path("/?flag&Action=GetUser&Version=2010-05-08")`, for any such
   * names: the url is `/`, and the bare flag is a key with an absent value,
   * ahead of the two pairs.
   */
  lemma QueryParamsInPathWithFlag(iface: string, methodName: string, flag: string, k1: string, v1: string, k2: string, v2: string)
    requires flag != "" && k1 != "" && k2 != ""
    requires flag != k1 && flag != k2 && k1 != k2
    requires '=' !in flag && '=' !in k1 && '=' !in k2
    requires '&' !in flag && '&' !in k1 && '&' !in k2 && '&' !in v1 && '&' !in v2
    ensures ParseMethod(iface, [], methodName,
                        [Verb("GET"), Path("/?" + flag + "&" + (k1 + "=" + v1) + "&" + (k2 + "=" + v2))], [])
         == Success(Empty.(httpMethod := Some("GET"), url := "/",
                           queries := [Multimap.Entry(flag, [None]), Multimap.Entry(k1, [Some(v1)]), Multimap.Entry(k2, [Some(v2)])]))
  {
    var ps := [Param(flag, None), Param(k1, Some(v1)), Param(k2, Some(v2))];
    FlagAndPairsLine(flag, k1, v1, k2, v2);
    FlagAndPairsParams(flag, k1, v1, k2, v2);
    assert "/?" + flag + "&" + (k1 + "=" + v1) + "&" + (k2 + "=" + v2) == "/" + "?" + QueryString(ps) by {
      assert "/?" == "/" + "?";
    }
    QueryParamsInPathExtract(iface, methodName, "/", ps);
    RootJoin();
  }

  /** The three parameters of that query line can be written, have distinct keys, and become one entry each. */
  lemma FlagAndPairsParams(flag: string, k1: string, v1: string, k2: string, v2: string)
    requires flag != "" && k1 != "" && k2 != ""
    requires flag != k1 && flag != k2 && k1 != k2
    requires '=' !in flag && '=' !in k1 && '=' !in k2
    requires '&' !in flag && '&' !in k1 && '&' !in k2 && '&' !in v1 && '&' !in v2
    ensures var ps := [Param(flag, None), Param(k1, Some(v1)), Param(k2, Some(v2))];
      && (forall i :: 0 <= i < |ps| ==> Writable(ps[i]))
      && (forall i, j :: 0 <= i < j < |ps| ==> ps[i].key != ps[j].key)
      && Singletons(ps) == [Multimap.Entry(flag, [None]), Multimap.Entry(k1, [Some(v1)]), Multimap.Entry(k2, [Some(v2)])]
  {
    var ps := [Param(flag, None), Param(k1, Some(v1)), Param(k2, Some(v2))];
    assert Writable(ps[0]) && Writable(ps[1]) && Writable(ps[2]);
    assert ps[0].key == flag && ps[1].key == k1 && ps[2].key == k2;
    assert Singletons(ps)[0] == Multimap.Entry(flag, [None]);
  }
}
