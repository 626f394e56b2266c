/** What the contract's steps promise over whole annotation lists. */
module JaxRsProperties {
  import opened Wrappers
  import opened Annotations
  import opened Metadata
  import Multimap
  import Sequences
  import Strings
  import opened RequestTemplates
  import opened QueryLine
  import opened JaxRsRules

  // ---- Verb resolution ----

  /** Once a verb is set, any later verb annotation makes the method fail. */
  lemma {:induction false} VerbAlreadySetFails(m: Meta, methodName: string, anns: seq<Annotation>, j: nat)
    requires m.httpMethod.Some?
    requires j < |anns| && anns[j].Verb?
    ensures OnMethodAll(m, methodName, anns).Failure?
    decreases |anns|
  {
    var r := OnMethod(m, methodName, anns[0]);
    if j == 0 {
      assert r.Failure?;
    } else if r.Success? {
      assert r.value.httpMethod.Some?;
      assert anns[1..][j - 1] == anns[j];
      VerbAlreadySetFails(r.value, methodName, anns[1..], j - 1);
    }
  }

  /** Two verb annotations on one method always fail. */
  lemma {:induction false} SecondVerbFails(m: Meta, methodName: string, anns: seq<Annotation>, i: nat, j: nat)
    requires i < j < |anns| && anns[i].Verb? && anns[j].Verb?
    ensures OnMethodAll(m, methodName, anns).Failure?
    decreases |anns|
  {
    match OnMethod(m, methodName, anns[0])
    case Failure(_) =>
    case Success(next) =>
      assert anns[1..][j - 1] == anns[j];
      if i == 0 {
        VerbAlreadySetFails(next, methodName, anns[1..], j - 1);
      } else {
        assert anns[1..][i - 1] == anns[i];
        SecondVerbFails(next, methodName, anns[1..], i - 1, j - 1);
      }
  }

  /** A method that parses has the verb it declares, and had none before. */
  lemma {:induction false} DeclaredVerbIsSet(m: Meta, methodName: string, anns: seq<Annotation>, j: nat)
    requires j < |anns| && anns[j].Verb?
    requires OnMethodAll(m, methodName, anns).Success?
    ensures m.httpMethod == None
    ensures OnMethodAll(m, methodName, anns).value.httpMethod == Some(anns[j].httpMethod)
    decreases |anns|
  {
    var next := OnMethod(m, methodName, anns[0]).value;
    if j == 0 {
      NoVerbKeepsMethod(next, methodName, anns[1..]);
    } else {
      assert anns[1..][j - 1] == anns[j];
      DeclaredVerbIsSet(next, methodName, anns[1..], j - 1);
    }
  }

  /**
   * A method none of whose annotations is a verb never parses: it fails on one
   * of its annotations, or else because no verb was declared.
   */
  lemma MethodWithoutVerbFails(ifaceName: string, ifaceAnns: seq<Annotation>, methodName: string,
                               methodAnns: seq<Annotation>, params: seq<seq<Annotation>>)
    requires forall j :: 0 <= j < |methodAnns| ==> !methodAnns[j].Verb?
    ensures ParseMethod(ifaceName, ifaceAnns, methodName, methodAnns, params).Failure?
    ensures OnInterfaceAll(Empty, ifaceName, ifaceAnns).Success?
         && OnMethodAll(OnInterfaceAll(Empty, ifaceName, ifaceAnns).value, methodName, methodAnns).Success?
         ==> ParseMethod(ifaceName, ifaceAnns, methodName, methodAnns, params) == Failure(MissingHttpMethod(methodName))
  {
    match OnInterfaceAll(Empty, ifaceName, ifaceAnns)
    case Failure(_) =>
    case Success(m1) =>
      if OnMethodAll(m1, methodName, methodAnns).Success? {
        NoVerbKeepsMethod(m1, methodName, methodAnns);
      }
  }

  /** Only a verb annotation sets the verb: a successful run keeps a verb already set, and so does one without verbs. */
  lemma {:induction false} NoVerbKeepsMethod(m: Meta, methodName: string, anns: seq<Annotation>)
    requires OnMethodAll(m, methodName, anns).Success?
    ensures m.httpMethod.Some? ==> OnMethodAll(m, methodName, anns).value.httpMethod == m.httpMethod
    ensures (forall j :: 0 <= j < |anns| ==> !anns[j].Verb?) ==>
      OnMethodAll(m, methodName, anns).value.httpMethod == m.httpMethod
    decreases |anns|
  {
    if anns != [] {
      var next := OnMethod(m, methodName, anns[0]).value;
      assert forall j :: 0 <= j < |anns[1..]| ==> anns[1..][j] == anns[j + 1];
      NoVerbKeepsMethod(next, methodName, anns[1..]);
    }
  }

  // ---- Paths ----

  /**
   * A Path value `path?query` on a url without a query: the url is joined with
   * `path` alone and the query line's parameters go to the queries, in order.
   */
  lemma PathWithQuery(m: Meta, annotatedName: string, path: string, query: string)
    requires '?' !in m.url && '?' !in path
    ensures PathStep(m, annotatedName, path + "?" + query)
         == Success(m.(url := JoinPath(m.url, path), queries := Merge(m.queries, ParseQueryLine(query))))
  {
    var fragment := SlashedFragment(m.url, path);
    SlashedQuery(m.url, path, query);
    assert '?' !in fragment;
    RequestTemplates.AppendSplitsQuery(m.url, m.queries, fragment, query);
  }

  /** Whether a slash is inserted depends only on the part before the `?`. */
  lemma SlashedQuery(url: string, path: string, query: string)
    ensures SlashedFragment(url, path + "?" + query) == SlashedFragment(url, path) + "?" + query
  {
    var value := path + "?" + query;
    if path != "" {
      assert value[..1] == path[..1];
    } else {
      assert value[0] == '?';
    }
    assert Strings.StartsWith(value, "/") == Strings.StartsWith(path, "/");
  }

  // ---- Parameter binding ----

  /** The names the binding annotations give, in order. */
  function BoundNames(anns: seq<Annotation>): seq<string>
  {
    if anns == [] then []
    else (if anns[0].IsHttpParam() then [anns[0].name] else []) + BoundNames(anns[1..])
  }

  /** The names of the form parameters, in order. */
  function FormNames(anns: seq<Annotation>): seq<string>
  {
    if anns == [] then []
    else (if anns[0].FormParam? then [anns[0].name] else []) + FormNames(anns[1..])
  }

  /** One `{key}` for each query parameter named `key`. */
  function QueryPlaceholders(anns: seq<Annotation>, key: string): seq<Option<string>>
  {
    if anns == [] then []
    else (if anns[0] == QueryParam(key) then [Some(Placeholder(key))] else []) + QueryPlaceholders(anns[1..], key)
  }

  /** One `{key}` for each header parameter named `key`. */
  function HeaderPlaceholders(anns: seq<Annotation>, key: string): seq<string>
  {
    if anns == [] then []
    else (if anns[0] == HeaderParam(key) then [Placeholder(key)] else []) + HeaderPlaceholders(anns[1..], key)
  }

  /** Some annotation of the list satisfies `p`, or the first does, or one of the rest does. */
  lemma SomeAnnotation(anns: seq<Annotation>, p: Annotation -> bool)
    requires anns != []
    ensures (exists j :: 0 <= j < |anns| && p(anns[j])) <==> p(anns[0]) || exists j :: 0 <= j < |anns[1..]| && p(anns[1..][j])
  {
    if exists j :: 0 <= j < |anns| && p(anns[j]) {
      var j :| 0 <= j < |anns| && p(anns[j]);
      if j > 0 { assert anns[1..][j - 1] == anns[j]; }
    }
    if exists j :: 0 <= j < |anns[1..]| && p(anns[1..][j]) {
      var j :| 0 <= j < |anns[1..]| && p(anns[1..][j]);
      assert anns[j + 1] == anns[1..][j];
    }
  }

  /** The parameter step returns true exactly when one of its annotations binds. */
  lemma {:induction false} OnParamsBinds(m: Meta, anns: seq<Annotation>, index: nat)
    requires OnParams(m, anns, index).outcome.Success?
    ensures OnParams(m, anns, index).outcome.value <==> exists j :: 0 <= j < |anns| && anns[j].IsHttpParam()
    decreases |anns|
  {
    if anns != [] {
      var next := OnParam(m, anns[0], index).value;
      OnParamsBinds(next, anns[1..], index);
      SomeAnnotation(anns, (a: Annotation) => a.IsHttpParam());
    }
  }

  /** The parameter step fails exactly when a binding annotation has an empty name. */
  lemma {:induction false} OnParamsFails(m: Meta, anns: seq<Annotation>, index: nat)
    ensures OnParams(m, anns, index).outcome.Failure?
        <==> exists j :: 0 <= j < |anns| && anns[j].IsHttpParam() && anns[j].name == ""
    decreases |anns|
  {
    if anns != [] {
      SomeAnnotation(anns, (a: Annotation) => a.IsHttpParam() && a.name == "");
      match OnParam(m, anns[0], index)
      case Failure(_) =>
      case Success(next) =>
        OnParamsFails(next, anns[1..], index);
    }
  }

  /** A parameter step that succeeds succeeds on its first annotation and then on the rest. */
  lemma OnParamsStep(m: Meta, anns: seq<Annotation>, index: nat)
    requires anns != [] && OnParams(m, anns, index).outcome.Success?
    ensures OnParam(m, anns[0], index).Success?
    ensures var rest := OnParams(OnParam(m, anns[0], index).value, anns[1..], index);
      rest.outcome.Success? && OnParams(m, anns, index).state == rest.state
  {
  }

  /** A parameter that binds records every name under its index, in order. */
  lemma {:induction false} OnParamsNames(m: Meta, anns: seq<Annotation>, index: nat)
    requires OnParams(m, anns, index).outcome.Success?
    ensures Multimap.ValuesOf(OnParams(m, anns, index).state.indexToName, index)
         == Multimap.ValuesOf(m.indexToName, index) + BoundNames(anns)
    decreases |anns|
  {
    if anns != [] {
      OnParamsStep(m, anns, index);
      var next := OnParam(m, anns[0], index).value;
      var own := if anns[0].IsHttpParam() then [anns[0].name] else [];
      assert BoundNames(anns) == own + BoundNames(anns[1..]);
      assert Multimap.ValuesOf(next.indexToName, index) == Multimap.ValuesOf(m.indexToName, index) + own;
      OnParamsNames(next, anns[1..], index);
      Sequences.AppendAssociates(Multimap.ValuesOf(m.indexToName, index), own, BoundNames(anns[1..]));
    }
  }

  /** The form names of a parameter that binds are appended in order. */
  lemma {:induction false} OnParamsFormNames(m: Meta, anns: seq<Annotation>, index: nat)
    requires OnParams(m, anns, index).outcome.Success?
    ensures OnParams(m, anns, index).state.formParams == m.formParams + FormNames(anns)
    decreases |anns|
  {
    if anns != [] {
      OnParamsStep(m, anns, index);
      var next := OnParam(m, anns[0], index).value;
      var own := if anns[0].FormParam? then [anns[0].name] else [];
      assert FormNames(anns) == own + FormNames(anns[1..]);
      assert next.formParams == m.formParams + own;
      OnParamsFormNames(next, anns[1..], index);
      Sequences.AppendAssociates(m.formParams, own, FormNames(anns[1..]));
    }
  }

  /** Each query parameter named `key` adds one `{key}` to that query; other queries are left alone. */
  lemma {:induction false} OnParamsQueries(m: Meta, anns: seq<Annotation>, index: nat, key: string)
    requires OnParams(m, anns, index).outcome.Success?
    ensures Multimap.ValuesOf(OnParams(m, anns, index).state.queries, key)
         == Multimap.ValuesOf(m.queries, key) + QueryPlaceholders(anns, key)
    decreases |anns|
  {
    if anns != [] {
      OnParamsStep(m, anns, index);
      var next := OnParam(m, anns[0], index).value;
      var own := if anns[0] == QueryParam(key) then [Some(Placeholder(key))] else [];
      assert QueryPlaceholders(anns, key) == own + QueryPlaceholders(anns[1..], key);
      if anns[0] != QueryParam(key) && anns[0].QueryParam? {
        assert Multimap.Get(next.queries, key) == Multimap.Get(m.queries, key);
      }
      assert Multimap.ValuesOf(next.queries, key) == Multimap.ValuesOf(m.queries, key) + own;
      OnParamsQueries(next, anns[1..], index, key);
      Sequences.AppendAssociates(Multimap.ValuesOf(m.queries, key), own, QueryPlaceholders(anns[1..], key));
    }
  }

  /** Each header parameter named `key` adds one `{key}` to that header; other headers are left alone. */
  lemma {:induction false} OnParamsHeaders(m: Meta, anns: seq<Annotation>, index: nat, key: string)
    requires OnParams(m, anns, index).outcome.Success?
    ensures Multimap.ValuesOf(OnParams(m, anns, index).state.headers, key)
         == Multimap.ValuesOf(m.headers, key) + HeaderPlaceholders(anns, key)
    decreases |anns|
  {
    if anns != [] {
      OnParamsStep(m, anns, index);
      var next := OnParam(m, anns[0], index).value;
      var own := if anns[0] == HeaderParam(key) then [Placeholder(key)] else [];
      assert HeaderPlaceholders(anns, key) == own + HeaderPlaceholders(anns[1..], key);
      if anns[0] != HeaderParam(key) && anns[0].HeaderParam? {
        assert Multimap.Get(next.headers, key) == Multimap.Get(m.headers, key);
      }
      assert Multimap.ValuesOf(next.headers, key) == Multimap.ValuesOf(m.headers, key) + own;
      OnParamsHeaders(next, anns[1..], index, key);
      Sequences.AppendAssociates(Multimap.ValuesOf(m.headers, key), own, HeaderPlaceholders(anns[1..], key));
    }
  }

  /** A parameter's annotations touch the names of no other index. */
  lemma {:induction false} OnParamsOtherIndices(m: Meta, anns: seq<Annotation>, index: nat, other: nat)
    requires other != index
    ensures Multimap.Get(OnParams(m, anns, index).state.indexToName, other) == Multimap.Get(m.indexToName, other)
    decreases |anns|
  {
    if anns != [] {
      var r := OnParam(m, anns[0], index);
      if r.Success? {
        OnParamsOtherIndices(r.value, anns[1..], index, other);
      }
    }
  }

  /**
   * The first binding annotation with an empty name makes the parameter fail,
   * naming its index, with the metadata as the annotations before it left it.
   */
  lemma {:induction false} OnParamsStopsAtFirstEmpty(m: Meta, anns: seq<Annotation>, index: nat, j: nat)
    requires j < |anns| && anns[j].IsHttpParam() && anns[j].name == ""
    requires forall k :: 0 <= k < j && anns[k].IsHttpParam() ==> anns[k].name != ""
    ensures OnParams(m, anns, index) == Bound(OnParams(m, anns[..j], index).state, Failure(EmptyName(anns[j], index)))
    decreases |anns|
  {
    if j > 0 {
      var next := OnParam(m, anns[0], index).value;
      assert anns[1..][j - 1] == anns[j];
      assert anns[..j][1..] == anns[1..][..j - 1];
      OnParamsStopsAtFirstEmpty(next, anns[1..], index, j - 1);
    }
  }
}
