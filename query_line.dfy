/**
 * The query string of a path literal: `a=1&flag&b=2` is cut at every `&`, each
 * token at its first `=`; a token without `=` is a key whose value is absent
 * (the `null` the template records for a bare flag).
 */
module QueryLine {
  import opened Wrappers
  import Strings
  import Multimap
  import Sequences

  /** Query values may be absent, so a query map holds optional values. */
  type QueryMap = Multimap.Multimap<string, Option<string>>

  /** One `key=value` or bare `key` token. */
  datatype Param = Param(key: string, value: Option<string>)

  /** The token a parameter is written as. */
  function UnparseParam(p: Param): string
  {
    match p.value
    case None => p.key
    case Some(v) => p.key + "=" + v
  }

  /** One token, cut at its first `=`. */
  function ParseParam(token: string): (p: Param)
    ensures '=' !in p.key
    ensures UnparseParam(p) == token
  {
    match Strings.IndexOf(token, '=')
    case None => Param(token, None)
    case Some(i) =>
      assert token == token[..i] + "=" + token[i + 1..];
      Param(token[..i], Some(token[i + 1..]))
  }

  /** Parsing recovers every parameter whose key holds no `=`. */
  lemma UnparseParse(p: Param)
    requires '=' !in p.key
    ensures ParseParam(UnparseParam(p)) == p
  {
    if p.value.Some? {
      Strings.IndexOfJoin(p.key, '=', p.value.value);
      assert p.key + "=" + p.value.value == p.key + ['='] + p.value.value;
    }
  }

  function ParseAll(tokens: seq<string>): (ps: seq<Param>)
    ensures |ps| == |tokens|
    ensures forall i :: 0 <= i < |tokens| ==> ps[i] == ParseParam(tokens[i])
  {
    seq(|tokens|, i requires 0 <= i < |tokens| => ParseParam(tokens[i]))
  }

  function UnparseAll(ps: seq<Param>): (tokens: seq<string>)
    ensures |tokens| == |ps|
    ensures forall i :: 0 <= i < |ps| ==> tokens[i] == UnparseParam(ps[i])
  {
    seq(|ps|, i requires 0 <= i < |ps| => UnparseParam(ps[i]))
  }

  /** The query string that lists the parameters in order. */
  function QueryString(ps: seq<Param>): string
  {
    Strings.Join(UnparseAll(ps), '&')
  }

  /** The parameters of a query line, in the order written; an empty line has none. */
  function ParseQueryLine(line: string): (ps: seq<Param>)
    ensures line == "" <==> ps == []
    ensures line != "" ==> QueryString(ps) == line
    ensures forall i :: 0 <= i < |ps| ==> '=' !in ps[i].key && '&' !in UnparseParam(ps[i])
  {
    if line == "" then []
    else
      var tokens := Strings.Split(line, '&');
      var ps := ParseAll(tokens);
      assert UnparseAll(ps) == tokens;
      ps
  }

  /** A parameter that can be written unambiguously inside a query line. */
  predicate Writable(p: Param)
  {
    '=' !in p.key && '&' !in p.key && (p.value.Some? ==> '&' !in p.value.value)
  }

  /** Parsing inverts writing for a non-empty line of writable parameters. */
  lemma {:induction false} ParseQueryString(ps: seq<Param>)
    requires ps != []
    requires forall i :: 0 <= i < |ps| ==> Writable(ps[i])
    requires QueryString(ps) != ""
    ensures ParseQueryLine(QueryString(ps)) == ps
  {
    var tokens := UnparseAll(ps);
    forall i | 0 <= i < |tokens| ensures '&' !in tokens[i] {
      if ps[i].value.Some? {
        assert tokens[i] == ps[i].key + ['='] + ps[i].value.value;
      }
    }
    Strings.SplitJoin(tokens, '&');
    var parsed := ParseQueryLine(QueryString(ps));
    forall i | 0 <= i < |ps| ensures parsed[i] == ps[i] {
      UnparseParse(ps[i]);
    }
  }

  /** The values the parameters give `key`, in order. */
  function ValuesFor(ps: seq<Param>, key: string): seq<Option<string>>
  {
    if ps == [] then []
    else (if ps[0].key == key then [ps[0].value] else []) + ValuesFor(ps[1..], key)
  }

  /** The keys `ks` followed by each key of the parameters the first time it is seen. */
  function KeysSeen(ks: seq<string>, ps: seq<Param>): seq<string>
    decreases |ps|
  {
    if ps == [] then ks
    else KeysSeen(if ps[0].key in ks then ks else ks + [ps[0].key], ps[1..])
  }

  /** Adds the parameters to the queries one by one: a repeated key accumulates values. */
  function Merge(queries: QueryMap, ps: seq<Param>): (r: QueryMap)
    ensures Multimap.Keys(r) == KeysSeen(Multimap.Keys(queries), ps)
    ensures Multimap.Distinct(queries) ==> Multimap.Distinct(r)
    decreases |ps|
  {
    if ps == [] then queries
    else
      var next := Multimap.Add(queries, ps[0].key, ps[0].value);
      Merge(next, ps[1..])
  }

  /** After a merge, each key holds its old values followed by the ones the parameters give it. */
  lemma {:induction false} MergeValues(queries: QueryMap, ps: seq<Param>, key: string)
    ensures Multimap.ValuesOf(Merge(queries, ps), key) == Multimap.ValuesOf(queries, key) + ValuesFor(ps, key)
    decreases |ps|
  {
    if ps != [] {
      var next := Multimap.Add(queries, ps[0].key, ps[0].value);
      var own := if ps[0].key == key then [ps[0].value] else [];
      assert Merge(queries, ps) == Merge(next, ps[1..]);
      assert ValuesFor(ps, key) == own + ValuesFor(ps[1..], key);
      MergeValues(next, ps[1..], key);
      if ps[0].key != key {
        assert Multimap.Get(next, key) == Multimap.Get(queries, key);
      }
      assert Multimap.ValuesOf(next, key) == Multimap.ValuesOf(queries, key) + own;
      Sequences.AppendAssociates(Multimap.ValuesOf(queries, key), own, ValuesFor(ps[1..], key));
    }
  }

  /** One entry per parameter, holding just its value. */
  function Singletons(ps: seq<Param>): (r: QueryMap)
    ensures |r| == |ps|
    ensures forall i :: 0 <= i < |ps| ==> r[i] == Multimap.Entry(ps[i].key, [ps[i].value])
  {
    if ps == [] then [] else [Multimap.Entry(ps[0].key, [ps[0].value])] + Singletons(ps[1..])
  }

  /** Parameters whose keys are distinct and new are appended to the queries in the order written. */
  lemma {:induction false} MergeNewKeys(queries: QueryMap, ps: seq<Param>)
    requires forall i :: 0 <= i < |ps| ==> ps[i].key !in Multimap.Keys(queries)
    requires forall i, j :: 0 <= i < j < |ps| ==> ps[i].key != ps[j].key
    ensures Merge(queries, ps) == queries + Singletons(ps)
    decreases |ps|
  {
    if ps != [] {
      var e := Multimap.Entry(ps[0].key, [ps[0].value]);
      var rest := ps[1..];
      var next := queries + [e];
      Multimap.AddNewKey(queries, ps[0].key, ps[0].value);
      assert Merge(queries, ps) == Merge(next, rest);
      assert Multimap.Keys(next) == Multimap.Keys(queries) + [ps[0].key];
      forall i | 0 <= i < |rest| ensures rest[i].key !in Multimap.Keys(next) {
        assert rest[i] == ps[i + 1];
      }
      forall i, j | 0 <= i < j < |rest| ensures rest[i].key != rest[j].key {
        assert rest[i] == ps[i + 1] && rest[j] == ps[j + 1];
      }
      MergeNewKeys(next, rest);
      assert Singletons(ps) == [e] + Singletons(rest);
      Sequences.AppendRegroups(queries, e, Singletons(rest));
    }
  }
}
