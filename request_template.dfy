/**
 * The request template a method's annotations are written into: the HTTP
 * verb, the url, and the ordered header and query maps.
 */
module RequestTemplates {
  import opened Wrappers
  import Strings
  import Multimap
  import opened QueryLine

  /**
   * What `append` leaves in the url and the queries: the fragment is added to
   * the url, and whatever follows the first `?` is cut off and its parameters
   * merged into the queries.
   */
  function AppendToUrl(url: string, queries: QueryMap, fragment: string): (r: (string, QueryMap))
    ensures '?' !in r.0
    ensures '?' !in url + fragment ==> r == (url + fragment, queries)
    ensures Multimap.Distinct(queries) ==> Multimap.Distinct(r.1)
  {
    var full := url + fragment;
    match Strings.IndexOf(full, '?')
    case None => (full, queries)
    case Some(i) => (full[..i], Merge(queries, ParseQueryLine(full[i + 1..])))
  }

  /** A fragment `path?query` on a url without a query extends the url by `path` and the queries by those of `query`. */
  lemma AppendSplitsQuery(url: string, queries: QueryMap, path: string, query: string)
    requires '?' !in url && '?' !in path
    ensures AppendToUrl(url, queries, path + "?" + query) == (url + path, Merge(queries, ParseQueryLine(query)))
  {
    var full := url + (path + "?" + query);
    assert full == (url + path) + ['?'] + query;
    assert '?' !in url + path;
    Strings.IndexOfJoin(url + path, '?', query);
    assert full[..|url + path|] == url + path;
    assert full[|url + path| + 1..] == query;
  }

  class RequestTemplate {
    var httpMethod: Option<string>
    var url: string
    var headers: Multimap.Multimap<string, string>
    var queries: QueryMap

    /** The url never holds a query string, and no header or query name appears twice. */
    ghost predicate Valid()
      reads this
    {
      '?' !in url && Multimap.Distinct(headers) && Multimap.Distinct(queries)
    }

    /** A fresh template: no verb, an empty url, no headers, no queries. */
    constructor ()
      ensures Valid()
      ensures httpMethod == None && url == "" && headers == [] && queries == []
    {
      httpMethod := None;
      url := "";
      headers := [];
      queries := [];
    }

    /** `method(String)`: sets the HTTP verb. */
    method SetMethod(verb: string)
      requires Valid()
      modifies this
      ensures Valid()
      ensures httpMethod == Some(verb)
      ensures url == old(url) && headers == old(headers) && queries == old(queries)
    {
      httpMethod := Some(verb);
    }

    /** `append(CharSequence)`: extends the url, moving a query string into the queries. */
    method Append(fragment: string)
      requires Valid()
      modifies this
      ensures Valid()
      ensures (url, queries) == AppendToUrl(old(url), old(queries), fragment)
      ensures httpMethod == old(httpMethod) && headers == old(headers)
    {
      var r := AppendToUrl(url, queries, fragment);
      url := r.0;
      queries := r.1;
    }

    /** `header(String, Iterable)`: replaces the values of one header. */
    method Header(name: string, values: seq<string>)
      requires Valid()
      modifies this
      ensures Valid()
      ensures headers == Multimap.Put(old(headers), name, values)
      ensures httpMethod == old(httpMethod) && url == old(url) && queries == old(queries)
    {
      Multimap.PutDistinct(headers, name, values);
      headers := Multimap.Put(headers, name, values);
    }

    /** `query(String, Iterable)`: replaces the values of one query parameter. */
    method Query(name: string, values: seq<Option<string>>)
      requires Valid()
      modifies this
      ensures Valid()
      ensures queries == Multimap.Put(old(queries), name, values)
      ensures httpMethod == old(httpMethod) && url == old(url) && headers == old(headers)
    {
      Multimap.PutDistinct(queries, name, values);
      queries := Multimap.Put(queries, name, values);
    }
  }
}
