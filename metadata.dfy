/** The per-method record the contract fills in. */
module Metadata {
  import opened Wrappers
  import Multimap
  import opened QueryLine
  import opened RequestTemplates

  /** The parts of a method's metadata the contract reads and writes, as one value. */
  datatype Meta = Meta(
    httpMethod: Option<string>,
    url: string,
    headers: Multimap.Multimap<string, string>,
    queries: QueryMap,
    formParams: seq<string>,
    indexToName: Multimap.Multimap<nat, string>)

  /** The metadata of a method before any annotation is processed. */
  const Empty: Meta := Meta(None, "", [], [], [], [])

  /** The url holds no query string and no map repeats a key. */
  ghost predicate WellFormed(m: Meta)
  {
    '?' !in m.url
    && Multimap.Distinct(m.headers)
    && Multimap.Distinct(m.queries)
    && Multimap.Distinct(m.indexToName)
  }

  class MethodMetadata {
    const template: RequestTemplate
    var formParams: seq<string>
    var indexToName: Multimap.Multimap<nat, string>

    /** The current contents as a value. */
    function Snapshot(): Meta
      reads this, template
    {
      Meta(template.httpMethod, template.url, template.headers, template.queries, formParams, indexToName)
    }

    ghost predicate Valid()
      reads this, template
    {
      template.Valid() && WellFormed(Snapshot())
    }

    constructor ()
      ensures Valid() && fresh(template)
      ensures Snapshot() == Empty
    {
      template := new RequestTemplate();
      formParams := [];
      indexToName := [];
    }
  }
}
