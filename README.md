# feign JAX-RS contract, modelled in Dafny

This project models the JAX-RS contract of feign (`JAXRSContract`). The
contract reads the JAX-RS annotations of one interface method and writes them,
step by step, into that method's metadata:

- the HTTP verb;
- the url;
- the ordered header and query maps of the request template;
- the ordered list of form parameters;
- the map from parameter index to the names bound there.

The model has two layers.

- `JaxRsRules` states each step as a function on a value `Meta`, the contents
  of the metadata. A step returns the new contents, or the error its
  `checkState` guard raises.
- `JaxRsContract` holds the steps as methods. They update a `MethodMetadata`
  object and its `RequestTemplate` in place. Each method is proved to leave
  exactly the contents the matching function gives. The single-annotation
  steps leave everything unchanged when they fail. The loop over a
  parameter's annotations keeps what the annotations before the failing one
  wrote, as the source's loop does. `ParseAndValidateMetadata` promises
  nothing about the metadata after a failure, only the error it returns.

The properties the contract promises are lemmas about the functions:

- `JaxRsProperties` holds them over whole annotation lists.
- `JaxRsTestCases` holds them over the interfaces of the unit tests.

The annotations form a closed datatype (`Annotations.Annotation`). The
interface and method names that reflection would supply are plain strings.
An error carries what its message names: the type or method name, or the
parameter index.

Request template behaviour that the contract relies on is given the least
semantics its callers and tests need:

- `Multimap` is an insertion-ordered map from a name to a list of values. `put`
  replaces the values of a key in place, or adds the key at the end.
- `RequestTemplate.Append` joins a fragment onto the url. A query line after
  the first `?` moves into the queries, where a repeated key collects its
  values in order and a bare key gets an absent value.
- `QueryLine` parses such a query line. It also proves that parsing inverts
  writing.
- `addTemplatedParam` appends the placeholder `{name}`, or starts a new list
  with it. `nameParam` appends the name under the parameter index.

## Model

| member | source | states |
|---|---|---|
| Metadata.MethodMetadata.constructor | jaxrs/src/test/java/feign/jaxrs/JAXRSContractTest.java:62 | fresh metadata has no verb, an empty url, no headers, queries, form parameters or bound names |
| RequestTemplates.RequestTemplate.constructor | jaxrs/src/test/java/feign/jaxrs/JAXRSContractTest.java:62 | a fresh template has no verb, an empty url, no headers and no queries |
| RequestTemplates.RequestTemplate.SetMethod | jaxrs/src/main/java/feign/jaxrs/JAXRSContract.java:64 | sets the verb; url, headers and queries are unchanged |
| RequestTemplates.AppendToUrl | jaxrs/src/main/java/feign/jaxrs/JAXRSContract.java:120 | the url that results never holds a `?`; a fragment without `?` is plain concatenation with the queries unchanged; distinct query names stay distinct |
| RequestTemplates.AppendSplitsQuery | jaxrs/src/test/java/feign/jaxrs/JAXRSContractTest.java:92-136 | `path?query` on a url without a query extends the url by `path` alone and merges the parsed query into the queries |
| RequestTemplates.RequestTemplate.Append | jaxrs/src/main/java/feign/jaxrs/JAXRSContract.java:120 | the url and queries become what `AppendToUrl` gives; the verb and headers are unchanged; the template stays valid |
| RequestTemplates.RequestTemplate.Header | jaxrs/src/main/java/feign/jaxrs/JAXRSContract.java:126-132 | the header's values are replaced as `put` does; the verb, url and queries are unchanged |
| RequestTemplates.RequestTemplate.Query | jaxrs/src/main/java/feign/jaxrs/JAXRSContract.java:86-87 | the query's values are replaced as `put` does; the verb, url and headers are unchanged |
| Multimap.Find | jaxrs/src/main/java/feign/jaxrs/JAXRSContract.java:86 | no position exactly when the key is absent; otherwise the first position holding the key |
| Multimap.Get | jaxrs/src/main/java/feign/jaxrs/JAXRSContract.java:86 | `get` is null exactly when the name is absent |
| Multimap.Put | jaxrs/src/main/java/feign/jaxrs/JAXRSContract.java:87 | afterwards the key holds exactly the new values; every other key holds what it held; a new key goes last and an existing key keeps its place |
| Multimap.PutDistinct | jaxrs/src/main/java/feign/jaxrs/JAXRSContract.java:95 | `put` never makes a name appear twice |
| Multimap.Add | jaxrs/src/main/java/feign/jaxrs/JAXRSContract.java:86-88 | the key's values grow by the one value at the end; every other key is unchanged; distinct keys stay distinct |
| Multimap.PutNewKey | jaxrs/src/test/java/feign/jaxrs/JAXRSContractTest.java:288-293 | `put` of an absent key appends one entry at the end |
| Multimap.AddNewKey | jaxrs/src/test/java/feign/jaxrs/JAXRSContractTest.java:288-293 | adding to an absent key appends one entry holding that value alone |
| Strings.IndexOf | jaxrs/src/test/java/feign/jaxrs/JAXRSContractTest.java:92-136 | the first position of the character, or none when it does not occur |
| Strings.Split | jaxrs/src/test/java/feign/jaxrs/JAXRSContractTest.java:92-136 | joining the pieces with the separator gives the string back |
| Strings.SplitJoin | jaxrs/src/test/java/feign/jaxrs/JAXRSContractTest.java:92-136 | splitting a join of pieces that do not hold the separator gives the pieces back |
| Strings.StartsWith | jaxrs/src/main/java/feign/jaxrs/JAXRSContract.java:117 | `startsWith` holds exactly when the value is a prefix of the string |
| Strings.EndsWith | jaxrs/src/main/java/feign/jaxrs/JAXRSContract.java:117 | `endsWith` holds exactly when the string's last characters are the suffix's, one by one |
| QueryLine.ParseParam | jaxrs/src/test/java/feign/jaxrs/JAXRSContractTest.java:126-135 | a token is cut at its first `=`; the key holds no `=`; writing the parameter gives the token back; a token without `=` is a key with no value |
| QueryLine.UnparseParse | jaxrs/src/test/java/feign/jaxrs/JAXRSContractTest.java:126-135 | parsing a written parameter whose key holds no `=` gives it back |
| QueryLine.ParseQueryLine | jaxrs/src/test/java/feign/jaxrs/JAXRSContractTest.java:92-136 | an empty line has no parameters; a non-empty one is written back exactly by its parameters |
| QueryLine.ParseQueryString | jaxrs/src/test/java/feign/jaxrs/JAXRSContractTest.java:92-136 | parsing inverts writing for writable parameters |
| QueryLine.Merge | jaxrs/src/test/java/feign/jaxrs/JAXRSContractTest.java:92-136 | the keys become the old keys followed by each new key the first time it is seen; distinct keys stay distinct |
| QueryLine.MergeValues | jaxrs/src/test/java/feign/jaxrs/JAXRSContractTest.java:92-136 | every key holds its old values followed by the values the parameters give it, in order |
| QueryLine.MergeNewKeys | jaxrs/src/test/java/feign/jaxrs/JAXRSContractTest.java:92-136 | parameters with distinct new keys become one entry each, appended in the order written |
| QueryLine.Singletons | jaxrs/src/test/java/feign/jaxrs/JAXRSContractTest.java:92-136 | one entry per parameter, holding only its value |
| JaxRsRules.JoinPath | jaxrs/src/main/java/feign/jaxrs/JAXRSContract.java:116-120 | the url is kept as a prefix and the value as a suffix; exactly one `/` comes between them when neither side has one, and nothing otherwise |
| JaxRsRules.EmptyToNone | jaxrs/src/main/java/feign/jaxrs/JAXRSContract.java:78-129 | `emptyToNull` of an annotation value is null exactly when the value is empty, and is the value itself otherwise; there is no trimming |
| JaxRsRules.PathStep | jaxrs/src/main/java/feign/jaxrs/JAXRSContract.java:113-120 | an empty value fails naming the annotated type or method, and nothing else fails; on success only the url and queries change, as `append` of the slashed value; without `?` the url becomes the join |
| JaxRsRules.FirstValueToHeader | jaxrs/src/main/java/feign/jaxrs/JAXRSContract.java:121-132 | fails exactly when there is no value or the first is empty; otherwise the header holds just the first value and nothing else changes |
| JaxRsRules.OnInterfaceOrMethod | jaxrs/src/main/java/feign/jaxrs/JAXRSContract.java:110-134 | Path, Produces and Consumes are their steps; any other annotation changes nothing; the verb, form parameters and names are never touched |
| JaxRsRules.OnInterface | jaxrs/src/main/java/feign/jaxrs/JAXRSContract.java:47-51 | an empty Path fails naming the interface; verbs, parameter annotations and others change nothing; the verb is kept |
| JaxRsRules.OnMethod | jaxrs/src/main/java/feign/jaxrs/JAXRSContract.java:54-68 | a verb succeeds exactly when no verb is set, and then sets it and nothing else; otherwise it fails naming the method, the verb found and the new one; other annotations are the shared step |
| JaxRsRules.TemplatedParam | jaxrs/src/main/java/feign/jaxrs/JAXRSContract.java:86-87 | `put(name, addTemplatedParam(get(name), placeholder))` adds the placeholder to that name's values |
| JaxRsRules.AddTemplatedParam | jaxrs/src/main/java/feign/jaxrs/JAXRSContract.java:86-94 | `addTemplatedParam` ends with the placeholder, after the existing values, or after nothing when there were none |
| JaxRsRules.OnParam | jaxrs/src/main/java/feign/jaxrs/JAXRSContract.java:76-105 | a binding annotation fails exactly when its name is empty, with the error naming the parameter index; otherwise it records the name under the index, adds `{name}` to the query or header, or appends the form name; other annotations change nothing |
| JaxRsRules.OnParams | jaxrs/src/main/java/feign/jaxrs/JAXRSContract.java:71-108 | a parameter's annotations never change the verb or url and keep the metadata well formed |
| JaxRsRules.OnInterfaceAll | jaxrs/src/test/java/feign/jaxrs/JAXRSContractTest.java:231-233 | the interface's annotations in order, under the assumed orchestration, stopping at the first failure: a successful run keeps the verb, the form parameters and the bound names, and keeps the metadata well formed |
| JaxRsRules.OnMethodAll | jaxrs/src/main/java/feign/jaxrs/JAXRSContract.java:55-68 | the method's annotations in order, under the assumed orchestration, stopping at the first failure: a successful run keeps the form parameters and the bound names, and keeps the metadata well formed; its effect on the verb is the `JaxRsProperties` verb lemmas |
| JaxRsRules.OnEachParam | jaxrs/src/main/java/feign/jaxrs/JAXRSContract.java:71-108 | each parameter's annotations in turn, under the assumed orchestration, at indices counting up from the first, stopping at the first failure: a successful run keeps the verb and keeps the metadata well formed |
| JaxRsRules.ParseMethod | jaxrs/src/test/java/feign/jaxrs/JAXRSContractTest.java:60-81 | a method that parses has a verb and well-formed metadata: a url without `?` and maps without repeated keys |
| JaxRsContract.ProcessAnnotationOnInterface | jaxrs/src/main/java/feign/jaxrs/JAXRSContract.java:47-51 | the metadata becomes what `OnInterface` gives; on failure it is unchanged and the error is returned |
| JaxRsContract.ProcessAnnotationOnMethod | jaxrs/src/main/java/feign/jaxrs/JAXRSContract.java:54-68 | the metadata becomes what `OnMethod` gives; on failure it is unchanged and the error is returned |
| JaxRsContract.ProcessAnnotationOnInterfaceOrMethod | jaxrs/src/main/java/feign/jaxrs/JAXRSContract.java:110-134 | the metadata becomes what `OnInterfaceOrMethod` gives; on failure it is unchanged and the error is returned |
| JaxRsContract.NameParam | jaxrs/src/main/java/feign/jaxrs/JAXRSContract.java:80 | the name is added under the parameter index; form parameters are unchanged |
| JaxRsContract.ProcessAnnotationOnParameter | jaxrs/src/main/java/feign/jaxrs/JAXRSContract.java:75-105 | one annotation of the loop updates the metadata as `OnParam` says and reports whether it binds; on failure the metadata is unchanged |
| JaxRsContract.ProcessAnnotationsOnParameter | jaxrs/src/main/java/feign/jaxrs/JAXRSContract.java:71-108 | the metadata becomes what `OnParams` gives; the result is true exactly when some annotation binds; it fails exactly when some binding annotation has an empty name |
| JaxRsContract.ParseAndValidateMetadata | jaxrs/src/test/java/feign/jaxrs/JAXRSContractTest.java:228-239 | fresh metadata with the interface's, the method's and each parameter's annotations applied in that order, failing after the method's annotations when they set no verb, ends exactly as `ParseMethod` says; the first failure is returned |
| JaxRsProperties.VerbAlreadySetFails | jaxrs/src/main/java/feign/jaxrs/JAXRSContract.java:59-63 | once a verb is set, any later verb annotation makes the method fail |
| JaxRsProperties.SecondVerbFails | jaxrs/src/main/java/feign/jaxrs/JAXRSContract.java:59-63 | any two verb annotations on one method make it fail |
| JaxRsProperties.DeclaredVerbIsSet | jaxrs/src/main/java/feign/jaxrs/JAXRSContract.java:59-64 | a method that parses had no verb before and ends with the verb it declares |
| JaxRsProperties.NoVerbKeepsMethod | jaxrs/src/main/java/feign/jaxrs/JAXRSContract.java:57-67 | only a verb annotation sets the verb; a verb already set survives a successful run |
| JaxRsProperties.MethodWithoutVerbFails | jaxrs/src/test/java/feign/jaxrs/JAXRSContractTest.java:60-81 | a method none of whose annotations is a verb never parses; when its annotations are otherwise accepted, it fails naming the method for the missing verb |
| JaxRsProperties.PathWithQuery | jaxrs/src/main/java/feign/jaxrs/JAXRSContract.java:114-120 | `@Path("path?query")` joins `path` onto the url and merges the query's parameters into the queries, also when `path` is empty |
| JaxRsProperties.SlashedQuery | jaxrs/src/main/java/feign/jaxrs/JAXRSContract.java:117-119 | whether a slash is inserted depends only on the part before the `?` |
| JaxRsProperties.SomeAnnotation | jaxrs/src/main/java/feign/jaxrs/JAXRSContract.java:74 | some annotation of a list satisfies a property exactly when the first does or one of the rest does |
| JaxRsProperties.OnParamsBinds | jaxrs/src/main/java/feign/jaxrs/JAXRSContract.java:73-107 | a parameter that succeeds reports true exactly when one of its annotations is a binding one |
| JaxRsProperties.OnParamsFails | jaxrs/src/main/java/feign/jaxrs/JAXRSContract.java:76-105 | a parameter fails exactly when one of its binding annotations has an empty name |
| JaxRsProperties.OnParamsNames | jaxrs/src/main/java/feign/jaxrs/JAXRSContract.java:80-103 | the names under the index grow by the bound names, in annotation order |
| JaxRsProperties.OnParamsFormNames | jaxrs/src/main/java/feign/jaxrs/JAXRSContract.java:102 | the form parameters grow by the form names, in order |
| JaxRsProperties.OnParamsQueries | jaxrs/src/main/java/feign/jaxrs/JAXRSContract.java:86-88 | each `@QueryParam(key)` adds one `{key}` to that query, and no other query changes |
| JaxRsProperties.OnParamsHeaders | jaxrs/src/main/java/feign/jaxrs/JAXRSContract.java:94-96 | each `@HeaderParam(key)` adds one `{key}` to that header, and no other header changes |
| JaxRsProperties.OnParamsOtherIndices | jaxrs/src/main/java/feign/jaxrs/JAXRSContract.java:80-103 | a parameter never touches the names of another index |
| JaxRsProperties.OnParamsStopsAtFirstEmpty | jaxrs/src/main/java/feign/jaxrs/JAXRSContract.java:74-106 | the first binding annotation with an empty name fails naming the index; the metadata is as the annotations before it left it |
| JaxRsTestCases.HttpMethods | jaxrs/src/test/java/feign/jaxrs/JAXRSContractTest.java:60-90 | any single verb annotation, custom verbs included, is the method's verb, and the url stays empty |
| JaxRsTestCases.TwoPaths | jaxrs/src/test/java/feign/jaxrs/JAXRSContractTest.java:241-248 | an interface path and a method path are joined in that order |
| JaxRsTestCases.InterfacePath | jaxrs/src/main/java/feign/jaxrs/JAXRSContract.java:113-120 | one interface Path joins onto the url |
| JaxRsTestCases.MethodPath | jaxrs/src/main/java/feign/jaxrs/JAXRSContract.java:113-120 | one method Path joins onto the url |
| JaxRsTestCases.JoinStaysQueryFree | jaxrs/src/main/java/feign/jaxrs/JAXRSContract.java:116-120 | joining paths without `?` gives a path without `?` |
| JaxRsTestCases.JoinInsertsSlash | jaxrs/src/main/java/feign/jaxrs/JAXRSContract.java:117-118 | a slash is inserted when neither side has one |
| JaxRsTestCases.JoinKeepsLeadingSlash | jaxrs/src/main/java/feign/jaxrs/JAXRSContract.java:117-120 | a value with a leading slash is appended unchanged, also onto a url that ends with `/` |
| JaxRsTestCases.SlashPlacementDoesNotMatter | jaxrs/src/test/java/feign/jaxrs/JAXRSContractTest.java:368-397 | `base`+`specific`, `/base`+`specific`, `base`+`/specific` and `/base`+`/specific` all give `/base/specific` |
| JaxRsTestCases.ProducesTests | jaxrs/src/test/java/feign/jaxrs/JAXRSContractTest.java:138-166 | `@Produces(type)` gives `Accept: type`; `@Produces({})` and `@Produces({""})` fail naming the method |
| JaxRsTestCases.ConsumesTests | jaxrs/src/test/java/feign/jaxrs/JAXRSContractTest.java:168-196 | `@Consumes(type)` gives `Content-Type: type`; `@Consumes({})` and `@Consumes({""})` fail naming the method |
| JaxRsTestCases.EmptyPathOnType | jaxrs/src/test/java/feign/jaxrs/JAXRSContractTest.java:220-226 | an empty interface Path fails naming the interface |
| JaxRsTestCases.EmptyPathOnMethod | jaxrs/src/test/java/feign/jaxrs/JAXRSContractTest.java:250-256 | an empty method Path fails naming the method |
| JaxRsTestCases.PathParamBinds | jaxrs/src/main/java/feign/jaxrs/JAXRSContract.java:76-81 | `@PathParam(name)` at a new index only appends the name under it, and binds |
| JaxRsTestCases.QueryParamBinds | jaxrs/src/main/java/feign/jaxrs/JAXRSContract.java:82-89 | `@QueryParam(name)` for a new name appends the query `name={name}` and the name under the index |
| JaxRsTestCases.HeaderParamBinds | jaxrs/src/main/java/feign/jaxrs/JAXRSContract.java:90-97 | `@HeaderParam(name)` for a new name appends the header `name: {name}` and the name under the index |
| JaxRsTestCases.FormParamBinds | jaxrs/src/main/java/feign/jaxrs/JAXRSContract.java:98-104 | `@FormParam(name)` appends the form name and the name under the index |
| JaxRsTestCases.FormParamsBindInOrder | jaxrs/src/test/java/feign/jaxrs/JAXRSContractTest.java:306-321 | any number of form parameters append their names, and their index entries, in parameter order |
| JaxRsTestCases.QueryParamsBindInOrder | jaxrs/src/test/java/feign/jaxrs/JAXRSContractTest.java:282-294 | any number of query parameters with distinct new names append their placeholders, and their index entries, in parameter order |
| JaxRsTestCases.FormParamsTest | jaxrs/src/test/java/feign/jaxrs/JAXRSContractTest.java:306-321 | `login(a, b, c)` gives the form parameters `a, b, c` and one name at each of three indices |
| JaxRsTestCases.HeaderParamTest | jaxrs/src/test/java/feign/jaxrs/JAXRSContractTest.java:345-356 | `logout(h)` gives the header `h: {h}` and binds `h` at its index |
| JaxRsTestCases.PathAndQueryParamsTest | jaxrs/src/test/java/feign/jaxrs/JAXRSContractTest.java:282-294 | a path parameter then query parameters: the queries get their placeholders in order and every name is bound at its index |
| JaxRsTestCases.UnannotatedParamSkipsIndex | jaxrs/src/test/java/feign/jaxrs/JAXRSContractTest.java:268-280 | an unannotated parameter between two path parameters binds nothing, so its index is skipped |
| JaxRsTestCases.EmptyParamNameTests | jaxrs/src/test/java/feign/jaxrs/JAXRSContractTest.java:258-266 | each binding annotation with an empty name on parameter 0 fails naming index 0 |
| JaxRsTestCases.QueryParamsInPathExtract | jaxrs/src/test/java/feign/jaxrs/JAXRSContractTest.java:92-136 | `@GET @Path("path?query")` gives the path joined onto the empty url as the url, and one query entry per written parameter, in order |
| JaxRsTestCases.PathQueryExtracts | jaxrs/src/test/java/feign/jaxrs/JAXRSContractTest.java:92-136 | a Path with a query line on a template without one moves the line's parameters into the queries |
| JaxRsTestCases.RootJoin | jaxrs/src/test/java/feign/jaxrs/JAXRSContractTest.java:92-97 | `@Path("/")` on an empty url gives `/` |
| JaxRsTestCases.FlagAndPairsLine | jaxrs/src/test/java/feign/jaxrs/JAXRSContractTest.java:126-135 | the line `flag&k1=v1&k2=v2` is the one its three parameters write |
| JaxRsTestCases.QueryParamsInPathWithFlag | jaxrs/src/test/java/feign/jaxrs/JAXRSContractTest.java:126-135 | `/?flag&k1=v1&k2=v2` gives the url `/`, the bare flag with an absent value, then the two pairs |

## Left out

- Reflection is not modelled. `annotationType()`, `getAnnotation(HttpMethod.class)`, `iface.getName()` and `method.getName()` become the closed `Annotation` datatype and plain names. Any annotation other than the eight recognised kinds is `Other`.
- The orchestration of `Contract.BaseContract` is not part of this model. `JaxRsRules.ParseMethod` and `JaxRsContract.ParseAndValidateMetadata` assume it: the interface's annotations, then the method's, a failure `MissingHttpMethod` when no verb was set, then each parameter's, stopping at the first failure.
- Body parameters, `bodyIndex`, `bodyType`, `urlIndex` for `URI` parameters and the "too many Body" check are left out. Their source is not part of this model.
- `Contract.Default` (`@RequestLine`, `@Headers`, `@Body`, `Param.Expander`) and its tests in `core/src/test/java/feign/DefaultContractTest.java` are not part of this model.
- `RequestTemplate` internals beyond `method`, `append`, `header` and `query` are not modelled: url template expansion, encoding, and the body.
- The error message text built by `checkState` and `String.format` is not modelled. An error carries only the name or index the message identifies.
- `JaxRsRules.EmptyToNone` models `Util.emptyToNull` without trimming: only the empty string counts as missing, so a blank name such as `" "` is accepted.
- No slash is ever removed when a Path value is joined (`JaxRsRules.JoinPath`): a url ending in `/` joined with a value starting with `/` keeps both, so `/` joined with `/x` gives `//x` (`JoinKeepsLeadingSlash`).
- Concurrency and aliasing between metadata objects are not modelled. Each step gets one `MethodMetadata` that owns its template.
