/**
 * The JAX-RS annotations the contract recognises, as already read off an
 * interface, a method or a parameter, and the failures it reports.
 */
module Annotations {

  datatype Annotation =
    | Verb(httpMethod: string)        // any annotation meta-annotated `@HttpMethod(value)`: GET, POST, a custom PATCH
    | Path(value: string)
    | Produces(values: seq<string>)
    | Consumes(values: seq<string>)
    | PathParam(name: string)
    | QueryParam(name: string)
    | HeaderParam(name: string)
    | FormParam(name: string)
    | Other                           // any annotation the contract does not act on
  {
    /** One of the four annotations that bind a parameter to part of the request. */
    predicate IsHttpParam()
    {
      PathParam? || QueryParam? || HeaderParam? || FormParam?
    }
  }

  /**
   * The `checkState` failures, each carrying what its message names: the
   * annotated type or method, or the parameter index. `MissingHttpMethod` is
   * raised by the base contract's driver, the others by this contract.
   */
  datatype Error =
    | MultipleHttpMethods(methodName: string, found: string, other: string)
    | MissingHttpMethod(methodName: string)
    | EmptyPath(annotatedName: string)
    | EmptyProduces(annotatedName: string)
    | EmptyConsumes(annotatedName: string)
    | EmptyPathParam(paramIndex: nat)
    | EmptyQueryParam(paramIndex: nat)
    | EmptyHeaderParam(paramIndex: nat)
    | EmptyFormParam(paramIndex: nat)
}
