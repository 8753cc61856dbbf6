/**
 * The shape of an HTTP exchange as both the web front end and the common
 * client see it: the request they build and the status classification they
 * branch on. The wire transport itself is not modelled.
 */
module Http {
  import opened Monads

  /** A response or request body, as raw bytes. */
  type Body = seq<bv8>

  datatype HttpMethod = Get | Post

  /** An `Authorization` header: a scheme and its credentials. */
  datatype AuthenticationHeader = AuthenticationHeader(scheme: string, parameter: string)

  /**
   * A request message: its method (verb), target, an optional JSON content (the
   * serialized text) and an optional `Authorization` header.
   */
  datatype Request = Request(
    verb: HttpMethod,
    uri: string,
    content: Maybe<string>,
    authorization: Maybe<AuthenticationHeader>)

  const OK: int := 200
  const Unauthorized: int := 401
  const ServiceUnavailable: int := 503

  /** `HttpResponseMessage.IsSuccessStatusCode`: a status in the 2xx range. */
  predicate IsSuccessStatusCode(status: int) {
    200 <= status <= 299
  }

  /** `new HttpRequestMessage(verb, uri)`: no content, no headers. */
  function PlainRequest(verb: HttpMethod, uri: string): (r: Request) {
    Request(verb, uri, None, None)
  }

  /** A request whose content is the JSON text `json` (`JsonContent.Create`). */
  function JsonRequest(verb: HttpMethod, uri: string, json: string): (r: Request) {
    Request(verb, uri, Some(json), None)
  }
}
