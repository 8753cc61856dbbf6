/**
 * `CrypterHttpClient`: every call sends one request through the transport
 * and maps the response into the result algebra, branching only on whether
 * the status is a success status. The transport (`HttpClient.SendAsync`)
 * is the parameter `send`; JSON deserialization of a success body and of an
 * error body are the parameters `parse` and `parseError`; JSON
 * serialization of a request body is the parameter `serialize`.
 */
module CrypterHttpClient {
  import opened Monads
  import opened Http

  /**
   * A response as the client sees it once headers are read: the status,
   * the body stream and the `Content-Length` header, if any.
   */
  datatype Response = Response(status: int, body: Body, contentLength: Maybe<nat>)

  /** The structured error the server sends with a non-success status. */
  datatype ErrorResponse = ErrorResponse(errorCode: int)

  /** A live download: the body stream and its declared length. */
  datatype StreamDownloadResponse = StreamDownloadResponse(stream: Body, streamSize: nat)

  /** Success gives the parsed body; any other status gives `None`, whatever the body. */
  ghost predicate MaybeMapping<T>(response: Response, parse: Body -> T, r: Maybe<T>) {
    (r.Some? <==> IsSuccessStatusCode(response.status)) &&
    (r.Some? ==> r.value == parse(response.body))
  }

  /** Success gives `Right` of the parsed body; any other status gives `Left` of the parsed error. */
  ghost predicate EitherMapping<T>(response: Response, parseError: Body -> ErrorResponse, parse: Body -> T,
                                   r: Either<ErrorResponse, T>) {
    (r.Right? <==> IsSuccessStatusCode(response.status)) &&
    (r.Right? ==> r.right == parse(response.body)) &&
    (r.Left? ==> r.left == parseError(response.body))
  }

  /** Success gives `Right(Unit)` (the body is not read); any other status gives `Left` of the parsed error. */
  ghost predicate EitherUnitMapping(response: Response, parseError: Body -> ErrorResponse,
                                    r: Either<ErrorResponse, Unit>) {
    (r == Right(Unit) <==> IsSuccessStatusCode(response.status)) &&
    (r.Left? ==> r.left == parseError(response.body))
  }

  /** `Some(Unit)` exactly on a success status. */
  ghost predicate MaybeUnitMapping(response: Response, r: Maybe<Unit>) {
    r == Some(Unit) <==> IsSuccessStatusCode(response.status)
  }

  /** The `Content-Length` header is required on a success response that is to be streamed. */
  predicate StreamableResponse(response: Response) {
    IsSuccessStatusCode(response.status) ==> response.contentLength.Some?
  }

  /** Success exposes the body stream with the declared length; any other status gives the parsed error. */
  ghost predicate StreamMapping(response: Response, parseError: Body -> ErrorResponse,
                                r: Either<ErrorResponse, StreamDownloadResponse>)
    requires StreamableResponse(response)
  {
    (r.Right? <==> IsSuccessStatusCode(response.status)) &&
    (r.Right? ==> r.right.stream == response.body && r.right.streamSize == response.contentLength.value) &&
    (r.Left? ==> r.left == parseError(response.body))
  }

  // ---------------------------------------------------------------------
  // The private helpers: one response in, one result out.
  // ---------------------------------------------------------------------

  function SendRequestMaybeResponse<T>(response: Response, parse: Body -> T): (r: Maybe<T>)
    ensures MaybeMapping(response, parse, r)
  {
    if !IsSuccessStatusCode(response.status) then None
    else Some(parse(response.body))
  }

  function SendRequestEitherResponse<T>(response: Response, parseError: Body -> ErrorResponse,
                                        parse: Body -> T): (r: Either<ErrorResponse, T>)
    ensures EitherMapping(response, parseError, parse, r)
  {
    if !IsSuccessStatusCode(response.status) then Left(parseError(response.body))
    else Right(parse(response.body))
  }

  function SendRequestEitherUnitResponse(response: Response, parseError: Body -> ErrorResponse)
    : (r: Either<ErrorResponse, Unit>)
    ensures EitherUnitMapping(response, parseError, r)
  {
    if IsSuccessStatusCode(response.status) then Right(Unit)
    else Left(parseError(response.body))
  }

  function GetStream(response: Response, parseError: Body -> ErrorResponse)
    : (r: Either<ErrorResponse, StreamDownloadResponse>)
    requires StreamableResponse(response)
    ensures StreamMapping(response, parseError, r)
  {
    if !IsSuccessStatusCode(response.status) then Left(parseError(response.body))
    else Right(StreamDownloadResponse(response.body, response.contentLength.value))
  }

  /** The inline branch shared by `PostMaybeUnitResponseAsync` and `DeleteUnitResponseAsync`. */
  function SuccessAsUnit(response: Response): (r: Maybe<Unit>)
    ensures MaybeUnitMapping(response, r)
  {
    if IsSuccessStatusCode(response.status) then Some(Unit) else None
  }

  // ---------------------------------------------------------------------
  // The public calls: which request is built, and which mapping applies.
  // ---------------------------------------------------------------------

  function GetMaybe<T>(send: Request -> Response, uri: string, parse: Body -> T): (r: Maybe<T>)
    ensures MaybeMapping(send(Request(Get, uri, None, None)), parse, r)
  {
    SendRequestMaybeResponse(send(PlainRequest(Get, uri)), parse)
  }

  function GetEither<T>(send: Request -> Response, uri: string, parseError: Body -> ErrorResponse,
                        parse: Body -> T): (r: Either<ErrorResponse, T>)
    ensures EitherMapping(send(Request(Get, uri, None, None)), parseError, parse, r)
  {
    SendRequestEitherResponse(send(PlainRequest(Get, uri)), parseError, parse)
  }

  function GetEitherUnitResponse(send: Request -> Response, uri: string, parseError: Body -> ErrorResponse)
    : (r: Either<ErrorResponse, Unit>)
    ensures EitherUnitMapping(send(Request(Get, uri, None, None)), parseError, r)
  {
    SendRequestEitherUnitResponse(send(PlainRequest(Get, uri)), parseError)
  }

  function GetStreamResponse(send: Request -> Response, uri: string, parseError: Body -> ErrorResponse)
    : (r: Either<ErrorResponse, StreamDownloadResponse>)
    requires StreamableResponse(send(Request(Get, uri, None, None)))
    ensures StreamMapping(send(Request(Get, uri, None, None)), parseError, r)
  {
    GetStream(send(PlainRequest(Get, uri)), parseError)
  }

  function PostEither<B, T>(send: Request -> Response, uri: string, body: B, serialize: B -> string,
                            parseError: Body -> ErrorResponse, parse: Body -> T): (r: Either<ErrorResponse, T>)
    ensures EitherMapping(send(Request(Post, uri, Some(serialize(body)), None)), parseError, parse, r)
  {
    SendRequestEitherResponse(send(JsonRequest(Post, uri, serialize(body))), parseError, parse)
  }

  function PostMaybeUnitResponse(send: Request -> Response, uri: string): (r: Maybe<Unit>)
    ensures MaybeUnitMapping(send(Request(Post, uri, None, None)), r)
  {
    SuccessAsUnit(send(PlainRequest(Post, uri)))
  }

  /** `PostEitherUnitResponseAsync(uri)`: a POST without content. */
  function PostEitherUnitResponse(send: Request -> Response, uri: string, parseError: Body -> ErrorResponse)
    : (r: Either<ErrorResponse, Unit>)
    ensures EitherUnitMapping(send(Request(Post, uri, None, None)), parseError, r)
  {
    SendRequestEitherUnitResponse(send(PlainRequest(Post, uri)), parseError)
  }

  /** `PostEitherUnitResponseAsync(uri, body)`: a POST carrying the JSON body. */
  function PostEitherUnitResponseWithBody<B>(send: Request -> Response, uri: string, body: B,
                                             serialize: B -> string, parseError: Body -> ErrorResponse)
    : (r: Either<ErrorResponse, Unit>)
    ensures EitherUnitMapping(send(Request(Post, uri, Some(serialize(body)), None)), parseError, r)
  {
    SendRequestEitherUnitResponse(send(JsonRequest(Post, uri, serialize(body))), parseError)
  }

  /** `DeleteUnitResponseAsync`: as written it sends a POST, not a DELETE. */
  function DeleteUnitResponse(send: Request -> Response, uri: string): (r: Maybe<Unit>)
    ensures MaybeUnitMapping(send(Request(Post, uri, None, None)), r)
  {
    SuccessAsUnit(send(PlainRequest(Post, uri)))
  }

  /** `SendAsync`: a caller-built request, mapped like `GetEither`. */
  function Send<T>(send: Request -> Response, request: Request, parseError: Body -> ErrorResponse,
                   parse: Body -> T): (r: Either<ErrorResponse, T>)
    ensures EitherMapping(send(request), parseError, parse, r)
  {
    SendRequestEitherResponse(send(request), parseError, parse)
  }
}
