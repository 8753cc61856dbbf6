/**
 * The web front end's `HttpService`: it sends a request, optionally with the
 * stored bearer token, and turns a missing token or a 401 response into
 * "clear local storage, go home, report Unauthorized".
 *
 * Local storage is a map from item kind to stored value, navigation is the
 * list of targets navigated to, and every request handed to the transport
 * is logged, so that "the transport is never called" can be stated. The
 * transport is the parameter `transport` (a thrown exception is `Threw`) and
 * reading the JSON payload is the parameter `parse`; the payload `default`
 * is `None`.
 */
module WebServices {
  import opened Monads
  import opened Http

  datatype StoredObjectType = UserSession | AuthToken

  type Storage = map<StoredObjectType, string>

  /** What `HttpClient.SendAsync` does with one request. */
  datatype TransportOutcome = Threw | Responded(status: int, body: Body)

  const Home: string := "/"
  const BearerScheme: string := "Bearer"

  /** Both items an authorized request needs are stored. */
  predicate HasAuthorization(storage: Storage) {
    UserSession in storage && AuthToken in storage
  }

  /** The request with an `Authorization: Bearer <token>` header. */
  function Authorize(request: Request, token: string): (authorized: Request) {
    request.(authorization := Some(AuthenticationHeader(BearerScheme, token)))
  }

  /**
   * The effect of one `SendRequest` call: the request handed to the
   * transport (if any), local storage afterwards, the navigation target (if
   * any), and the returned status and payload.
   */
  datatype Outcome<T> = Outcome(
    sent: Maybe<Request>,
    storage: Storage,
    navigation: Maybe<string>,
    status: int,
    payload: Maybe<T>)

  /** `HandleMissingAuthorization` after sending `sent`: storage cleared, home, Unauthorized. */
  function SignedOut<T>(sent: Maybe<Request>): (o: Outcome<T>) {
    Outcome(sent, map[], Some(Home), Unauthorized, None)
  }

  /** The specification of `SendRequest`, branch by branch of the source. */
  function Exchange<T>(storage: Storage, request: Request, withAuthorization: bool,
                       transport: Request -> TransportOutcome, parse: Body -> T): (r: Outcome<T>)
    // a missing item: nothing is sent, storage is cleared, go home
    ensures withAuthorization && !HasAuthorization(storage) ==> r == SignedOut(None)
    // an authorized request carries the stored token; an unauthorized one goes as built
    ensures withAuthorization && HasAuthorization(storage) ==>
              r.sent == Some(Authorize(request, storage[AuthToken]))
    ensures !withAuthorization ==> r.sent == Some(request)
    // a transport exception: 503, storage kept, no navigation
    ensures r.sent.Some? && transport(r.sent.value).Threw? ==>
              r == Outcome(r.sent, storage, None, ServiceUnavailable, None)
    // a 401 response, authorized or not: signed out
    ensures r.sent.Some? && transport(r.sent.value).Responded? && transport(r.sent.value).status == Unauthorized ==>
              r == SignedOut(r.sent)
    // any other response, success or not: its own status and its parsed body
    ensures r.sent.Some? && transport(r.sent.value).Responded? && transport(r.sent.value).status != Unauthorized ==>
              r == Outcome(r.sent, storage, None, transport(r.sent.value).status,
                           Some(parse(transport(r.sent.value).body)))
    // storage is cleared, and navigation happens, only when Unauthorized is returned
    ensures r.storage == storage || (r.storage == map[] && r.status == Unauthorized)
    ensures r.navigation.Some? <==> r.status == Unauthorized
    ensures r.navigation.Some? ==> r.navigation.value == Home && r.payload.None?
  {
    if withAuthorization && !HasAuthorization(storage) then SignedOut(None)
    else
      var sent := if withAuthorization then Authorize(request, storage[AuthToken]) else request;
      match transport(sent)
      case Threw => Outcome(Some(sent), storage, None, ServiceUnavailable, None)
      case Responded(status, body) =>
        if status == Unauthorized then SignedOut(Some(sent))
        else Outcome(Some(sent), storage, None, status, Some(parse(body)))
  }

  /**
   * Without authorization the stored items are never consulted: what is
   * sent, what is returned and where navigation goes do not depend on them.
   */
  lemma UnauthenticatedIgnoresStorage<T>(storage1: Storage, storage2: Storage, request: Request,
                                         transport: Request -> TransportOutcome, parse: Body -> T)
    ensures var o1, o2 := Exchange(storage1, request, false, transport, parse),
                          Exchange(storage2, request, false, transport, parse);
            o1.sent == o2.sent && o1.navigation == o2.navigation &&
            o1.status == o2.status && o1.payload == o2.payload
  {
  }

  class HttpService {
    var storage: Storage
    var navigations: seq<string>
    /** Every request handed to the transport, in order. */
    var sent: seq<Request>

    constructor (stored: Storage)
      ensures storage == stored && navigations == [] && sent == []
    {
      storage := stored;
      navigations := [];
      sent := [];
    }

    method HandleMissingAuthorization<T>() returns (status: int, payload: Maybe<T>)
      modifies this`storage, this`navigations
      ensures storage == map[] && navigations == old(navigations) + [Home]
      ensures status == Unauthorized && payload == None
    {
      storage := map[];
      navigations := navigations + [Home];
      return Unauthorized, None;
    }

    method SendRequest<T>(request: Request, withAuthorization: bool,
                          transport: Request -> TransportOutcome, parse: Body -> T)
      returns (status: int, payload: Maybe<T>)
      modifies this
      ensures var o := Exchange(old(storage), request, withAuthorization, transport, parse);
              storage == o.storage &&
              sent == old(sent) + o.sent.ToSeq() &&
              navigations == old(navigations) + o.navigation.ToSeq() &&
              status == o.status && payload == o.payload
    {
      var message := request;
      if withAuthorization {
        if UserSession !in storage || AuthToken !in storage {
          status, payload := HandleMissingAuthorization();
          return;
        }
        var token := storage[AuthToken];
        message := Authorize(message, token);
      }

      sent := sent + [message];
      var response := transport(message);
      if response.Threw? {
        return ServiceUnavailable, None;
      }

      if response.status == Unauthorized {
        status, payload := HandleMissingAuthorization();
        return;
      }

      var content := parse(response.body);
      return response.status, Some(content);
    }

    method Get<T>(uri: string, withAuthorization: bool,
                  transport: Request -> TransportOutcome, parse: Body -> T)
      returns (status: int, payload: Maybe<T>)
      modifies this
      ensures var o := Exchange(old(storage), Request(HttpMethod.Get, uri, None, None), withAuthorization, transport, parse);
              storage == o.storage &&
              sent == old(sent) + o.sent.ToSeq() &&
              navigations == old(navigations) + o.navigation.ToSeq() &&
              status == o.status && payload == o.payload
    {
      status, payload := SendRequest(PlainRequest(HttpMethod.Get, uri), withAuthorization, transport, parse);
    }

    method Post<V, T>(uri: string, value: V, serialize: V -> string, withAuthorization: bool,
                      transport: Request -> TransportOutcome, parse: Body -> T)
      returns (status: int, payload: Maybe<T>)
      modifies this
      ensures var o := Exchange(old(storage), Request(HttpMethod.Post, uri, Some(serialize(value)), None),
                                withAuthorization, transport, parse);
              storage == o.storage &&
              sent == old(sent) + o.sent.ToSeq() &&
              navigations == old(navigations) + o.navigation.ToSeq() &&
              status == o.status && payload == o.payload
    {
      status, payload := SendRequest(JsonRequest(HttpMethod.Post, uri, serialize(value)), withAuthorization, transport, parse);
    }
  }

  // -----------------------------------------------------------------------
  // Several calls on one service instance.
  // -----------------------------------------------------------------------

  /** One call of `Get` (no content) or `Post` (JSON content). */
  datatype Call = Call(verb: HttpMethod, uri: string, content: Maybe<string>, withAuthorization: bool)

  function CallRequest(call: Call): (request: Request) {
    Request(call.verb, call.uri, call.content, None)
  }

  /** Storage at the end of a session, and the requests handed to the transport meanwhile. */
  datatype SessionTrace = SessionTrace(storage: Storage, sent: seq<Request>)

  /**
   * The calls `calls[i]` made one after another on one service, the i-th
   * answered by the transport `transports[i]`: the same request may get
   * different replies at different times (a token accepted, then expired).
   */
  function Session<T>(storage: Storage, calls: seq<Call>,
                      transports: seq<Request -> TransportOutcome>, parse: Body -> T): (trace: SessionTrace)
    requires |transports| == |calls|
    decreases |calls|
  {
    if calls == [] then SessionTrace(storage, [])
    else
      var o := Exchange(storage, CallRequest(calls[0]), calls[0].withAuthorization, transports[0], parse);
      var rest := Session(o.storage, calls[1..], transports[1..], parse);
      SessionTrace(rest.storage, o.sent.ToSeq() + rest.sent)
  }

  /**
   * The service never stores anything: after any number of calls, storage is
   * either as it was or empty.
   */
  lemma {:induction false} SessionOnlyClearsStorage<T>(storage: Storage, calls: seq<Call>,
                                                     transports: seq<Request -> TransportOutcome>,
                                                     parse: Body -> T)
    requires |transports| == |calls|
    ensures var after := Session(storage, calls, transports, parse).storage;
            after == storage || after == map[]
    decreases |calls|
  {
    if calls != [] {
      var o := Exchange(storage, CallRequest(calls[0]), calls[0].withAuthorization, transports[0], parse);
      SessionOnlyClearsStorage(o.storage, calls[1..], transports[1..], parse);
    }
  }

  /**
   * Every request a session hands to the transport either carries no
   * `Authorization` header, or carries the bearer token stored when the
   * session began. In particular, once an item is missing (or after a 401
   * has cleared storage) no request with credentials is ever sent.
   */
  lemma {:induction false} SessionCredentials<T>(storage: Storage, calls: seq<Call>,
                                               transports: seq<Request -> TransportOutcome>,
                                               parse: Body -> T)
    requires |transports| == |calls|
    ensures forall q :: q in Session(storage, calls, transports, parse).sent ==>
              q.authorization.None? ||
              (HasAuthorization(storage) &&
               q.authorization == Some(AuthenticationHeader(BearerScheme, storage[AuthToken])))
    decreases |calls|
  {
    if calls != [] {
      var o := Exchange(storage, CallRequest(calls[0]), calls[0].withAuthorization, transports[0], parse);
      SessionCredentials(o.storage, calls[1..], transports[1..], parse);
    }
  }
}
