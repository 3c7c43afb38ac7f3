/**
 * The request pipeline of `unifiedServer`: path normalization, handler
 * selection through the router, and the defaulting of the handler's status
 * code and payload.
 */
module Server {
  import opened Wrappers
  import opened Json
  import opened Text
  import opened Helpers
  import opened Data
  import opened Handlers

  // Path normalization

  /** `pathname.replace(/\/+/g, '')`: every run of slashes is replaced by nothing. */
  function NormalizePath(pathname: string): (r: string)
    ensures forall i :: 0 <= i < |r| ==> r[i] != '/'
    ensures |r| <= |pathname|
    ensures forall c :: c != '/' ==> multiset(r)[c] == multiset(pathname)[c]
  {
    if pathname == [] then
      []
    else
      assert pathname == [pathname[0]] + pathname[1..];
      (if pathname[0] == '/' then [] else [pathname[0]]) + NormalizePath(pathname[1..])
  }

  /** Normalization works piece by piece, keeping the order of what is left. */
  lemma {:induction false} NormalizeConcat(a: string, b: string)
    ensures NormalizePath(a + b) == NormalizePath(a) + NormalizePath(b)
  {
    if a != [] {
      assert (a + b)[1..] == a[1..] + b;
      NormalizeConcat(a[1..], b);
    } else {
      assert a + b == b;
    }
  }

  /** A path without slashes is left as it is. */
  lemma {:induction false} NormalizeSlashFree(p: string)
    requires forall i :: 0 <= i < |p| ==> p[i] != '/'
    ensures NormalizePath(p) == p
  {
    if p != [] {
      NormalizeSlashFree(p[1..]);
    }
  }

  /** Normalizing twice is normalizing once. */
  lemma NormalizeIdempotent(p: string)
    ensures NormalizePath(NormalizePath(p)) == NormalizePath(p)
  {
    NormalizeSlashFree(NormalizePath(p));
  }

  /** Interior slashes go too, not just repeated ones: `/a/b` becomes `ab`. */
  lemma InteriorSlashesRemoved()
    ensures NormalizePath("/a/b") == "ab"
    ensures NormalizePath("//users/") == "users"
  {
    NormalizeConcat("/a", "/b");
    NormalizeConcat("//", "users/");
    NormalizeConcat("users", "/");
    NormalizeSlashFree("users");
  }

  // Routing

  /** The handlers the router can reach. */
  datatype HandlerName = PingHandler | UsersHandler | NotFoundHandler

  /**
   * `server.router`. The `tokens` and `checks` entries hold `handlers.tokens`
   * and `handlers.checks`, which the handlers module never defines: `None`.
   */
  const Router: map<string, Option<HandlerName>> := map[
    "ping" := Some(PingHandler),
    "users" := Some(UsersHandler),
    "tokens" := None,
    "checks" := None]

  /** `server.router[normalizedPath] || handlers.notFound`. */
  function ChooseHandler(normalizedPath: string): (h: HandlerName)
    ensures h == PingHandler <==> normalizedPath == "ping"
    ensures h == UsersHandler <==> normalizedPath == "users"
    ensures normalizedPath !in {"ping", "users"} ==> h == NotFoundHandler
  {
    if normalizedPath in Router && Router[normalizedPath].Some? then Router[normalizedPath].value
    else NotFoundHandler
  }

  // Responses

  /** The status code and payload `unifiedServer` writes back. */
  datatype Response = Response(statusCode: real, payload: Value)

  /**
   * The defaulting in the handler callback: a status code that is not a number
   * becomes 200, a payload whose `typeof` is not `'object'` becomes `{}`.
   */
  function DefaultResponse(statusCode: Value, payload: Value): (r: Response)
    ensures statusCode.Num? ==> r.statusCode == statusCode.n
    ensures !statusCode.Num? ==> r.statusCode == 200.0
    ensures TypeOf(r.payload) == "object"
    ensures payload.Obj? || payload.Arr? || payload.Null? ==> r.payload == payload
    ensures !(payload.Obj? || payload.Arr? || payload.Null?) ==> r.payload == EmptyObject
  {
    Response(
      if TypeOf(statusCode) == "number" then statusCode.n else 200.0,
      if TypeOf(payload) == "object" then payload else EmptyObject)
  }

  /** Defaulting an already defaulted response changes nothing. */
  lemma DefaultResponseIdempotent(statusCode: Value, payload: Value)
    ensures var r := DefaultResponse(statusCode, payload);
      DefaultResponse(Num(r.statusCode), r.payload) == r
  {
  }

  /** How a request ends: a response is written, none ever is, or the process dies. */
  datatype Served = Sent(response: Response) | NoResponse | ProcessCrash(reason: string)

  /** What the server makes of a handler's outcome. */
  function Serve(outcome: Outcome): (s: Served)
    ensures outcome.Reply? ==> s.Sent? && s.response == DefaultResponse(outcome.status, outcome.payload)
    ensures outcome.Silent? ==> s == NoResponse
    ensures outcome.Crash? ==> s == ProcessCrash(outcome.reason)
  {
    match outcome
    case Reply(status, payload) => Sent(DefaultResponse(status, payload))
    case Silent => NoResponse
    case Crash(reason) => ProcessCrash(reason)
  }

  /**
   * One request through `unifiedServer`, once its body has been read into
   * `buffer`: normalize the path, lowercase the method, parse the body, run the
   * chosen handler, and default its answer.
   */
  method HandleRequest(
    store: Store, pathname: string, httpMethod: string, buffer: string,
    parse: JsonParser, hmac: Hmac, readFault: bool, createFault: bool)
    returns (served: Served)
    modifies store
    ensures var route := ChooseHandler(NormalizePath(pathname));
      && (route == PingHandler ==> served == Sent(Response(200.0, EmptyObject)))
      && (route == NotFoundHandler ==> served == Sent(Response(404.0, EmptyObject)))
      && (route != UsersHandler ==> store.records == old(store.records))
    ensures var data := Request(AsciiLower(httpMethod), ParseJsonToObject(parse, buffer));
      var e := UsersEffect(old(store.records), data, hmac, readFault, createFault);
      ChooseHandler(NormalizePath(pathname)) == UsersHandler ==>
        served == Serve(e.outcome) && store.records == e.records
    ensures ChooseHandler(NormalizePath(pathname)) == UsersHandler && AsciiLower(httpMethod) !in AcceptableMethods ==>
      served == Sent(Response(405.0, EmptyObject)) && store.records == old(store.records)
  {
    var normalizedPath := NormalizePath(pathname);
    var verb := AsciiLower(httpMethod);
    var data := Request(verb, ParseJsonToObject(parse, buffer));
    var outcome: Outcome;
    match ChooseHandler(normalizedPath) {
      case PingHandler =>
        outcome := Ping(data);
      case NotFoundHandler =>
        outcome := NotFound(data);
      case UsersHandler =>
        outcome := Users(store, data, hmac, readFault, createFault);
    }
    served := Serve(outcome);
  }
}
