/**
 * The `/healthz` liveness probe (app.js). The database is contacted first;
 * then the request is validated; then one `HealthCheck` row is written.
 * Every response, whatever its status, carries the no-cache header triple
 * and an empty body.
 */
module Health {
  import opened Wrappers
  import opened JsNumber
  import opened Http
  import opened Services

  /** Where the validation chain of app.js:12-31 sends a request once the
      database answered. */
  datatype Check = RejectMethod | RejectParams | RejectBody | Probe

  function Validate(req: Request): (c: Check)
    ensures c == RejectMethod <==> req.httpMethod != "GET"
    ensures c == RejectParams <==> req.httpMethod == "GET" && HasQueryOrParams(req)
    ensures c == RejectBody <==> req.httpMethod == "GET" && !HasQueryOrParams(req) && DeclaresBody(req)
    ensures c == Probe <==> req.httpMethod == "GET" && !HasQueryOrParams(req) && !DeclaresBody(req)
  {
    if req.httpMethod != "GET" then RejectMethod
    else if HasQueryOrParams(req) then RejectParams
    else if DeclaresBody(req) then RejectBody
    else Probe
  }

  /** The status `/healthz` answers with, given whether `authenticate` resolved
      and whether the `HealthCheck` insert succeeded. */
  function HealthStatus(req: Request, dbReachable: bool, insertOk: bool): (status: int)
    ensures status in {200, 400, 405, 503}
    ensures !dbReachable ==> status == 503
    ensures dbReachable && req.httpMethod != "GET" ==> status == 405
    ensures dbReachable && req.httpMethod == "GET" && HasQueryOrParams(req) ==> status == 400
    ensures dbReachable && req.httpMethod == "GET" && !HasQueryOrParams(req) && DeclaresBody(req)
      ==> status == 400
    ensures status == 200 <==>
      dbReachable && req.httpMethod == "GET" && !HasQueryOrParams(req) && !DeclaresBody(req) && insertOk
    ensures status == 503 <==>
      !dbReachable || (Validate(req) == Probe && !insertOk)
  {
    if !dbReachable then 503
    else match Validate(req)
      case RejectMethod => 405
      case RejectParams => 400
      case RejectBody => 400
      case Probe => if insertOk then 200 else 503
  }

  /** For a GET with no query or path keys, a `content-length` holding a rendered
      integer decides the outcome by its sign alone: positive is refused with 400,
      zero or negative goes on to the insert. */
  lemma DeclaredLengthDecides(req: Request, n: int, insertOk: bool)
    requires req.httpMethod == "GET" && !HasQueryOrParams(req)
    requires HeaderValue(req, "content-length") == Some(IntToString(n))
    ensures n > 0 ==> HealthStatus(req, true, insertOk) == 400
    ensures n <= 0 ==> HealthStatus(req, true, insertOk) == (if insertOk then 200 else 503)
  {
    DeclaredLength(req, n);
  }

  /** The collaborator calls one probe makes: `authenticate`, then the insert
      when every check passed. */
  function HealthCalls(req: Request, dbReachable: bool): (calls: seq<Call>)
    ensures 1 <= |calls| <= 2 && calls[0] == DbAuthenticate
    ensures |calls| == 2 <==> dbReachable && Validate(req) == Probe
    ensures |calls| == 2 ==> calls[1] == DbCreateHealthCheck
  {
    [DbAuthenticate] + (if dbReachable && Validate(req) == Probe then [DbCreateHealthCheck] else [])
  }

  /** The trace holds one `HealthCheck` insert exactly when the database
      answered and every check passed, and none otherwise. */
  lemma HealthCallsShape(req: Request, dbReachable: bool)
    ensures multiset(HealthCalls(req, dbReachable))[DbCreateHealthCheck]
      == if dbReachable && Validate(req) == Probe then 1 else 0
  {
  }

  /** app.js:9-55: the handler. `dbReachable` and `insertOk` are the outcomes of
      the two awaited database calls. */
  method Healthz(backend: Backend, req: Request, dbReachable: bool, insertOk: bool, res: Response)
    modifies backend`calls, backend`healthChecks, res`statusCode, res`headers, res`body, res`ended
    ensures backend.calls == old(backend.calls) + HealthCalls(req, dbReachable)
    ensures backend.healthChecks
      == old(backend.healthChecks) + (if HealthStatus(req, dbReachable, insertOk) == 200 then 1 else 0)
    ensures res.statusCode == HealthStatus(req, dbReachable, insertOk)
    ensures res.headers == old(res.headers) + NoCacheHeaders
    ensures res.body == Empty && res.ended
  {
    var reachable := backend.Authenticate(dbReachable);
    if !reachable {
      RespondNoCache(res, 503);
      return;
    }
    if req.httpMethod != "GET" {
      RespondNoCache(res, 405);
    } else if HasQueryOrParams(req) {
      RespondNoCache(res, 400);
    } else if DeclaresBody(req) {
      RespondNoCache(res, 400);
    } else {
      var inserted := backend.CreateHealthCheck(insertOk);
      RespondNoCache(res, if inserted then 200 else 503);
    }
  }
}
