/**
 * The request and operation logging of logger.js: which level a finished
 * request is logged at, how its message and fields are built, the entries
 * `logS3Operation`, `logDatabaseOperation` and `stream.write` produce, and
 * the wrapper `requestLogger` puts around `res.end`.
 */
module Logging {
  import opened Wrappers
  import opened JsText
  import opened JsNumber
  import opened Http

  datatype Level = Error | Warn | Info

  /** The fields logged beside a message. */
  datatype Meta =
    | NoMeta
    | RequestMeta(httpMethod: string, url: string, statusCode: int, responseTime: string,
                  userAgent: Option<string>, ip: Option<string>)
    | OperationMeta(operation: string, subject: OperationSubject, result: string)

  /** What an operation entry names: an S3 bucket and key, or a model and id. */
  datatype OperationSubject = S3Object(bucket: string, key: string) | DbRow(model: string, id: string)

  datatype LogEntry = LogEntry(level: Level, message: string, meta: Meta)

  /** The winston logger, seen as the sequence of entries it was given. */
  class Logger {
    var entries: seq<LogEntry>

    constructor ()
      ensures entries == []
    {
      entries := [];
    }

    /** `logger.error`, `logger.warn` or `logger.info` with a message and fields. */
    method Log(level: Level, message: string, meta: Meta)
      modifies this
      ensures entries == old(entries) + [LogEntry(level, message, meta)]
    {
      entries := entries + [LogEntry(level, message, meta)];
    }
  }

  // ------------------------------------------------------------ stream.write

  /** logger.js:41-45: the morgan-style stream logs each line trimmed, at info. */
  method StreamWrite(logger: Logger, message: string)
    modifies logger
    ensures logger.entries == old(logger.entries) + [LogEntry(Info, Trim(message), NoMeta)]
  {
    logger.Log(Info, Trim(message), NoMeta);
  }

  // ----------------------------------------------------------- requestLogger

  /** The level a finished request is logged at (logger.js:63-69). */
  function LevelFor(statusCode: int): (level: Level)
    ensures level == Error <==> statusCode >= 500
    ensures level == Warn <==> 400 <= statusCode < 500
    ensures level == Info <==> statusCode < 400
  {
    if statusCode >= 500 then Error
    else if statusCode >= 400 then Warn
    else Info
  }

  function MessagePrefix(level: Level): string {
    match level
    case Error => "Server error processing "
    case Warn => "Client error processing "
    case Info => "Successfully processed "
  }

  /** `req.originalUrl || req.url`. */
  function RequestUrl(req: Request): (url: string)
    ensures Truthy(req.originalUrl) ==> url == req.originalUrl.value
    ensures !Truthy(req.originalUrl) ==> url == req.url
  {
    Or(req.originalUrl, Some(req.url)).value
  }

  /** The message of a request entry: the level's fixed prefix, the method, a
      space and the url. */
  function RequestMessage(level: Level, httpMethod: string, url: string): string {
    MessagePrefix(level) + httpMethod + " " + url
  }

  predicate StartsWith(s: string, prefix: string) {
    |s| >= |prefix| && s[..|prefix|] == prefix
  }

  /** The level whose prefix a message starts with. */
  function LevelOfMessage(message: string): Option<Level> {
    if StartsWith(message, MessagePrefix(Error)) then Some(Error)
    else if StartsWith(message, MessagePrefix(Warn)) then Some(Warn)
    else if StartsWith(message, MessagePrefix(Info)) then Some(Info)
    else None
  }

  lemma DiffersAt(m: string, prefix: string, i: nat)
    requires i < |prefix| && (i >= |m| || m[i] != prefix[i])
    ensures !StartsWith(m, prefix)
  {
    if |m| >= |prefix| {
      assert m[..|prefix|][i] == m[i];
    }
  }

  /** No prefix is mistaken for another: "Server..." and "Successfully..." part
      at their second character, and "Client..." at the first. */
  lemma LevelOfPrefixed(level: Level, rest: string)
    ensures LevelOfMessage(MessagePrefix(level) + rest) == Some(level)
  {
    var p := MessagePrefix(level);
    var m := p + rest;
    assert m[..|p|] == p;
    assert StartsWith(m, p);
    match level
    case Error =>
    case Warn =>
      assert m[0] == p[0] == 'C';
      DiffersAt(m, MessagePrefix(Error), 0);
    case Info =>
      assert m[0] == p[0] == 'S' && m[1] == p[1] == 'u';
      DiffersAt(m, MessagePrefix(Error), 1);
      DiffersAt(m, MessagePrefix(Warn), 0);
  }

  /** Reads a request message back into its level, method and url, splitting at
      the first space after the prefix. */
  function ParseRequestMessage(message: string): Option<(Level, string, string)> {
    match LevelOfMessage(message)
    case None => None
    case Some(l) =>
      if |message| < |MessagePrefix(l)| then None
      else
        var rest := message[|MessagePrefix(l)|..];
        match IndexOf(rest, " ")
        case None => None
        case Some(i) => Some((l, rest[..i], rest[i + 1..]))
  }

  /** Splitting `m + " " + u` at its first space gives back `m` and `u` when `m`
      has no space. */
  lemma SplitAtFirstSpace(m: string, u: string)
    requires ' ' !in m
    ensures var rest := m + " " + u;
      && IndexOf(rest, " ") == Some(|m|)
      && rest[..|m|] == m
      && rest[|m| + 1..] == u
  {
    var s := m + " " + u;
    assert OccursAt(s, " ", |m|);
    forall j | 0 <= j < |m| ensures !OccursAt(s, " ", j) {
      assert s[j] == m[j];
    }
  }

  /** Once the level is recognised, the parser splits what follows the prefix. */
  lemma ParseAfterPrefix(level: Level, rest: string)
    ensures ParseRequestMessage(MessagePrefix(level) + rest) ==
      match IndexOf(rest, " ")
      case None => None
      case Some(i) => Some((level, rest[..i], rest[i + 1..]))
  {
    var p := MessagePrefix(level);
    var message := p + rest;
    LevelOfPrefixed(level, rest);
    assert message[|p|..] == rest;
  }

  /** A request message determines the level, the method and the url it was
      built from, as long as the method contains no space (HTTP methods are
      tokens). */
  lemma RequestMessageRoundTrip(level: Level, httpMethod: string, url: string)
    requires ' ' !in httpMethod
    ensures ParseRequestMessage(RequestMessage(level, httpMethod, url)) == Some((level, httpMethod, url))
  {
    var p := MessagePrefix(level);
    var rest := httpMethod + " " + url;
    assert p + httpMethod + " " + url == p + rest;
    ParseAfterPrefix(level, rest);
    SplitAtFirstSpace(httpMethod, url);
  }

  /** The `responseTime` field: the elapsed milliseconds followed by `ms`, from
      which `parseInt` reads the elapsed time back. */
  function ResponseTime(elapsed: int): (t: string)
    ensures |t| > 2 && t[..|t| - 2] == IntToString(elapsed) && t[|t| - 2..] == "ms"
    ensures ParseInt(t) == Some(elapsed)
  {
    ParseIntOfIntToString(elapsed, "ms");
    IntToString(elapsed) + "ms"
  }

  /** `req.ip || req.headers['x-forwarded-for'] || req.connection.remoteAddress`. */
  function ClientIp(req: Request): (ip: Option<string>)
    ensures Truthy(req.ip) ==> ip == req.ip
    ensures !Truthy(req.ip) && Truthy(HeaderValue(req, "x-forwarded-for"))
      ==> ip == HeaderValue(req, "x-forwarded-for")
    ensures !Truthy(req.ip) && !Truthy(HeaderValue(req, "x-forwarded-for")) ==> ip == req.remoteAddress
  {
    Or(Or(req.ip, HeaderValue(req, "x-forwarded-for")), req.remoteAddress)
  }

  /** The entry the wrapped `res.end` logs (logger.js:52-69). */
  function RequestEntry(req: Request, statusCode: int, elapsed: int): (e: LogEntry)
    ensures e.level == LevelFor(statusCode)
    ensures e.message == MessagePrefix(e.level) + req.httpMethod + " " + RequestUrl(req)
    ensures e.meta.RequestMeta? && e.meta.statusCode == statusCode && e.meta.url == RequestUrl(req)
    ensures e.meta.httpMethod == req.httpMethod && e.meta.userAgent == HeaderValue(req, "user-agent")
    ensures e.meta.ip == ClientIp(req)
    ensures ParseInt(e.meta.responseTime) == Some(elapsed) && e.meta.responseTime == ResponseTime(elapsed)
  {
    var level := LevelFor(statusCode);
    LogEntry(level, RequestMessage(level, req.httpMethod, RequestUrl(req)),
      RequestMeta(req.httpMethod, RequestUrl(req), statusCode, ResponseTime(elapsed),
                  HeaderValue(req, "user-agent"), ClientIp(req)))
  }

  /** The state `requestLogger` leaves behind for one request (logger.js:47-75):
      the start time it captured and the `next` it called. Its `End` is the
      function installed in place of `res.end`. */
  class RequestLogger {
    const req: Request
    /** The response whose `end` the middleware replaced. */
    const res: Response
    const start: int
    const logger: Logger
    /** How often the middleware called `next`. */
    var nextCalls: nat

    /** `requestLogger(req, res, next)` at time `now`: records the start time,
      installs the wrapper and calls `next` once. */
    constructor (req: Request, res: Response, now: int, logger: Logger)
      ensures this.req == req && this.res == res && start == now && this.logger == logger
      ensures nextCalls == 1
    {
      this.req := req;
      this.res := res;
      this.start := now;
      this.logger := logger;
      nextCalls := 1;
    }

    /** The wrapped `res.end(...args)` called at time `now`: logs one entry for
      the response's current status, then runs the original `end` with the same
      arguments; status and headers are left as they were. */
    method End(content: Body, now: int)
      modifies logger, res`body, res`ended
      ensures logger.entries == old(logger.entries) + [RequestEntry(req, res.statusCode, now - start)]
      ensures res.body == content && res.ended
    {
      var entry := RequestEntry(req, res.statusCode, now - start);
      logger.Log(entry.level, entry.message, entry.meta);
      res.End(content);
    }
  }

  // ------------------------------------------------ operation log helpers

  /** `result ? 'successful' : 'failed'`, given the truthiness of `result`. */
  function ResultWord(resultTruthy: bool): (word: string)
    ensures word == "successful" <==> resultTruthy
    ensures word == "failed" <==> !resultTruthy
  {
    if resultTruthy then "successful" else "failed"
  }

  /** The two stores an operation entry can be about. */
  datatype Service = S3 | Database

  function ServiceName(service: Service): string {
    match service
    case S3 => "S3"
    case Database => "Database"
  }

  /** `S3 <operation> operation` or `Database <operation> operation`. */
  function OperationMessage(service: Service, operation: string): string {
    ServiceName(service) + " " + operation + " operation"
  }

  predicate EndsWith(s: string, suffix: string) {
    |s| >= |suffix| && s[|s| - |suffix|..] == suffix
  }

  /** The text of `m` between `prefix` and `suffix`, when it has both. */
  function Between(m: string, prefix: string, suffix: string): Option<string> {
    if |m| >= |prefix| + |suffix| && StartsWith(m, prefix) && EndsWith(m, suffix)
    then Some(m[|prefix|..|m| - |suffix|])
    else None
  }

  /** Reads an operation message back into the store and the operation named. */
  function ParseOperationMessage(m: string): Option<(Service, string)> {
    match Between(m, "S3 ", " operation")
    case Some(op) => Some((S3, op))
    case None =>
      match Between(m, "Database ", " operation")
      case Some(op) => Some((Database, op))
      case None => None
  }

  lemma BetweenOf(prefix: string, middle: string, suffix: string)
    ensures Between(prefix + middle + suffix, prefix, suffix) == Some(middle)
  {
    var m := prefix + middle + suffix;
    assert m[..|prefix|] == prefix;
    assert m[|m| - |suffix|..] == suffix;
    assert m[|prefix|..|m| - |suffix|] == middle;
  }

  /** An operation message names its store and its operation unambiguously. */
  lemma OperationMessageRoundTrip(service: Service, operation: string)
    ensures ParseOperationMessage(OperationMessage(service, operation)) == Some((service, operation))
  {
    var m := OperationMessage(service, operation);
    BetweenOf(ServiceName(service) + " ", operation, " operation");
    assert m == ServiceName(service) + " " + operation + " operation";
    if service == Database {
      assert m[0] == 'D';
      DiffersAt(m, "S3 ", 0);
    }
  }

  /** Operation messages are never mistaken for one another: different stores or
      operations give different messages. */
  lemma OperationMessageInjective(s1: Service, op1: string, s2: Service, op2: string)
    requires OperationMessage(s1, op1) == OperationMessage(s2, op2)
    ensures s1 == s2 && op1 == op2
  {
    OperationMessageRoundTrip(s1, op1);
    OperationMessageRoundTrip(s2, op2);
  }

  /** No operation message carries a request entry's prefix: "S3 ..." parts from
      "Server ..." and "Successfully ..." at its second character, and from
      "Client ..." at its first; "Database ..." parts from all three at once. */
  lemma OperationMessageNotRequest(service: Service, operation: string)
    ensures LevelOfMessage(OperationMessage(service, operation)) == None
  {
    var m := OperationMessage(service, operation);
    if service == S3 {
      assert m[0] == 'S' && m[1] == '3';
      DiffersAt(m, MessagePrefix(Error), 1);
      DiffersAt(m, MessagePrefix(Warn), 0);
      DiffersAt(m, MessagePrefix(Info), 1);
    } else {
      assert m[0] == 'D';
      DiffersAt(m, MessagePrefix(Error), 0);
      DiffersAt(m, MessagePrefix(Warn), 0);
      DiffersAt(m, MessagePrefix(Info), 0);
    }
  }

  /** The entry `logS3Operation(operation, params, result)` logs (logger.js:78-85):
      an info entry whose message names S3 and the operation and is no request
      message, whose fields name the bucket and key, and whose result word tells
      whether the result was truthy. */
  function S3OperationEntry(operation: string, bucket: string, key: string, resultTruthy: bool): (e: LogEntry)
    ensures e.level == Info && LevelOfMessage(e.message) == None
    ensures ParseOperationMessage(e.message) == Some((S3, operation))
    ensures e.meta.OperationMeta? && e.meta.operation == operation && e.meta.subject == S3Object(bucket, key)
    ensures e.meta.result == "successful" <==> resultTruthy
    ensures !resultTruthy ==> e.meta.result == "failed"
  {
    OperationMessageRoundTrip(S3, operation);
    OperationMessageNotRequest(S3, operation);
    LogEntry(Info, OperationMessage(S3, operation),
      OperationMeta(operation, S3Object(bucket, key), ResultWord(resultTruthy)))
  }

  /** The entry `logDatabaseOperation(operation, model, id, result)` logs
      (logger.js:88-95), in the same shape with the model and the id. */
  function DbOperationEntry(operation: string, model: string, id: string, resultTruthy: bool): (e: LogEntry)
    ensures e.level == Info && LevelOfMessage(e.message) == None
    ensures ParseOperationMessage(e.message) == Some((Database, operation))
    ensures e.meta.OperationMeta? && e.meta.operation == operation && e.meta.subject == DbRow(model, id)
    ensures e.meta.result == "successful" <==> resultTruthy
    ensures !resultTruthy ==> e.meta.result == "failed"
  {
    OperationMessageRoundTrip(Database, operation);
    OperationMessageNotRequest(Database, operation);
    LogEntry(Info, OperationMessage(Database, operation),
      OperationMeta(operation, DbRow(model, id), ResultWord(resultTruthy)))
  }

  method LogS3Operation(logger: Logger, operation: string, bucket: string, key: string, resultTruthy: bool)
    modifies logger
    ensures logger.entries == old(logger.entries) + [S3OperationEntry(operation, bucket, key, resultTruthy)]
  {
    var e := S3OperationEntry(operation, bucket, key, resultTruthy);
    logger.Log(e.level, e.message, e.meta);
  }

  method LogDatabaseOperation(logger: Logger, operation: string, model: string, id: string, resultTruthy: bool)
    modifies logger
    ensures logger.entries == old(logger.entries) + [DbOperationEntry(operation, model, id, resultTruthy)]
  {
    var e := DbOperationEntry(operation, model, id, resultTruthy);
    logger.Log(e.level, e.message, e.meta);
  }
}
