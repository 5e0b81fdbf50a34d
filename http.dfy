/**
 * The part of Express's request and response objects the handlers use:
 * the request as a record, the response as a status, a header map and a
 * body, changed in place by `res.set`, `res.status`, `res.end` and
 * `res.json`.
 */
module Http {
  import opened Wrappers
  import opened JsText
  import opened JsNumber
  import opened Models

  /** The file part multer parsed from a multipart body (`req.file`). */
  datatype UploadedFile = UploadedFile(originalname: string, buffer: seq<bv8>, mimetype: string)

  /** An incoming request. Header names are lower-case, as Node exposes them;
      only the keys of `query` and `params` matter to the handlers. */
  datatype Request = Request(
    httpMethod: string,
    url: string,
    originalUrl: Option<string>,
    query: map<string, string>,
    params: map<string, string>,
    headers: map<string, string>,
    ip: Option<string>,
    remoteAddress: Option<string>,
    file: Option<UploadedFile>)

  /** `req.headers[name]`. */
  function HeaderValue(req: Request, name: string): (v: Option<string>)
    ensures v.Some? <==> name in req.headers
    ensures v.Some? ==> v.value == req.headers[name]
  {
    if name in req.headers then Some(req.headers[name]) else None
  }

  /** `Object.keys(req.query).length > 0 || Object.keys(req.params).length > 0`:
      the query string or the path carries at least one key. */
  function HasQueryOrParams(req: Request): (b: bool)
    ensures b <==> (exists k :: k in req.query) || (exists k :: k in req.params)
  {
    NonEmptyHasKey(req.query);
    NonEmptyHasKey(req.params);
    |req.query| > 0 || |req.params| > 0
  }

  lemma NonEmptyHasKey(m: map<string, string>)
    ensures |m| > 0 <==> exists k :: k in m
  {
    if |m| > 0 {
      assert |m.Keys| == |m|;
      var k :| k in m.Keys;
    }
  }

  /** `req.headers['content-length'] && parseInt(req.headers['content-length']) > 0`:
      the request declares a body. */
  function DeclaresBody(req: Request): (b: bool)
    ensures b ==> "content-length" in req.headers
    ensures b ==> var t := TrimStart(req.headers["content-length"]);
      StartsNumber(t) && t[0] != '-'
  {
    var h := HeaderValue(req, "content-length");
    Truthy(h) && ParseInt(h.value).Some? && ParseInt(h.value).value > 0
  }

  /** A `content-length` header holding a rendered integer declares a body
      exactly when that integer is positive. */
  lemma DeclaredLength(req: Request, n: int)
    requires HeaderValue(req, "content-length") == Some(IntToString(n))
    ensures DeclaresBody(req) <==> n > 0
  {
    assert IntToString(n) + [] == IntToString(n);
    ParseIntOfIntToString(n, []);
  }

  /** An absent or empty `content-length`, or one whose first character is none
      of white space, a sign or a digit, declares no body. */
  lemma NoDeclaredLength(req: Request)
    requires var h := HeaderValue(req, "content-length");
      || h.None?
      || h.value == []
      || (!IsJsWhitespace(h.value[0]) && h.value[0] != '+' && h.value[0] != '-'
          && !IsDigitIn(h.value[0], 10))
    ensures !DeclaresBody(req)
  {
    var h := HeaderValue(req, "content-length");
    if h.Some? && h.value != [] {
      ParseIntNoLeadingDigit(h.value);
    }
  }

  /** A header whose text has no digit where `parseInt` looks for one (after
      white space and at most one sign) declares no body: `"- 5"`, `" x"`, `"+"`. */
  lemma DigitlessLength(req: Request, pre: string, sign: string, rest: string)
    requires HeaderValue(req, "content-length") == Some(pre + sign + rest)
    requires AllWhitespace(pre)
    requires sign == "" || sign == "+" || sign == "-"
    requires rest == [] || !IsDigitIn(rest[0], 10)
    requires sign == "" && rest != [] ==> !IsJsWhitespace(rest[0]) && rest[0] != '+' && rest[0] != '-'
    ensures !DeclaresBody(req)
  {
    ParseIntWithoutDigits(pre, sign, rest);
  }

  /** What a response sends: nothing, `{ error: ... }`, or a metadata record
      serialised by `res.json`. */
  datatype Body = Empty | JsonError(error: string) | JsonRecord(record: Metadata)

  const CacheControl := "Cache-Control"
  const Pragma := "Pragma"
  const ContentTypeOptions := "X-Content-Type-Options"

  /** The header triple every health response and every rejected `/file`
      request carries. */
  const NoCacheHeaders: map<string, string> := map[
    CacheControl := "no-cache, no-store, must-revalidate",
    Pragma := "no-cache",
    ContentTypeOptions := "nosniff"]

  class Response {
    var statusCode: int
    var headers: map<string, string>
    var body: Body
    var ended: bool

    /** A fresh response: status 200, as Node starts it, nothing set or sent. */
    constructor ()
      ensures statusCode == 200 && headers == map[] && body == Empty && !ended
    {
      statusCode, headers, body, ended := 200, map[], Empty, false;
    }

    /** `res.set(name, value)`: sets one header, replacing an earlier value. */
    method Set(name: string, value: string)
      modifies this`headers
      ensures headers == old(headers)[name := value]
    {
      headers := headers[name := value];
    }

    /** `res.status(code)`. */
    method Status(code: int)
      modifies this`statusCode
      ensures statusCode == code
    {
      statusCode := code;
    }

    /** `res.end(...)`, and `res.json(value)`, which serialises `value` and ends
      the response with it. */
    method End(content: Body)
      modifies this`body, this`ended
      ensures body == content && ended
    {
      body := content;
      ended := true;
    }
  }

  /** The three `res.set` calls that precede every health response and every
      rejected `/file` request. */
  method SetNoCacheHeaders(res: Response)
    modifies res`headers
    ensures res.headers == old(res.headers) + NoCacheHeaders
  {
    res.Set(CacheControl, "no-cache, no-store, must-revalidate");
    res.Set(Pragma, "no-cache");
    res.Set(ContentTypeOptions, "nosniff");
  }

  /** The header triple, a status and an empty body: how every health response
      and every rejected `/file` request is answered. */
  method RespondNoCache(res: Response, code: int)
    modifies res`headers, res`statusCode, res`body, res`ended
    ensures res.headers == old(res.headers) + NoCacheHeaders
    ensures res.statusCode == code && res.body == Empty && res.ended
  {
    SetNoCacheHeaders(res);
    res.Status(code);
    res.End(Empty);
  }
}
