# A verified model of the webapp's request handlers

This project models, in Dafny, the three route handlers and the request logging
of a small Express service that keeps uploaded files in an S3 bucket and their
metadata in a `Metadata` table, and that answers a `/healthz` liveness probe by
writing a row to a `HealthCheck` table.  The model covers:

- the `/healthz` handler (`app.js`): `authenticate` first, then the method check,
  then the query/params check, then the `content-length` check, then one
  `HealthCheck` insert; every answer carries the no-cache header triple and an
  empty body;
- the `POST /file` handler (`file.js`): the method, query/params and file checks,
  then `s3.upload` → `headObject` → `Metadata.create`, all on one key
  `uploads/<id>-<name>`, with the url `<bucket>/uploads/<id>-<name>` stored;
- the `/file/:id` handler (`file.js`): `findByPk`, then a validation chain whose
  first guard, `req.method !== 'GET' || req.method !== 'DELETE'`, is true for
  every method.  The model keeps that guard as written and proves that every
  request that gets past `findByPk` is answered 405, so the read and delete
  branches (and `deleteObject`/`destroy`) never run.  A request routed to
  `/file/:id` always has the `id` path parameter, so the next guard (line 84)
  is always true as well;
- `logger.js`: the level a finished request is logged at, its message and
  fields, the wrapper `requestLogger` installs around `res.end`, the entries of
  `logS3Operation` and `logDatabaseOperation`, and `stream.write`.

The JavaScript built-ins these rules rest on are modelled after ECMA-262:
`String.prototype.trim` (module `JsText`), `indexOf` and `replace` with a string
pattern, `||` on strings, `parseInt` with no radix (module `JsNumber`: white space,
sign, the `0x` prefix, the longest digit run) and the decimal rendering of an
integer in a template literal.  Consequently a `content-length` of `" 5"`, `"+5"`
or `"0x5"` declares a body, just as it does for the code: `parseInt` skips white
space and reads signs and hex prefixes.

The collaborators (S3, Sequelize, `uuidv4`, the clock) are inputs: class
`Services.Backend` holds the bucket's objects, the `Metadata` rows, the number of
`HealthCheck` rows and the trace of every collaborator call in order, and each
call takes whether it resolves as an argument.  `Http.Response` holds the status,
headers, body and whether `end` was called, and the handlers change it in place.

Some facts about the code that the model keeps as written:
- every failure of an accepted upload is answered 500 `File upload failed.`,
  whatever the collaborator's error was;
- the object key is `uploads/<id>-<name>`;
- a request reaches the upload path without any check of its content type;
- the metadata row holds the id, the file name, the url and the upload date,
  and nothing `headObject` returned;
- the method guard of `/file/:id` (file.js:77) holds for every request, so the
  route never reads or deletes a file; its unreachable delete branch would
  answer 200 with the row.

Modules: `Wrappers` (Option), `JsText`, `JsNumber`, `Models` (record shapes),
`Http` (request, response, `content-length` rule, header triple), `Services`
(collaborators), `Health` (app.js), `FileRoutes` (file.js), `Logging` (logger.js).

## Model

| member | source | states |
|---|---|---|
| `JsText.Trim` | logger.js:43 | `message.trim()` is the infix of the message that starts where its leading white space ends, has only white space around it, and neither starts nor ends with white space |
| `JsText.TrimOfPadded` | logger.js:43 | trimming any white-space padding around a text that does not start or end with white space gives back exactly that text (so the trimmed form is unique) |
| `JsText.TrimIdempotent` | logger.js:43 | trimming a trimmed message changes nothing |
| `JsText.ReplaceFirst` | file.js:109 | `replace` with a string pattern substitutes only the first occurrence of the pattern and leaves a string without it unchanged |
| `JsText.Or` | logger.js:55 | the logical or of two strings is the first when it is a non-empty string, else the second; it is truthy exactly when one of them is |
| `JsText.IndexOf` | file.js:109 | the occurrence `replace` substitutes is the first position where the pattern occurs, or none when it occurs nowhere |
| `JsNumber.ParseIntOfIntToString` | logger.js:57 | `parseInt` reads back the integer a template literal renders, also when text such as `ms` follows that cannot extend the number |
| `JsNumber.ParseIntSkipsWhitespace` | app.js:26 | `parseInt` of the `content-length` value ignores any leading white space |
| `JsNumber.ParseIntNoLeadingDigit` | app.js:26 | a value whose first character is neither white space, a sign nor a digit parses to NaN |
| `JsNumber.ParseInt` | app.js:26 | `parseInt` yields a number only when a decimal digit follows the leading white space and at most one sign, and a negative number only after a minus sign |
| `JsNumber.IntToString` | logger.js:57 | an integer renders as decimal digits without leading zeros, after a minus sign exactly when it is negative |
| `JsNumber.ParseIntWithoutDigits` | app.js:26 | white space, at most one sign, then no digit (`"- 5"`, `" x"`, `"+"`, `"-x"`) parses to NaN |
| `JsNumber.ParseIntBareHexPrefix` | app.js:26 | a `0x` or `0X` prefix followed by no hexadecimal digit parses to NaN, with or without white space and a sign before it |
| `Http.HeaderValue` | app.js:26 | `req.headers[name]` is the header's value when it is present, and undefined otherwise |
| `Http.DeclaredLength` | app.js:26 | a `content-length` header holding a rendered integer declares a body exactly when that integer is positive |
| `Http.NoDeclaredLength` | app.js:26 | an absent or empty header, or one starting with neither white space, a sign nor a digit, declares no body |
| `Http.DigitlessLength` | app.js:26 | a header with no digit after its white space and at most one sign declares no body |
| `Http.HasQueryOrParams` | app.js:19 | the check is true exactly when the query string or the path parameters hold at least one key |
| `Http.DeclaresBody` | app.js:26 | a body is declared only by a present `content-length` whose text, after white space, starts with a digit or with `+` and a digit, never with a minus sign |
| `Http.SetNoCacheHeaders` | app.js:13-15 | the three `res.set` calls add `Cache-Control: no-cache, no-store, must-revalidate`, `Pragma: no-cache` and `X-Content-Type-Options: nosniff` and change nothing else |
| `Http.RespondNoCache` | app.js:13-16 | a rejected or health response gets the header triple, the given status and an empty body, and ends |
| `Http.Response.Set` | app.js:13 | `res.set` replaces one header and keeps the others |
| `Http.Response.Status` | app.js:16 | `res.status` sets the status code |
| `Http.Response.End` | app.js:16 | `res.end` and `res.json` record what is sent and mark the response ended |
| `Services.Backend.Authenticate` | app.js:11 | `authenticate` is recorded in the trace and resolves exactly when the database is reachable |
| `Services.Backend.CreateHealthCheck` | app.js:33 | the insert is recorded and adds one `HealthCheck` row exactly when it succeeds |
| `Services.Backend.Upload` | file.js:49 | `s3.upload` is recorded with bucket, key, bytes and content type, and stores the object under the key only when it resolves |
| `Services.Backend.HeadObject` | file.js:56 | `headObject` is recorded and resolves only for a key present in the bucket |
| `Services.Backend.CreateMetadata` | file.js:58-63 | `Metadata.create` is recorded and adds the row only when the insert succeeds and the id is not yet a key |
| `Services.Backend.FindByPk` | file.js:76 | `findByPk` is recorded and throws, or yields the row with that key (or null) without changing any store |
| `Services.Backend.DeleteObject` | file.js:112 | `deleteObject` is recorded and removes the key from the bucket when it resolves |
| `Services.Backend.Destroy` | file.js:113 | `destroy` is recorded and removes the row when it resolves |
| `Health.Validate` | app.js:12-31 | the request is refused for its method exactly when it is not GET, for its keys exactly when it is a GET with query or params keys, for its body exactly when it is a GET without keys that declares a body, and otherwise probed |
| `Health.HealthStatus` | app.js:9-55 | the status is one of 200, 400, 405, 503; 503 whenever `authenticate` fails, whatever the request; otherwise 405 for any method but GET, then 400 for query or params keys, then 400 for a positive `content-length`; 200 exactly when every check passed and the insert succeeded, 503 when the insert failed |
| `Health.DeclaredLengthDecides` | app.js:26-45 | for a clean GET, a rendered integer `content-length` decides by its sign: positive gives 400, zero or negative reaches the insert (200 or 503) |
| `Health.HealthCalls` | app.js:11-33 | the trace is one or two calls: `authenticate` first, then the `HealthCheck` insert exactly when the database answered and every check passed |
| `Health.HealthCallsShape` | app.js:11-33 | a probe's trace holds exactly one `HealthCheck` insert when the database answered and every check passed, and none otherwise |
| `Health.Healthz` | app.js:9-55 | the handler's trace is `authenticate` plus the insert when the checks pass; one row is added exactly when it answers 200; its status is `HealthStatus`; it always sets the header triple and ends with an empty body |
| `FileRoutes.StorageKey` | file.js:44 | every object key lies under the `uploads/` prefix |
| `FileRoutes.FileUrl` | file.js:40 | the url column is the bucket followed by `/uploads/<id>-<name>` |
| `FileRoutes.KeyOfUrl` | file.js:109 | a url that starts with `<bucket>/` yields the rest of it; a url without `<bucket>/` anywhere is kept as it is |
| `FileRoutes.FileUrlIsBucketAndKey` | file.js:40-44 | the stored url is the bucket, a slash and the object key |
| `FileRoutes.KeyOfFileUrl` | file.js:109 | removing the first `<bucket>/` from the url built at line 40 yields exactly the key built at line 44 |
| `FileRoutes.ValidateUpload` | file.js:18-36 | the upload is refused for its method exactly when it is not POST, for its keys exactly when it is a POST with query or params keys, for the missing file exactly when it is a POST without keys or file, and otherwise stored with `req.file` |
| `FileRoutes.UploadRecord` | file.js:58-63 | the row written carries the fresh id, the original file name, the upload time and the url `<bucket>/` + key |
| `FileRoutes.StoreCalls` | file.js:44-63 | an accepted upload calls `s3.upload` with bucket, key, bytes and content type first, `headObject` on the same key exactly when that resolved, and `Metadata.create` with the row last, exactly when both resolved |
| `FileRoutes.UploadCalls` | file.js:16-63 | a rejected request makes no call; an accepted one makes exactly the calls of `StoreCalls` for its file |
| `FileRoutes.UploadStatus` | file.js:16-72 | the status is one of 201, 400, 405, 500: 405 for any method but POST, then 400 for query or params keys, then 400 without a file; 201 exactly when all three calls succeeded, 500 when any of them failed |
| `FileRoutes.PostFile` | file.js:16-72 | the handler's trace and status are as above; 405 and 400 for keys come with the header triple and an empty body; a missing file gives `{error: "No file uploaded."}` without cache headers; no rejected request touches a store; a failure after `s3.upload` leaves the object stored with no row; 201 returns the created row, 500 `{error: "File upload failed."}` |
| `FileRoutes.StoreUpload` | file.js:37-70 | an accepted upload's trace is `s3.upload`, then `headObject` if it resolved, then `Metadata.create` if that resolved; the object stays stored whenever `s3.upload` resolved, even when a later call fails; the row is added and 201 returned with it exactly when all three succeeded, otherwise 500 `{error: "File upload failed."}` |
| `FileRoutes.ByIdDecision` | file.js:77-106 | the chain as written always takes the 405 branch, whatever the method, keys, headers and found row |
| `FileRoutes.RoutedRequestHasParams` | file.js:84 | a request routed to `/file/:id` always has a path parameter, so this guard is true for it as well |
| `FileRoutes.RespondById` | file.js:77-119 | each branch of the chain answers as written (405/400 with the header triple, 404 `File not found.`, 200 with the row); the delete branch calls `deleteObject` on the key derived from the url, then `destroy` only if that resolved, and answers 200 with the row, or 500 `Error deleting file.` |
| `FileRoutes.FileById` | file.js:74-121 | only `findByPk` runs; if it throws the answer is 500 `{error: "Error deleting file."}`, otherwise 405 with the header triple and an empty body; no object and no row is ever deleted |
| `Logging.StreamWrite` | logger.js:41-45 | each stream line is logged once, at info, trimmed |
| `Logging.LevelFor` | logger.js:63-69 | status ≥ 500 is logged at error, 400–499 at warn, anything lower at info |
| `Logging.RequestUrl` | logger.js:55 | the logged url is `originalUrl` when it is a non-empty string, otherwise `url` |
| `Logging.MessagePrefix` | logger.js:63-68 | the fixed text each level's request message starts with; `LevelOfPrefixed` shows the three are told apart |
| `Logging.RequestMessage` | logger.js:64-68 | a request message is the level's prefix, the method, a space and the url; `RequestMessageRoundTrip` reads it back |
| `Logging.LevelOfPrefixed` | logger.js:64-68 | the three message prefixes are told apart: a message built with a level's prefix is recognised as that level's |
| `Logging.RequestMessageRoundTrip` | logger.js:64-68 | a request message is the level's prefix, the method, a space and the url, and can be read back into exactly those three |
| `Logging.ResponseTime` | logger.js:52-57 | the `responseTime` field is the rendered elapsed time followed by `ms`, and `parseInt` reads the elapsed time back from it |
| `Logging.ClientIp` | logger.js:59 | the `ip` field is `req.ip` when it is a non-empty string, else the `x-forwarded-for` header when it is one, else the socket's remote address, whatever it holds |
| `Logging.RequestEntry` | logger.js:52-69 | the entry's level is the one `LevelFor` chooses for the status; its message is that level's prefix, the method, a space and the url; its fields carry the method, the url, the status, the `user-agent` header, the client address, and a response time from which `parseInt` reads the elapsed time back |
| `Logging.RequestLogger.constructor` | logger.js:47-75 | the middleware captures the request, its response and the start time, and calls `next` exactly once |
| `Logging.RequestLogger.End` | logger.js:51-72 | each call of the wrapped `end` logs exactly one entry for the current status of the captured response and the elapsed time, then runs the original `end` on that response with the same content |
| `Logging.Logger.Log` | logger.js:64-68 | each `logger.error`, `logger.warn` or `logger.info` call appends exactly one entry with its level, message and fields |
| `Logging.ResultWord` | logger.js:83 | the result word is `successful` exactly when the result is truthy and `failed` exactly when it is not |
| `Logging.S3OperationEntry` | logger.js:78-85 | the S3 entry is an info entry whose message reads back as S3 and the operation and is never taken for a request message; its fields name the operation, the bucket and the key; its result is `successful` exactly when the result was truthy, and `failed` otherwise |
| `Logging.DbOperationEntry` | logger.js:88-95 | the database entry is an info entry whose message reads back as Database and the operation and is never taken for a request message; its fields name the operation, the model and the id; its result is `successful` exactly when the result was truthy, and `failed` otherwise |
| `Logging.OperationMessage` | logger.js:79-89 | the message is the store's name, a space, the operation and ` operation`; `OperationMessageRoundTrip` reads it back |
| `Logging.OperationMessageRoundTrip` | logger.js:79-89 | an operation message `S3 <operation> operation` or `Database <operation> operation` reads back into exactly its store and its operation |
| `Logging.OperationMessageInjective` | logger.js:79-89 | two operation messages are equal only when they name the same store and the same operation |
| `Logging.OperationMessageNotRequest` | logger.js:64-89 | no operation message starts with the prefix of a request message |
| `Logging.LogS3Operation` | logger.js:78-85 | `logS3Operation` appends exactly its entry to the log |
| `Logging.LogDatabaseOperation` | logger.js:88-95 | `logDatabaseOperation` appends exactly its entry to the log |

## Left out

- Express routing and multer's multipart parsing: a request arrives as a record with `req.file` already parsed or absent, and the route's `:id` parameter is a precondition of `FileById`.
- Headers that Express itself sets (`X-Powered-By`, the `Content-Type`, `Content-Length` and `ETag` of `res.json`/`res.end`), header-name case folding, and the JSON text of bodies: a body is an abstract value (nothing, an error object, a row).
- The order of `res.set`/`res.status`/`res.end` within one handler: only the final response is modelled.
- Calling `res.end` on a response that has already ended: `Http.Response.End` simply records the last content.
- The AWS SDK, Sequelize, `uuidv4` and the clock are oracle inputs. The model does not classify their errors: every rejection is a thrown exception, as the code treats it.
- The `beforeCreate` hooks of models/metadata.js and models/healthCheck.js read the clock again. The single clock input `now` stands for both readings, and models/*.js contribute only the record shape.
- Concurrency between requests: each handler runs to completion against the stores.
- Winston's transports, formats, `defaultMeta` and the colourised printf (logger.js:4-39); `errorLogger` (logger.js:98-110), which no shown route installs; the `console.error` calls; metrics.js (a StatsD client); index.js (startup and `listen`).
- JavaScript strings are UTF-16 code-unit sequences; the model's strings are sequences of Unicode code points.
- The `content-length` value is taken as any string. Node's HTTP parser would refuse some malformed values before the handler runs.
- `Logging.RequestLogger.constructor`: the reassignment of `res.end` is modelled as a separate object whose `End` is the replacement. Callers of the handlers call `Http.Response.End` directly, because no shown route installs the middleware.
- `JsText.ReplaceFirst`: the `$` substitution patterns of a replacement string are not modelled. The only replacement used is the empty string.
- `JsNumber.IntToString`: it renders integers in plain decimal only, and so does the round trip `JsNumber.ParseIntOfIntToString`. JavaScript renders magnitudes of 10^21 and above in exponent notation, which no response time reaches.
- `JsNumber.ParseInt` returns the exact integer where JavaScript returns a rounded double. The rounding never changes the sign, so the `> 0` test is exact.
- `JsNumber.ParseInt`: its contract states when a number results and when it is negative. The value read is fixed by its definition, and `JsNumber.ParseIntOfIntToString` proves it for rendered integers.
