/**
 * The `/file` and `/file/:id` routes (file.js): where an upload's bytes and
 * its metadata row go, and what each request is answered with.
 */
module FileRoutes {
  import opened Wrappers
  import opened JsText
  import opened Models
  import opened Http
  import opened Services

  /** The object key of an upload (file.js:44, repeated at file.js:53). */
  function StorageKey(fileId: string, fileName: string): (key: string)
    ensures |key| > 8 && key[..8] == "uploads/"
  {
    "uploads/" + fileId + "-" + fileName
  }

  /** The `url` column of an upload (file.js:40). */
  function FileUrl(bucket: string, fileId: string, fileName: string): string {
    bucket + "/uploads/" + fileId + "-" + fileName
  }

  /** The stored url is the bucket, a slash, and the object key. */
  lemma FileUrlIsBucketAndKey(bucket: string, fileId: string, fileName: string)
    ensures FileUrl(bucket, fileId, fileName) == bucket + "/" + StorageKey(fileId, fileName)
  {
  }

  /** The key file.js:109 would derive from a stored url: its first `<bucket>/`
      removed. */
  function KeyOfUrl(bucket: string, url: string): (key: string)
    ensures OccursAt(url, bucket + "/", 0) ==> key == url[|bucket| + 1..]
    ensures (forall i :: 0 <= i ==> !OccursAt(url, bucket + "/", i)) ==> key == url
  {
    ReplaceFirst(url, bucket + "/", "")
  }

  /** Deriving the key back from the url written at upload gives exactly the key
      the object was uploaded under. */
  lemma KeyOfFileUrl(bucket: string, fileId: string, fileName: string)
    ensures KeyOfUrl(bucket, FileUrl(bucket, fileId, fileName)) == StorageKey(fileId, fileName)
  {
    var url := FileUrl(bucket, fileId, fileName);
    var pat := bucket + "/";
    FileUrlIsBucketAndKey(bucket, fileId, fileName);
    assert OccursAt(url, pat, 0);
    assert url[|pat|..] == StorageKey(fileId, fileName) by {
      assert url == pat + StorageKey(fileId, fileName);
    }
  }

  // ---------------------------------------------------------------- POST /file

  /** Where the checks of file.js:18-36 send an upload request. */
  datatype UploadCheck = RejectMethod | RejectParams | RejectNoFile | Store(file: UploadedFile)

  function ValidateUpload(req: Request): (c: UploadCheck)
    ensures c == RejectMethod <==> req.httpMethod != "POST"
    ensures c == RejectParams <==> req.httpMethod == "POST" && HasQueryOrParams(req)
    ensures c == RejectNoFile <==> req.httpMethod == "POST" && !HasQueryOrParams(req) && req.file.None?
    ensures c.Store? <==> req.httpMethod == "POST" && !HasQueryOrParams(req) && req.file.Some?
    ensures c.Store? ==> c.file == req.file.value
  {
    if req.httpMethod != "POST" then RejectMethod
    else if HasQueryOrParams(req) then RejectParams
    else if req.file.None? then RejectNoFile
    else Store(req.file.value)
  }

  /** What the environment supplies to one upload: the fresh `uuidv4()`, the
      clock reading `new Date()`, and whether each of the three awaited calls
      resolves. */
  datatype UploadEnv = UploadEnv(fileId: string, now: int, uploadOk: bool, headOk: bool, createOk: bool)

  /** The row an upload writes. */
  function UploadRecord(bucket: string, env: UploadEnv, file: UploadedFile): (m: Metadata)
    ensures m.id == env.fileId && m.fileName == file.originalname && m.uploadDate == env.now
    ensures m.url == bucket + "/" + StorageKey(env.fileId, file.originalname)
  {
    Metadata(env.fileId, file.originalname, FileUrl(bucket, env.fileId, file.originalname), env.now)
  }

  /** The collaborator calls an accepted upload makes: `s3.upload`, then
      `headObject` if it resolved, then `Metadata.create` if that resolved too. */
  function StoreCalls(bucket: string, env: UploadEnv, f: UploadedFile): (calls: seq<Call>)
    ensures var key := StorageKey(env.fileId, f.originalname);
      && 1 <= |calls| <= 3
      && calls[0] == S3Upload(bucket, key, f.buffer, f.mimetype)
      && (|calls| >= 2 <==> env.uploadOk)
      && (|calls| >= 2 ==> calls[1] == S3HeadObject(bucket, key))
      && (|calls| == 3 <==> env.uploadOk && env.headOk)
      && (|calls| == 3 ==> calls[2] == DbCreateMetadata(UploadRecord(bucket, env, f)))
  {
    var key := StorageKey(env.fileId, f.originalname);
    [S3Upload(bucket, key, f.buffer, f.mimetype)]
    + (if env.uploadOk then
         [S3HeadObject(bucket, key)]
         + (if env.headOk then [DbCreateMetadata(UploadRecord(bucket, env, f))] else [])
       else [])
  }

  /** The collaborator calls an upload request makes: none when it is rejected. */
  function UploadCalls(bucket: string, req: Request, env: UploadEnv): (calls: seq<Call>)
    ensures !ValidateUpload(req).Store? ==> calls == []
    ensures ValidateUpload(req).Store? ==> calls == StoreCalls(bucket, env, req.file.value)
  {
    match ValidateUpload(req)
    case Store(f) => StoreCalls(bucket, env, f)
    case _ => []
  }

  /** The status an upload is answered with. */
  function UploadStatus(req: Request, env: UploadEnv, created: bool): (status: int)
    ensures status in {201, 400, 405, 500}
    ensures req.httpMethod != "POST" ==> status == 405
    ensures req.httpMethod == "POST" && HasQueryOrParams(req) ==> status == 400
    ensures req.httpMethod == "POST" && !HasQueryOrParams(req) && req.file.None? ==> status == 400
    ensures status == 201 <==>
      ValidateUpload(req).Store? && env.uploadOk && env.headOk && created
    ensures status == 500 <==>
      ValidateUpload(req).Store? && !(env.uploadOk && env.headOk && created)
  {
    match ValidateUpload(req)
    case RejectMethod => 405
    case RejectParams => 400
    case RejectNoFile => 400
    case Store(_) => if env.uploadOk && env.headOk && created then 201 else 500
  }

  /** file.js:16-72: `POST /file` (any method reaches it). `Metadata.create` also
      fails when `env.fileId` is already a key of the table. */
  method PostFile(backend: Backend, req: Request, env: UploadEnv, res: Response)
    modifies backend`calls, backend`objects, backend`files
    modifies res`statusCode, res`headers, res`body, res`ended
    ensures backend.calls == old(backend.calls) + UploadCalls(backend.bucket, req, env)
    ensures var created := env.createOk && env.fileId !in old(backend.files);
      res.statusCode == UploadStatus(req, env, created)
    ensures res.ended
    ensures ValidateUpload(req) == RejectMethod || ValidateUpload(req) == RejectParams ==>
      res.headers == old(res.headers) + NoCacheHeaders && res.body == Empty
    ensures ValidateUpload(req) == RejectNoFile ==>
      res.headers == old(res.headers) && res.body == JsonError("No file uploaded.")
    ensures ValidateUpload(req).Store? ==>
      var f := ValidateUpload(req).file;
      var key := StorageKey(env.fileId, f.originalname);
      var record := UploadRecord(backend.bucket, env, f);
      && res.headers == old(res.headers)
      && backend.objects == (if env.uploadOk then old(backend.objects)[key := StoredObject(f.buffer, f.mimetype)]
                             else old(backend.objects))
      && backend.files == (if res.statusCode == 201 then old(backend.files)[env.fileId := record]
                           else old(backend.files))
      && res.body == (if res.statusCode == 201 then JsonRecord(record) else JsonError("File upload failed."))
    ensures !ValidateUpload(req).Store? ==>
      backend.objects == old(backend.objects) && backend.files == old(backend.files)
  {
    if req.httpMethod != "POST" {
      RespondNoCache(res, 405);
    } else if HasQueryOrParams(req) {
      RespondNoCache(res, 400);
    } else if req.file.None? {
      res.Status(400);
      res.End(JsonError("No file uploaded."));
    } else {
      StoreUpload(backend, req.file.value, env, res);
    }
  }

  /** file.js:37-70: an accepted upload. The object is stored before the row is
      written, so a failure after `s3.upload` leaves the object without a row. */
  method StoreUpload(backend: Backend, f: UploadedFile, env: UploadEnv, res: Response)
    modifies backend`calls, backend`objects, backend`files
    modifies res`statusCode, res`body, res`ended
    ensures backend.calls == old(backend.calls) + StoreCalls(backend.bucket, env, f)
    ensures var key := StorageKey(env.fileId, f.originalname);
      backend.objects == if env.uploadOk then old(backend.objects)[key := StoredObject(f.buffer, f.mimetype)]
                         else old(backend.objects)
    ensures var succeeded := env.uploadOk && env.headOk && env.createOk && env.fileId !in old(backend.files);
      var record := UploadRecord(backend.bucket, env, f);
      && res.statusCode == (if succeeded then 201 else 500)
      && backend.files == (if succeeded then old(backend.files)[env.fileId := record] else old(backend.files))
      && res.body == (if succeeded then JsonRecord(record) else JsonError("File upload failed."))
      && res.ended
  {
    var key := StorageKey(env.fileId, f.originalname);
    var record := UploadRecord(backend.bucket, env, f);
    var ok := backend.Upload(key, f.buffer, f.mimetype, env.uploadOk);
    if ok {
      ok := backend.HeadObject(key, env.headOk);
      if ok {
        ok := backend.CreateMetadata(record, env.createOk);
      }
    }
    if ok {
      res.Status(201);
      res.End(JsonRecord(record));
    } else {
      res.Status(500);
      res.End(JsonError("File upload failed."));
    }
  }

  // ------------------------------------------------------------ ANY /file/:id

  /** The branches of file.js:77-116, with the record `findByPk` returned. */
  datatype ByIdBranch =
    | RejectMethodById
    | RejectParamsById
    | RejectBodyById
    | NotFound
    | Read(record: Metadata)
    | Delete(record: Metadata)

  /** The chain of file.js:77-106 as written. Its first guard,
      `method !== 'GET' || method !== 'DELETE'`, holds for every method, so
      every request takes the 405 branch and the rest is unreachable. */
  function ByIdDecision(req: Request, found: Option<Metadata>): (b: ByIdBranch)
    ensures b == RejectMethodById
  {
    if req.httpMethod != "GET" || req.httpMethod != "DELETE" then RejectMethodById
    else if HasQueryOrParams(req) then RejectParamsById
    else if DeclaresBody(req) then RejectBodyById
    else match found
      case None => NotFound
      case Some(record) => if req.httpMethod == "GET" then Read(record) else Delete(record)
  }

  /** The second guard is dead as well: a request routed to `/file/:id` always
      has the `id` path parameter, so file.js:84 would answer 400 even if the
      first guard were written with `&&`. */
  lemma RoutedRequestHasParams(req: Request)
    requires "id" in req.params
    ensures HasQueryOrParams(req)
  {
    assert "id" in req.params.Keys;
  }

  /** What the environment supplies to a by-id request: whether `findByPk`,
      `deleteObject` and `destroy` resolve. */
  datatype ByIdEnv = ByIdEnv(findOk: bool, deleteOk: bool, destroyOk: bool)

  /** file.js:78-116 and the catch at file.js:117-119: carries out one branch of
      the chain. The delete branch removes the object under the key derived
      from the record's url, then the row. */
  method RespondById(backend: Backend, branch: ByIdBranch, env: ByIdEnv, res: Response)
    modifies backend`calls, backend`objects, backend`files
    modifies res`statusCode, res`headers, res`body, res`ended
    ensures res.ended
    ensures !branch.Delete? ==>
      backend.calls == old(backend.calls) && backend.objects == old(backend.objects)
      && backend.files == old(backend.files)
    ensures branch == RejectMethodById ==>
      res.statusCode == 405 && res.headers == old(res.headers) + NoCacheHeaders && res.body == Empty
    ensures branch == RejectParamsById || branch == RejectBodyById ==>
      res.statusCode == 400 && res.headers == old(res.headers) + NoCacheHeaders && res.body == Empty
    ensures branch == NotFound ==>
      res.statusCode == 404 && res.headers == old(res.headers) && res.body == JsonError("File not found.")
    ensures branch.Read? ==>
      res.statusCode == 200 && res.headers == old(res.headers) && res.body == JsonRecord(branch.record)
    ensures branch.Delete? ==>
      var key := KeyOfUrl(backend.bucket, branch.record.url);
      var id := branch.record.id;
      && backend.calls == old(backend.calls) + [S3DeleteObject(backend.bucket, key)]
                          + (if env.deleteOk then [DbDestroy(id)] else [])
      && backend.objects == (if env.deleteOk then old(backend.objects) - {key} else old(backend.objects))
      && backend.files == (if env.deleteOk && env.destroyOk then old(backend.files) - {id}
                           else old(backend.files))
      && res.headers == old(res.headers)
      && res.statusCode == (if env.deleteOk && env.destroyOk then 200 else 500)
      && res.body == (if env.deleteOk && env.destroyOk then JsonRecord(branch.record)
                      else JsonError("Error deleting file."))
  {
    match branch
    case RejectMethodById =>
      RespondNoCache(res, 405);
    case RejectParamsById =>
      RespondNoCache(res, 400);
    case RejectBodyById =>
      RespondNoCache(res, 400);
    case NotFound =>
      res.Status(404);
      res.End(JsonError("File not found."));
    case Read(record) =>
      res.Status(200);
      res.End(JsonRecord(record));
    case Delete(record) =>
      var key := KeyOfUrl(backend.bucket, record.url);
      var ok := backend.DeleteObject(key, env.deleteOk);
      if ok {
        ok := backend.Destroy(record.id, env.destroyOk);
      }
      if ok {
        res.Status(200);
        res.End(JsonRecord(record));
      } else {
        res.Status(500);
        res.End(JsonError("Error deleting file."));
      }
  }

  /** file.js:74-121: any method on `/file/:id`. Only `findByPk` ever runs:
      when it throws the answer is 500, otherwise 405 with the header triple;
      no object or row is ever deleted. */
  method FileById(backend: Backend, req: Request, env: ByIdEnv, res: Response)
    requires "id" in req.params
    modifies backend`calls, backend`objects, backend`files
    modifies res`statusCode, res`headers, res`body, res`ended
    ensures backend.calls == old(backend.calls) + [DbFindByPk(req.params["id"])]
    ensures backend.objects == old(backend.objects) && backend.files == old(backend.files)
    ensures res.statusCode == (if env.findOk then 405 else 500)
    ensures res.ended
    ensures env.findOk ==> res.headers == old(res.headers) + NoCacheHeaders && res.body == Empty
    ensures !env.findOk ==> res.headers == old(res.headers) && res.body == JsonError("Error deleting file.")
  {
    var thrown, found := backend.FindByPk(req.params["id"], env.findOk);
    if thrown {
      res.Status(500);
      res.End(JsonError("Error deleting file."));
    } else {
      RespondById(backend, ByIdDecision(req, found), env, res);
    }
  }
}
