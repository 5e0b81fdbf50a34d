/**
 * The collaborators the handlers await: the S3 bucket and the database
 * reached through Sequelize. Each call's outcome (does it throw?) is an
 * input; the calls are recorded, in the order issued, in `calls`.
 */
module Services {
  import opened Wrappers
  import opened Models

  datatype Call =
    | DbAuthenticate
    | DbCreateHealthCheck
    | S3Upload(bucket: string, key: string, body: seq<bv8>, contentType: string)
    | S3HeadObject(bucket: string, key: string)
    | DbCreateMetadata(record: Metadata)
    | DbFindByPk(id: string)
    | S3DeleteObject(bucket: string, key: string)
    | DbDestroy(id: string)

  class Backend {
    /** `process.env.S3_BUCKET`. */
    const bucket: string
    /** The bucket's objects by key. */
    var objects: map<string, StoredObject>
    /** The `Metadata` table by primary key. */
    var files: map<string, Metadata>
    /** Number of rows in the `HealthCheck` table. */
    var healthChecks: nat
    /** Every collaborator call, oldest first. */
    var calls: seq<Call>

    constructor (bucket: string)
      ensures this.bucket == bucket
      ensures objects == map[] && files == map[] && healthChecks == 0 && calls == []
    {
      this.bucket := bucket;
      objects, files, healthChecks, calls := map[], map[], 0, [];
    }

    /** `db.sequelize.authenticate()`: resolves when the database is reachable. */
    method Authenticate(reachable: bool) returns (ok: bool)
      modifies this`calls
      ensures ok == reachable
      ensures calls == old(calls) + [DbAuthenticate]
    {
      calls := calls + [DbAuthenticate];
      ok := reachable;
    }

    /** `HealthCheck.create({})`: adds one row unless the insert fails. */
    method CreateHealthCheck(succeeds: bool) returns (ok: bool)
      modifies this`calls, this`healthChecks
      ensures ok == succeeds
      ensures calls == old(calls) + [DbCreateHealthCheck]
      ensures healthChecks == old(healthChecks) + (if ok then 1 else 0)
    {
      calls := calls + [DbCreateHealthCheck];
      ok := succeeds;
      if ok {
        healthChecks := healthChecks + 1;
      }
    }

    /** `s3.upload({Bucket, Key, Body, ContentType}).promise()`: stores the object
      under `key`, replacing any earlier one, unless the call fails. */
    method Upload(key: string, body: seq<bv8>, contentType: string, succeeds: bool) returns (ok: bool)
      modifies this`calls, this`objects
      ensures ok == succeeds
      ensures calls == old(calls) + [S3Upload(bucket, key, body, contentType)]
      ensures objects == if ok then old(objects)[key := StoredObject(body, contentType)] else old(objects)
    {
      calls := calls + [S3Upload(bucket, key, body, contentType)];
      ok := succeeds;
      if ok {
        objects := objects[key := StoredObject(body, contentType)];
      }
    }

    /** `s3.headObject({Bucket, Key}).promise()`: rejects when the object is
      missing or the call fails. */
    method HeadObject(key: string, succeeds: bool) returns (ok: bool)
      modifies this`calls
      ensures ok == (succeeds && key in objects)
      ensures calls == old(calls) + [S3HeadObject(bucket, key)]
    {
      calls := calls + [S3HeadObject(bucket, key)];
      ok := succeeds && key in objects;
    }

    /** `Metadata.create(record)`: inserts the row; rejects when the insert fails
      or the primary key is taken. */
    method CreateMetadata(record: Metadata, succeeds: bool) returns (ok: bool)
      modifies this`calls, this`files
      ensures ok == (succeeds && record.id !in old(files))
      ensures calls == old(calls) + [DbCreateMetadata(record)]
      ensures files == if ok then old(files)[record.id := record] else old(files)
    {
      calls := calls + [DbCreateMetadata(record)];
      ok := succeeds && record.id !in files;
      if ok {
        files := files[record.id := record];
      }
    }

    /** `Metadata.findByPk(id)`: throws when the query fails, otherwise yields the
      row with that key or null. */
    method FindByPk(id: string, succeeds: bool) returns (thrown: bool, found: Option<Metadata>)
      modifies this`calls
      ensures thrown == !succeeds
      ensures found == if succeeds && id in files then Some(files[id]) else None
      ensures calls == old(calls) + [DbFindByPk(id)]
    {
      calls := calls + [DbFindByPk(id)];
      thrown := !succeeds;
      found := if succeeds && id in files then Some(files[id]) else None;
    }

    /** `s3.deleteObject({Bucket, Key}).promise()`: removes the object (S3 reports
      success for a missing key too) unless the call fails. */
    method DeleteObject(key: string, succeeds: bool) returns (ok: bool)
      modifies this`calls, this`objects
      ensures ok == succeeds
      ensures calls == old(calls) + [S3DeleteObject(bucket, key)]
      ensures objects == if ok then old(objects) - {key} else old(objects)
    {
      calls := calls + [S3DeleteObject(bucket, key)];
      ok := succeeds;
      if ok {
        objects := objects - {key};
      }
    }

    /** `file.destroy()`: deletes the row unless the call fails. */
    method Destroy(id: string, succeeds: bool) returns (ok: bool)
      modifies this`calls, this`files
      ensures ok == succeeds
      ensures calls == old(calls) + [DbDestroy(id)]
      ensures files == if ok then old(files) - {id} else old(files)
    {
      calls := calls + [DbDestroy(id)];
      ok := succeeds;
      if ok {
        files := files - {id};
      }
    }
  }
}
