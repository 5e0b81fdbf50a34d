/**
 * Record shapes of the two stores: a row of the `Metadata` table
 * (models/metadata.js) and an object held in the S3 bucket.
 */
module Models {

  /** One row of the `Metadata` table. `fileName` and `uploadDate` are the
      columns `file_name` and `upload_date`; `url` is `<bucket>/<key>`, the
      object's location. Timestamps are milliseconds since the epoch. */
  datatype Metadata = Metadata(id: string, fileName: string, url: string, uploadDate: int)

  /** An object in the bucket: its bytes and the content type it was stored with. */
  datatype StoredObject = StoredObject(body: seq<bv8>, contentType: string)
}
