/**
 The one S3 bucket the script writes to, as a map from object key to object
 body, and the three object-store operations the script uses on it.
 */
module Storage {

  newtype Byte = x: int | 0 <= x < 256

  type Bytes = seq<Byte>

  /** An object body: text written by put_object, or the bytes of an uploaded file. */
  datatype Value = Text(text: string) | Binary(bytes: Bytes)

  type Objects = map<string, Value>

  /** The local files the script can upload, by path. */
  type LocalFiles = map<string, Bytes>

  class Bucket {
    var objects: Objects

    constructor (initial: Objects)
      ensures objects == initial
    {
      objects := initial;
    }

    /** upload_file: copies a local file to `key`; fails, leaving the bucket as it
        was, when there is no file at `path`. Overwrites whatever `key` held. */
    method UploadFile(local: LocalFiles, path: string, key: string) returns (ok: bool)
      modifies this
      ensures ok <==> path in local
      ensures ok ==> objects == old(objects)[key := Binary(local[path])]
      ensures !ok ==> objects == old(objects)
    {
      ok := path in local;
      if ok {
        objects := objects[key := Binary(local[path])];
      }
    }

    /** put_object (and the upload of bytes already in hand): an unconditional
        overwrite of `key`. */
    method PutObject(key: string, body: Value)
      modifies this
      ensures objects == old(objects)[key := body]
    {
      objects := objects[key := body];
    }

    /** delete_object: removes `key`; deleting a missing key is not an error. */
    method DeleteObject(key: string)
      modifies this
      ensures objects == old(objects) - {key}
    {
      objects := objects - {key};
    }
  }
}
