/** The object store as the pipeline sees it through its client: objects addressed by bucket
    and key. Transport failures are a parameter of each call, since the network is outside the model. */
module ObjectStore {
  import opened Wrappers
  import opened FlattenJson

  datatype ObjectId = ObjectId(bucket: string, key: string)

  /** An object body or local file: a document that json.loads and the transform accept, or
      content on which either of them raises (not JSON, or JSON of the wrong shape). */
  datatype Body = Json(doc: Document) | Malformed

  datatype StoreError = NoSuchKey | TransferFailed

  class S3Service {
    var objects: map<ObjectId, Body>

    constructor (objects: map<ObjectId, Body>)
      ensures this.objects == objects
    {
      this.objects := objects;
    }

    /** Stores `body` under `id`, replacing any previous object, unless the transfer fails. */
    method PutObject(id: ObjectId, body: Body, transferFails: bool) returns (ok: bool)
      modifies this
      ensures ok == !transferFails
      ensures objects == if ok then old(objects)[id := body] else old(objects)
    {
      ok := !transferFails;
      if ok {
        objects := objects[id := body];
      }
    }

    /** Reads the object under `id`: NoSuchKey when it is absent. */
    method GetObject(id: ObjectId, transferFails: bool) returns (r: Result<Body, StoreError>)
      ensures r == if transferFails then Err(TransferFailed)
                   else if id in objects then Ok(objects[id]) else Err(NoSuchKey)
    {
      if transferFails {
        r := Err(TransferFailed);
      } else if id !in objects {
        r := Err(NoSuchKey);
      } else {
        r := Ok(objects[id]);
      }
    }

    /** Removes the object under `id`; removing an absent object succeeds and changes nothing. */
    method DeleteObject(id: ObjectId, transferFails: bool) returns (ok: bool)
      modifies this
      ensures ok == !transferFails
      ensures objects == if ok then old(objects) - {id} else old(objects)
    {
      ok := !transferFails;
      if ok {
        objects := objects - {id};
      }
    }
  }
}
