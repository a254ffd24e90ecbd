/** The load stage: fetch the configured object, flatten it, skip an empty result, append the rows
    to table employee_details, and delete the object only after the append succeeded. Every failure
    after the configuration is read is caught and logged. */
module RdsLoader {
  import opened Wrappers
  import opened Config
  import opened FlattenJson
  import opened ObjectStore

  /** The external failures one run may meet: the download, the append and the delete. */
  datatype Faults = Faults(getFails: bool, appendFails: bool, deleteFails: bool)

  /** What the catch-all handler logs. */
  datatype Failure = MissingObject | DownloadFailed | MalformedDocument | AppendFailed | DeleteFailed

  /** How a run ends. ConfigKeyError is the KeyError raised to the caller; every other outcome
      is a normal return after the log line it names. */
  datatype Outcome =
    | Deleted(count: nat)
    | SkippedEmpty
    | Logged(failure: Failure)
    | ConfigKeyError

  /** A run's outcome together with the store and table it leaves behind. */
  datatype Effect = Effect(outcome: Outcome, objects: map<ObjectId, Body>, table: seq<Row>)

  /** `config["s3"]["bucket"]` and `config["s3"]["key"]`, read before the try block. */
  function SourceObject(config: Config): (r: Option<ObjectId>)
    ensures r.Some? <==> "s3" in config && "bucket" in config["s3"] && "key" in config["s3"]
    ensures r.Some? ==> r.value.bucket == config["s3"]["bucket"] && r.value.key == config["s3"]["key"]
  {
    match (Lookup(config, "s3", "bucket"), Lookup(config, "s3", "key"))
    case (Some(bucket), Some(key)) => Some(ObjectId(bucket, key))
    case _ => None
  }

  /** The run downloads and parses a document: the configuration names an object, the download
      succeeds, the object exists and its body is a document. */
  predicate Downloads(config: Config, objects: map<ObjectId, Body>, faults: Faults) {
    SourceObject(config).Some? && !faults.getFails &&
    SourceObject(config).value in objects && objects[SourceObject(config).value].Json?
  }

  function DownloadedDoc(config: Config, objects: map<ObjectId, Body>, faults: Faults): Document
    requires Downloads(config, objects, faults)
  {
    objects[SourceObject(config).value].doc
  }

  /** One run of load_json_to_rds against a store and a table. */
  function LoadEffect(config: Config, objects: map<ObjectId, Body>, table: seq<Row>, faults: Faults): (e: Effect)
    // Only a configuration without s3.bucket or s3.key makes the function raise.
    ensures e.outcome == ConfigKeyError <==> SourceObject(config).None?
    // The table gains exactly the flattened document, and only when the append succeeds.
    ensures e.table == if Downloads(config, objects, faults) && !faults.appendFails
                       then table + Flattened(DownloadedDoc(config, objects, faults)) else table
    // The store loses the configured object, and nothing else, exactly when the rows were non-empty
    // and both the append and the delete succeeded.
    ensures e.objects == if Downloads(config, objects, faults) && !faults.appendFails && !faults.deleteFails
                            && Flattened(DownloadedDoc(config, objects, faults)) != []
                         then objects - {SourceObject(config).value} else objects
    // Deletion only ever follows a successful, non-empty append.
    ensures e.objects != objects ==>
              Downloads(config, objects, faults) &&
              Flattened(DownloadedDoc(config, objects, faults)) != [] &&
              e.table == table + Flattened(DownloadedDoc(config, objects, faults))
    // An empty transform result is skipped and changes nothing.
    ensures e.outcome == SkippedEmpty <==>
              Downloads(config, objects, faults) && Flattened(DownloadedDoc(config, objects, faults)) == []
    ensures e.outcome == SkippedEmpty ==> e.objects == objects && e.table == table
    // A failed append leaves the object in the store and the table as it was.
    ensures faults.appendFails ==> e.objects == objects && e.table == table
    // Deleted reports the rows appended, and is reported exactly when the object went away.
    ensures e.outcome.Deleted? <==> e.objects != objects
    ensures e.outcome.Deleted? ==> |e.table| == |table| + e.outcome.count
  {
    match SourceObject(config)
    case None => Effect(ConfigKeyError, objects, table)
    case Some(id) =>
      if faults.getFails then Effect(Logged(DownloadFailed), objects, table)
      else if id !in objects then Effect(Logged(MissingObject), objects, table)
      else match objects[id]
        case Malformed => Effect(Logged(MalformedDocument), objects, table)
        case Json(doc) =>
          var rows := Flattened(doc);
          if rows == [] then Effect(SkippedEmpty, objects, table)
          else if faults.appendFails then Effect(Logged(AppendFailed), objects, table)
          else if faults.deleteFails then Effect(Logged(DeleteFailed), objects, table + rows)
          else Effect(Deleted(|rows|), objects - {id}, table + rows)
  }

  /** Table employee_details as the rows it holds, in insertion order. */
  class EmployeeDetailsTable {
    var rows: seq<Row>

    constructor (rows: seq<Row>)
      ensures this.rows == rows
    {
      this.rows := rows;
    }

    /** `df.to_sql(..., if_exists="append")`, taken as atomic: all rows or none. */
    method AppendRows(newRows: seq<Row>, fails: bool) returns (ok: bool)
      modifies this
      ensures ok == !fails
      ensures rows == if ok then old(rows) + newRows else old(rows)
    {
      ok := !fails;
      if ok {
        rows := rows + newRows;
      }
    }
  }

  /** load_json_to_rds(config, db_connection): the effects in the order the source performs them,
      with an early return on an empty result and the catch-all handler as Logged outcomes. */
  method LoadJsonToRds(config: Config, s3: S3Service, db: EmployeeDetailsTable, faults: Faults)
    returns (outcome: Outcome)
    modifies s3, db
    ensures Effect(outcome, s3.objects, db.rows) == LoadEffect(config, old(s3.objects), old(db.rows), faults)
  {
    var bucket := Lookup(config, "s3", "bucket");
    var key := Lookup(config, "s3", "key");
    if bucket.None? || key.None? {
      return ConfigKeyError;
    }
    var id := ObjectId(bucket.value, key.value);

    var got := s3.GetObject(id, faults.getFails);
    if got.Err? {
      outcome := Logged(if got.error == NoSuchKey then MissingObject else DownloadFailed);
      return;
    }
    if got.value.Malformed? {
      return Logged(MalformedDocument);
    }
    var rows := FlattenJsonFile(got.value.doc);
    if rows == [] {
      return SkippedEmpty;
    }

    var appended := db.AppendRows(rows, faults.appendFails);
    if !appended {
      return Logged(AppendFailed);
    }
    var deleted := s3.DeleteObject(id, faults.deleteFails);
    if !deleted {
      return Logged(DeleteFailed);
    }
    outcome := Deleted(|rows|);
  }
}
