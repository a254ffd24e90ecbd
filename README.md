# JSON ingestion pipeline — a verified model of its core

The pipeline moves a company document (`company`, `location`, and `departments → employees →
employee`) from a local JSON file into object storage, then from object storage into the
relational table `employee_details`, flattening it to one row per employee on the way. This
project models the three pieces of that pipeline that carry its logic, and proves what they
promise:

- **The transform** `flatten_json_file` (`flatten_json.dfy`, module `FlattenJson`). The parsed
  document is a datatype whose JSON objects are key/value sequences in document order, since
  Python dicts keep insertion order. Fields that `.get` may not find are `Option`s. The transform
  is written as the source writes it: two nested loops append one row per employee, and each
  row's `campaigns` field is overwritten when `projects` or `campaigns` is present. The method is
  proved equal to a specification function, `Flattened`. The lemmas about `Flattened` give the
  row count, the department-then-employee order, where every row comes from, the empty cases, and
  key uniqueness. They also show that the `", "`-joined `skills` and `campaigns` columns read back
  to the lists they were built from.
- **The load stage** `load_json_to_rds` (`load_json_to_rds.dfy`, module `RdsLoader`). It runs
  against an object store (`ObjectStore.S3Service`, a map from bucket and key to body) and the
  table (`EmployeeDetailsTable`, a sequence of rows). It fetches the configured object, flattens
  it, returns early on an empty result, appends the rows, and deletes the object only after the
  append. The method is proved equal to the function `LoadEffect`. That function's contract states
  the ordering of these effects, what each failure leaves behind, and that only a missing
  `s3.bucket`/`s3.key` setting escapes as an exception.
- **The upload stage** (`upload_to_s3.dfy`, module `UploadToS3`). `upload_file(config)` builds the
  key `os.path.join(prefix, "data_" + timestamp + ".json")`, uploads the local file through an
  `S3Uploader` bound to one bucket, and returns the key. The clock reading is a parameter. The
  lemmas show the three shapes a key can take and that the key ends in the 25-character file name.
  They also show that the key gives back its clock reading, so distinct clock readings give
  distinct keys.

Environment failures are boolean parameters: a failed download, append, delete or upload
transfer. The local filesystem is a map from path to body. An object or file body is either a
parsed document (`Body.Json`) or `Body.Malformed`, which stands for any content on which
`json.loads` or the transform raises. Documents with numbers or booleans where the model has strings,
`null` inside projects or campaigns, or a non-list `skills` are accepted by the source but lie
outside the model (see "Left out").

Behaviour of the code that a reader might expect to be otherwise, modelled as written:

- An empty transform result returns early and does **not** delete the object; it is left in the
  bucket rather than cleaned up.
- Failures after the configuration is read are caught and logged; they are not re-raised, so the
  scheduler sees the load succeed.
- `config["s3"]["bucket"]` and `config["s3"]["key"]` are read before the `try`. A missing setting
  therefore raises `KeyError` to the caller (`Outcome.ConfigKeyError`), so the function does
  return normally on every other path, but not on this one.
- Keys carry only the clock reading to the second, with no random suffix. Distinct clock readings
  give distinct keys (`DistinctTimestampsDistinctKeys`), but a repeated reading gives the same key
  (see "Left out").

## Model

| member | source | states |
|---|---|---|
| FlattenJson.FlattenJsonFile | data_pipeline_project/src/main/utils/flatten_json.py:5-40 | The rows the nested loops build are exactly `Flattened(doc)`, and there is one per employee listed in the document. |
| FlattenJson.Flattened | data_pipeline_project/src/main/utils/flatten_json.py:13-36 | The transform's result has one row per employee listed in the document, and is empty exactly when no department lists an employee. |
| FlattenJson.MakeRow | data_pipeline_project/src/main/utils/flatten_json.py:16-25 | A row copies the document's `company` and `location`, the department name and employee id keys, and the employee's `name` and `role`, each possibly missing, unchanged. |
| FlattenJson.MakeRowDecodes | data_pipeline_project/src/main/utils/flatten_json.py:16-34 | A row's `skills` column reads back to the employee's skills (a missing list reads back empty), and its `campaigns` column to the employee's reported activity, when the parts are unambiguous. |
| FlattenJson.SplitAtDepartment | data_pipeline_project/src/main/utils/flatten_json.py:14-36 | The rows of department i sit between the rows of the departments before it and those after it. |
| FlattenJson.FlattenCount | data_pipeline_project/src/main/utils/flatten_json.py:13-36 | The number of rows equals the sum, over departments, of the number of employees in each department's `employees` mapping. |
| FlattenJson.FlattenAppend | data_pipeline_project/src/main/utils/flatten_json.py:14-36 | The rows of a list of departments are the rows of its first part followed by the rows of the rest, so no rows are reordered or merged across departments. |
| FlattenJson.RowAt | data_pipeline_project/src/main/utils/flatten_json.py:14-36 | Employee j of department i gives the row at position (employees of departments before i) + j. Rows follow department order and then employee order, and nothing is sorted. |
| FlattenJson.RowsComeFromEmployees | data_pipeline_project/src/main/utils/flatten_json.py:14-36 | Every row is the row of some employee of some department of the document. |
| FlattenJson.RowsCarryDocumentFields | data_pipeline_project/src/main/utils/flatten_json.py:9-18 | Every row carries the document's `company` and `location` unchanged, including when they are missing. |
| FlattenJson.EmptyIffNoEmployees | data_pipeline_project/src/main/utils/flatten_json.py:11-15 | The result is empty exactly when no department lists an employee. This covers a document without `departments` and departments without `employees`, and none of these is an error. |
| FlattenJson.EmployeelessDepartmentAddsNoRows | data_pipeline_project/src/main/utils/flatten_json.py:15 | A department without `employees` contributes no rows: removing it leaves the result unchanged. |
| FlattenJson.RowKeysDistinct | data_pipeline_project/src/main/utils/flatten_json.py:14-20 | When every mapping has distinct keys, no two rows share a (`department`, `employee_id`) pair. |
| FlattenJson.DocumentRowKeysDistinct | data_pipeline_project/src/main/utils/flatten_json.py:14-20 | The same for a whole well-formed document. |
| FlattenJson.RowIdsAreEmployeeIds | data_pipeline_project/src/main/utils/flatten_json.py:14-20 | The rows' `employee_id` column is exactly the document's employee ids, department by department, in mapping order. |
| FlattenJson.DocumentEmployeeIdsDistinct | data_pipeline_project/src/main/utils/flatten_json.py:14-20 | `employee_id` alone is unique across the rows exactly when no id is listed twice in the document. Nothing checks this, so an id reused in two departments gives two rows with that id. |
| FlattenJson.Record | data_pipeline_project/src/main/utils/flatten_json.py:16-25 | A row has exactly the 8 fields `company, location, department, employee_id, name, role, skills, campaigns`, in the column order table `employee_details` is created with. |
| FlattenJson.SplitJoin | data_pipeline_project/src/main/utils/flatten_json.py:23 | Splitting a `Join` (`", "`-join) of comma-free parts on `", "` gives the parts back. |
| FlattenJson.JoinRoundTrip | data_pipeline_project/src/main/utils/flatten_json.py:23 | The `skills` column, a `", "`-join, decodes to exactly the skills list in order when every skill is a non-empty string without a comma. A missing list gives `""`, which decodes to the empty list. |
| FlattenJson.CampaignsRoundTrip | data_pipeline_project/src/main/utils/flatten_json.py:24-34 | The `campaigns` column that `CampaignsColumn` builds decodes to the employee's `projects` as (name, status) pairs in list order when `projects` is present, whatever `campaigns` holds. Otherwise it decodes to the `campaigns` pairs in mapping order, and to nothing when neither is present. This holds when labels have no `,` or `:` and values have no `,`. |
| FlattenJson.ProjectsExample | data_pipeline_project/src/main/utils/flatten_json.py:27-30 | `projects = [{"name": "Alpha", "status": "done"}]` gives `"Alpha: done"`, and a `campaigns` field beside it is ignored. |
| FlattenJson.CampaignsExample | data_pipeline_project/src/main/utils/flatten_json.py:31-34 | `campaigns = {"Q1": "active"}` without `projects` gives `"Q1: active"`. |
| FlattenJson.AcmeExample | data_pipeline_project/src/main/utils/flatten_json.py:9-36 | The one-department, one-employee Acme document gives exactly the row `("Acme", "NY", "Eng", "E1", "Jo", "Dev", "Go, SQL", "")`. |
| RdsLoader.SourceObject | data_pipeline_project/src/main/db/load_json_to_rds.py:9-10 | An object is named exactly when section `s3` has both `bucket` and `key`, and it is that bucket and key; otherwise the read raises. |
| RdsLoader.LoadEffect | data_pipeline_project/src/main/db/load_json_to_rds.py:8-47 | Only a missing `s3.bucket`/`s3.key` raises. The table gains exactly the flatten of the downloaded document, appended after the old rows, and only when the append succeeds. The store loses the configured object, and nothing else, only after a successful non-empty append. An empty result changes nothing. A failed append keeps the object. A missing object or malformed content changes nothing. |
| RdsLoader.LoadJsonToRds | data_pipeline_project/src/main/db/load_json_to_rds.py:8-47 | The fetch, flatten, empty-skip, append and delete steps, with the catch-all handler, leave exactly the outcome, store and table that `LoadEffect` gives. The object read and the object deleted have the same bucket and key. |
| RdsLoader.EmployeeDetailsTable.AppendRows | data_pipeline_project/src/main/db/load_json_to_rds.py:33-39 | An `if_exists="append"` insert either puts all the new rows after the old ones or changes nothing. |
| UploadToS3.Timestamp | data_pipeline_project/src/main/s3/upload_to_s3.py:31 | `%Y%m%d_%H%M%S` gives 15 characters: 8 digits, `_`, then 6 digits. |
| UploadToS3.TimestampRoundTrip | data_pipeline_project/src/main/s3/upload_to_s3.py:31 | The timestamp string determines the clock reading it was formatted from. |
| UploadToS3.FileName | data_pipeline_project/src/main/s3/upload_to_s3.py:33 | The file-name part is 25 characters long, starts with `data_` and ends with `.json`. |
| UploadToS3.PathJoin | data_pipeline_project/src/main/s3/upload_to_s3.py:33 | POSIX `os.path.join` of two components: an absolute second part replaces the first. Otherwise the result starts with the first part and ends with the second. |
| UploadToS3.S3Key | data_pipeline_project/src/main/s3/upload_to_s3.py:31-33 | For any prefix, the key starts with the prefix and ends with `"data_" + ts + ".json"`. |
| UploadToS3.KeyShape | data_pipeline_project/src/main/s3/upload_to_s3.py:32-33 | An empty prefix gives exactly the file name. A prefix not ending in `/` gets one `/` before the file name. A prefix ending in `/` gets no extra separator. |
| UploadToS3.KeyRoundTrip | data_pipeline_project/src/main/s3/upload_to_s3.py:31-33 | Whatever the prefix, the last 25 characters of the key give back the clock reading. |
| UploadToS3.DistinctTimestampsDistinctKeys | data_pipeline_project/src/main/s3/upload_to_s3.py:31-33 | Distinct clock readings give distinct keys, for the same prefix or different ones. |
| UploadToS3.S3Uploader.constructor | data_pipeline_project/src/main/s3/upload_to_s3.py:9-16 | The uploader keeps the given bucket name and the client; credentials and region only configure the client. |
| UploadToS3.S3Uploader.UploadFile | data_pipeline_project/src/main/s3/upload_to_s3.py:18-24 | The local file is stored under exactly the given key in the uploader's own bucket. On a missing file or a failed transfer, the error is re-raised and the store is unchanged. |
| UploadToS3.Settings | data_pipeline_project/src/main/s3/upload_to_s3.py:28-40 | The settings are read exactly when `local.json_file_path` and the four `aws` settings the uploader needs are all present. They are that path and bucket, and the prefix is `aws.s3_key_prefix` or `""` when absent. |
| UploadToS3.UploadFile | data_pipeline_project/src/main/s3/upload_to_s3.py:26-44 | The returned key is `S3Key(prefix, now)` with the prefix defaulting to `""`, and it is exactly the key the file was stored under in the configured bucket. A missing setting, a missing local file or a failed upload returns no key and leaves the store unchanged. |

## Left out

- Airflow DAG wiring is not modelled: operators, XCom hand-off of the key, the debug task, config-file loading and archiving. The DAG's three-argument call to the two-argument load function is not modelled either. The load function is modelled as written, reading the key from its configuration.
- `main.py` only sequences the other calls and is not part of this model.
- The connection and session handling in `rds_connector.py` is not part of this model. Neither is the `DROP`/`CREATE` SQL in `rds_table_manager.py`; only its column list is kept, as `EmployeeDetailsColumns`.
- JSON parsing and serialisation are not modelled. The document arrives parsed, and `Body.Malformed` stands for any content `json.loads` or the transform rejects. Such content includes JSON `null` where a list or mapping is expected, non-string skills, and a project without `name`/`status`.
- The document model takes every scalar field to be a string (or, for the four `.get` fields, missing) and `skills` to be a list. JSON `null` as `company`, `location`, `name` or `role` is inside the model: `.get` gives `None` for it exactly as for a missing key (flatten_json.py:9-10, 21-22), and that is the model's `None`. Some other content the transform accepts without raising is outside the model, neither `Body.Json` nor `Body.Malformed`:
  - numbers or booleans as `company`, `location`, `name` or `role`, which are copied into the row unconverted (flatten_json.py:17-22);
  - numbers, booleans or `null` as a project's `name`/`status` or as a campaign value, which the f-strings render as `5`, `True` or `None` (flatten_json.py:29, 33);
  - a string or mapping as `skills`, which `", ".join` iterates character by character or key by key (flatten_json.py:23), so `"Go"` becomes `"G, o"`.
- The temporary-file `json.dump`/`json.load` round trip inside the load stage is taken to be the identity on parsed documents, with no serialiser modelled. The temporary file that `delete=False` leaves behind is filesystem I/O and is also left out.
- pandas is not modelled: the DataFrame is the row sequence, `df.empty` is the empty sequence, and `to_sql` batching is one atomic append.
- The network behind boto3 is not modelled; each call either succeeds or fails by a parameter. `ObjectStore.S3Service` is that abstraction: `PutObject` stands for the client's `upload_file` (upload_to_s3.py:20), `GetObject` for `get_object` (load_json_to_rds.py:15) and `DeleteObject` for `delete_object` (load_json_to_rds.py:43). Each reads or updates the bucket/key map or fails, and has no row above because it models the library, not the pipeline. Creating the client (`boto3.client(...)`, upload_to_s3.py:11-16) can also raise, for example on a malformed `region_name`; the `S3Uploader` constructor never fails, and that failure is covered only by its effect, which is the same as `transferFails = true`: no key is returned and the store is unchanged.
- Logging (loguru) is left out; each log line is represented only by the `Outcome` it ends a run with.
- ConfigParser specifics are left out: default sections, interpolation and case-folding of option names. Configuration is a map of sections to string settings.
- `datetime.now()` is a parameter. `ValidDateTime` admits years 1000 to 9999 only, because `%Y` under glibc does not zero-pad earlier years. It checks each field's range but not the month's length.
- UploadToS3.DistinctTimestampsDistinctKeys: keys are unique only per distinct clock reading. `datetime.now()` is a naive local wall-clock reading, and it can repeat: two runs in the same second, a daylight-saving fall-back hour, or a clock set back. A repeated reading with the same prefix gives the same key, and the later upload overwrites the earlier object. The model takes the reading as a parameter and does not model the clock.
- Concurrency and scheduler retries are left out.
