/** The upload stage: generate a timestamped object key under the configured prefix, upload the
    local JSON file under that key, and hand the key back to the caller. */
module UploadToS3 {
  import opened Wrappers
  import opened Config
  import opened ObjectStore

  // ---------------------------------------------------------------------------
  // Timestamps: strftime("%Y%m%d_%H%M%S")
  // ---------------------------------------------------------------------------

  /** A clock reading to the second, as datetime.now() gives it. */
  datatype DateTime = DateTime(year: nat, month: nat, day: nat, hour: nat, minute: nat, second: nat)

  /** Readings whose year %Y renders as four digits, with fields in their calendar ranges. */
  predicate ValidDateTime(t: DateTime) {
    1000 <= t.year <= 9999 && 1 <= t.month <= 12 && 1 <= t.day <= 31 &&
    t.hour < 24 && t.minute < 60 && t.second < 60
  }

  predicate IsDigit(c: char) {
    '0' <= c <= '9'
  }

  function Digit(d: nat): char
    requires d < 10
  {
    (48 + d) as char
  }

  function DigitValue(c: char): nat
    requires IsDigit(c)
  {
    c as int - 48
  }

  /** A number below 100 as two zero-padded digits (%m, %d, %H, %M, %S). */
  function Pad2(n: nat): (s: string)
    requires n < 100
    ensures |s| == 2 && IsDigit(s[0]) && IsDigit(s[1])
  {
    [Digit(n / 10), Digit(n % 10)]
  }

  /** The number two digits spell. */
  function Value2(s: string): nat
    requires |s| == 2 && IsDigit(s[0]) && IsDigit(s[1])
  {
    DigitValue(s[0]) * 10 + DigitValue(s[1])
  }

  /** `now.strftime("%Y%m%d_%H%M%S")`: 8 digits, an underscore, 6 digits. */
  function Timestamp(t: DateTime): (s: string)
    requires ValidDateTime(t)
    ensures |s| == 15 && s[8] == '_'
    ensures forall i :: 0 <= i < 15 && i != 8 ==> IsDigit(s[i])
  {
    Pad2(t.year / 100) + Pad2(t.year % 100) + Pad2(t.month) + Pad2(t.day) + "_" +
    Pad2(t.hour) + Pad2(t.minute) + Pad2(t.second)
  }

  /** Reads a timestamp of that form back into a clock reading. */
  function ParseTimestamp(s: string): Option<DateTime> {
    if |s| == 15 && s[8] == '_' && forall i :: 0 <= i < 15 && i != 8 ==> IsDigit(s[i]) then
      Some(DateTime(Value2(s[0..2]) * 100 + Value2(s[2..4]), Value2(s[4..6]), Value2(s[6..8]),
                    Value2(s[9..11]), Value2(s[11..13]), Value2(s[13..15])))
    else None
  }

  /** The timestamp determines the clock reading it was made from. */
  lemma TimestampRoundTrip(t: DateTime)
    requires ValidDateTime(t)
    ensures ParseTimestamp(Timestamp(t)) == Some(t)
  {
  }

  // ---------------------------------------------------------------------------
  // Object keys: os.path.join(prefix, f"data_{timestamp}.json")
  // ---------------------------------------------------------------------------

  /** `f"data_{timestamp}.json"`: 25 characters. */
  function FileName(t: DateTime): (name: string)
    requires ValidDateTime(t)
    ensures |name| == 25 && name[..5] == "data_" && name[20..] == ".json"
  {
    "data_" + Timestamp(t) + ".json"
  }

  function ParseFileName(name: string): Option<DateTime> {
    if |name| == 25 && name[..5] == "data_" && name[20..] == ".json" then ParseTimestamp(name[5..20])
    else None
  }

  /** POSIX `os.path.join(a, b)`: an absolute b replaces a; otherwise a '/' goes between them
      unless a is empty or already ends in '/'. */
  function PathJoin(a: string, b: string): (p: string)
    ensures |b| > 0 && b[0] == '/' ==> p == b
    ensures !(|b| > 0 && b[0] == '/') ==> a <= p && |b| <= |p| && p[|p| - |b|..] == b
  {
    if |b| > 0 && b[0] == '/' then b
    else if a == "" || a[|a| - 1] == '/' then a + b
    else a + "/" + b
  }

  /** The key upload_file generates for a prefix at clock reading t: it ends with the file name. */
  function S3Key(prefix: string, t: DateTime): (key: string)
    requires ValidDateTime(t)
    ensures prefix <= key && |key| >= 25 && key[|key| - 25..] == FileName(t)
  {
    PathJoin(prefix, FileName(t))
  }

  /** The three shapes of a key: no prefix, a prefix without a trailing '/', and one with it. */
  lemma KeyShape(prefix: string, t: DateTime)
    requires ValidDateTime(t)
    ensures prefix == "" ==> S3Key(prefix, t) == FileName(t)
    ensures prefix != "" && prefix[|prefix| - 1] != '/' ==> S3Key(prefix, t) == prefix + "/" + FileName(t)
    ensures prefix != "" && prefix[|prefix| - 1] == '/' ==> S3Key(prefix, t) == prefix + FileName(t)
  {
  }

  /** The clock reading a key was generated at, read from its last 25 characters. */
  function KeyTimestamp(key: string): Option<DateTime> {
    if |key| < 25 then None else ParseFileName(key[|key| - 25..])
  }

  /** Whatever the prefix, the key gives back the clock reading it was generated at. */
  lemma KeyRoundTrip(prefix: string, t: DateTime)
    requires ValidDateTime(t)
    ensures KeyTimestamp(S3Key(prefix, t)) == Some(t)
  {
    var name := FileName(t);
    assert name[5..20] == Timestamp(t);
    TimestampRoundTrip(t);
  }

  /** Distinct clock readings give distinct keys, whatever the prefixes. */
  lemma DistinctTimestampsDistinctKeys(prefix1: string, t1: DateTime, prefix2: string, t2: DateTime)
    requires ValidDateTime(t1) && ValidDateTime(t2) && t1 != t2
    ensures S3Key(prefix1, t1) != S3Key(prefix2, t2)
  {
    KeyRoundTrip(prefix1, t1);
    KeyRoundTrip(prefix2, t2);
  }

  // ---------------------------------------------------------------------------
  // The uploader and upload_file(config)
  // ---------------------------------------------------------------------------

  /** The exception an upload raises. */
  datatype UploadError = ConfigKeyMissing | LocalFileMissing | UploadFailed

  /** A client bound to one bucket. The credentials and region only configure the client. */
  class S3Uploader {
    const bucketName: string
    const s3: S3Service

    constructor (awsAccessKeyId: string, awsSecretAccessKey: string, regionName: string,
                 bucketName: string, s3: S3Service)
      ensures this.bucketName == bucketName && this.s3 == s3
    {
      this.bucketName := bucketName;
      this.s3 := s3;
    }

    /** Uploads the local file at `localPath` under `s3Key` in this uploader's bucket;
        a failure is logged and re-raised. */
    method UploadFile(localFiles: map<string, Body>, localPath: string, s3Key: string, transferFails: bool)
      returns (r: Result<(), UploadError>)
      modifies s3
      ensures r.Ok? <==> localPath in localFiles && !transferFails
      ensures r.Err? ==> r.error == if localPath !in localFiles then LocalFileMissing else UploadFailed
      ensures s3.objects == if r.Ok? then old(s3.objects)[ObjectId(bucketName, s3Key) := localFiles[localPath]]
                            else old(s3.objects)
    {
      if localPath !in localFiles {
        return Err(LocalFileMissing);
      }
      var ok := s3.PutObject(ObjectId(bucketName, s3Key), localFiles[localPath], transferFails);
      if !ok {
        return Err(UploadFailed);
      }
      r := Ok(());
    }
  }

  /** The settings upload_file(config) reads. */
  datatype UploadSettings = UploadSettings(jsonPath: string, prefix: string, bucketName: string)

  /** The `aws` settings upload_file(config) requires; `s3_key_prefix` is optional. */
  const AwsKeys: set<string> := {"aws_access_key_id", "aws_secret_access_key", "region_name", "bucket_name"}

  /** The settings upload_file(config) reads from the configuration; None where one of its
      `config[...][...]` raises. */
  function Settings(config: Config): (st: Option<UploadSettings>)
    ensures st.Some? <==> "local" in config && "json_file_path" in config["local"] && "aws" in config
                          && (forall k :: k in AwsKeys ==> k in config["aws"])
    ensures st.Some? ==> st.value.jsonPath == config["local"]["json_file_path"]
                         && st.value.bucketName == config["aws"]["bucket_name"]
    ensures st.Some? ==> st.value.prefix == if "s3_key_prefix" in config["aws"] then config["aws"]["s3_key_prefix"] else ""
  {
    if "local" in config && "json_file_path" in config["local"] && "aws" in config
       && "aws_access_key_id" in config["aws"] && "aws_secret_access_key" in config["aws"]
       && "region_name" in config["aws"] && "bucket_name" in config["aws"]
    then
      var aws := config["aws"];
      Some(UploadSettings(config["local"]["json_file_path"],
                          if "s3_key_prefix" in aws then aws["s3_key_prefix"] else "",
                          aws["bucket_name"]))
    else None
  }

  /** upload_file(config) with the clock reading as a parameter: uploads the configured local file
      under a fresh key and returns that key; a failed upload returns no key. */
  method UploadFile(config: Config, now: DateTime, localFiles: map<string, Body>, s3: S3Service,
                    transferFails: bool)
    returns (r: Result<string, UploadError>)
    requires ValidDateTime(now)
    modifies s3
    ensures Settings(config).None? ==> r == Err(ConfigKeyMissing)
    ensures Settings(config).Some? ==>
              (r.Ok? <==> Settings(config).value.jsonPath in localFiles && !transferFails)
    ensures r.Ok? ==> (Settings(config).Some? &&
              var st := Settings(config).value;
              r.value == S3Key(st.prefix, now) &&
              s3.objects == old(s3.objects)[ObjectId(st.bucketName, r.value) := localFiles[st.jsonPath]])
    ensures r.Err? ==> s3.objects == old(s3.objects)
  {
    var jsonPath := Lookup(config, "local", "json_file_path");
    if jsonPath.None? {
      return Err(ConfigKeyMissing);
    }
    var timestamp := Timestamp(now);
    if "aws" !in config {
      return Err(ConfigKeyMissing);
    }
    var aws := config["aws"];
    var prefix := if "s3_key_prefix" in aws then aws["s3_key_prefix"] else "";
    var s3Key := PathJoin(prefix, "data_" + timestamp + ".json");

    var accessKeyId := Lookup(config, "aws", "aws_access_key_id");
    var secretAccessKey := Lookup(config, "aws", "aws_secret_access_key");
    var regionName := Lookup(config, "aws", "region_name");
    var bucketName := Lookup(config, "aws", "bucket_name");
    if accessKeyId.None? || secretAccessKey.None? || regionName.None? || bucketName.None? {
      return Err(ConfigKeyMissing);
    }
    var uploader := new S3Uploader(accessKeyId.value, secretAccessKey.value, regionName.value,
                                   bucketName.value, s3);
    var uploaded := uploader.UploadFile(localFiles, jsonPath.value, s3Key, transferFails);
    if uploaded.Err? {
      return Err(uploaded.error);
    }
    r := Ok(s3Key);
  }
}
