/** Object-storage naming and the upload step shared by both variants (`upload_to_s3`), and the two
    webhook bodies a job can send. */
module Transfer {
  import opened Text
  import opened Common

  /** The `storage` section of the configuration. The credentials are passed to boto3 only. */
  datatype StorageConfig = StorageConfig(accessKey: Value, secretKey: Value, region: string,
                                         bucket: string, prefix: string)

  /** The object key of a job's output: `{s3_output_prefix}{record_id}.mp4`. */
  function S3Key(prefix: string, recordId: string): string {
    prefix + recordId + ".mp4"
  }

  function UrlHead(bucket: string, region: string): string {
    "https://" + bucket + ".s3." + region + ".amazonaws.com/"
  }

  /** The public URL `https://{bucket}.s3.{region}.amazonaws.com/{key}`. */
  function PublicUrl(bucket: string, region: string, key: string): string {
    UrlHead(bucket, region) + key
  }

  /** Reads the key back out of a public URL of the given bucket and region. */
  function KeyOfUrl(url: string, bucket: string, region: string): Option<string> {
    var head := UrlHead(bucket, region);
    if StartsWith(url, head) then Some(url[|head|..]) else None
  }

  /** Reads the record id back out of an object key with the given prefix. */
  function RecordIdOfKey(prefix: string, key: string): Option<string> {
    if StartsWith(key, prefix) && EndsWith(key, ".mp4") && |prefix| + 4 <= |key|
    then Some(key[|prefix|..|key| - 4])
    else None
  }

  lemma UrlRoundTrip(bucket: string, region: string, key: string)
    ensures KeyOfUrl(PublicUrl(bucket, region, key), bucket, region) == Some(key)
  {
    var head := UrlHead(bucket, region);
    assert (head + key)[..|head|] == head;
    assert (head + key)[|head|..] == key;
  }

  lemma KeyRoundTrip(prefix: string, recordId: string)
    ensures RecordIdOfKey(prefix, S3Key(prefix, recordId)) == Some(recordId)
  {
    var key := S3Key(prefix, recordId);
    assert key[..|prefix|] == prefix;
    assert key[|key| - 4..] == ".mp4";
    assert key[|prefix|..|key| - 4] == recordId;
  }

  /** Two jobs with different record ids never share an object key or a public URL. */
  lemma {:induction false} OutputsDistinct(cfg: StorageConfig, id1: string, id2: string)
    requires id1 != id2
    ensures S3Key(cfg.prefix, id1) != S3Key(cfg.prefix, id2)
    ensures PublicUrl(cfg.bucket, cfg.region, S3Key(cfg.prefix, id1))
         != PublicUrl(cfg.bucket, cfg.region, S3Key(cfg.prefix, id2))
  {
    KeyRoundTrip(cfg.prefix, id1);
    KeyRoundTrip(cfg.prefix, id2);
    UrlRoundTrip(cfg.bucket, cfg.region, S3Key(cfg.prefix, id1));
    UrlRoundTrip(cfg.bucket, cfg.region, S3Key(cfg.prefix, id2));
  }

  /** What boto3's `upload_file` does: succeeds, raises `ClientError`, or raises something else. */
  datatype UploadOutcome = Uploaded | ClientError(message: string) | OtherError(message: string)

  /** `upload_to_s3(file_path, record_id, s3_config)`: the attempt it makes and what it returns.
      Only `ClientError` is caught (returning None); any other exception propagates. */
  function UploadToS3(file: string, recordId: string, cfg: StorageConfig, outcome: UploadOutcome)
    : (r: (Attempt<Option<string>>, Effect))
    ensures r.1 == Upload(file, cfg.bucket, S3Key(cfg.prefix, recordId))
    ensures (r.0.Returned? && r.0.value.Some?) <==> outcome.Uploaded?
    ensures r.0.Returned? && r.0.value.Some? ==>
              KeyOfUrl(r.0.value.value, cfg.bucket, cfg.region) == Some(S3Key(cfg.prefix, recordId))
    ensures r.0.Raised? <==> outcome.OtherError?
    ensures outcome.OtherError? ==> r.0.message == outcome.message
  {
    var key := S3Key(cfg.prefix, recordId);
    var attempt := Upload(file, cfg.bucket, key);
    match outcome
    case Uploaded =>
      UrlRoundTrip(cfg.bucket, cfg.region, key);
      (Returned(Some(PublicUrl(cfg.bucket, cfg.region, key))), attempt)
    case ClientError(_) => (Returned(None), attempt)
    case OtherError(m) => (Raised(m), attempt)
  }

  /** The success webhook body. */
  function CompletePayload(recordId: Value, url: string): Payload {
    Payload("Complete", recordId, url, "")
  }

  /** The failure webhook body; the status text differs between the two variants. */
  function FailedPayload(failedStatus: string, recordId: Value, message: string): Payload {
    Payload(failedStatus, recordId, "", message)
  }
}
