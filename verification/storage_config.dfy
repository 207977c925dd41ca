/**
 * Storage bucket configuration: the four buckets, the lookup with its
 * fallback to the attachments bucket, and the MIME type and size check
 * applied to a file before it is uploaded.
 */
module StorageConfig {
  import opened Outcomes
  import opened Text
  import Icons

  datatype BucketConfig = BucketConfig(
    name: string,
    isPublic: bool,
    allowedMimeTypes: seq<string>,
    maxFileSizeMB: nat)

  /** The entry of `allowedMimeTypes` that admits every type. */
  const AnyType: string := "*/*"

  const Avatars := BucketConfig(
    "avatars", true,
    ["image/jpeg", "image/png", "image/webp", "image/gif"],
    5)

  const Media := BucketConfig(
    "media", true,
    ["image/jpeg", "image/png", "image/webp", "image/gif", "image/svg+xml",
     "video/mp4", "video/webm", "audio/mpeg", "audio/wav"],
    50)

  const Documents := BucketConfig(
    "documents", false,
    ["application/pdf",
     "application/msword",
     "application/vnd.openxmlformats-officedocument.wordprocessingml.document",
     "application/vnd.ms-excel",
     "application/vnd.openxmlformats-officedocument.spreadsheetml.sheet",
     "text/plain",
     "text/csv"],
    25)

  const Attachments := BucketConfig("attachments", false, [AnyType], 100)

  /** `STORAGE_BUCKETS`, keyed by bucket name. */
  const StorageBuckets: map<string, BucketConfig> :=
    map["avatars" := Avatars, "media" := Media, "documents" := Documents, "attachments" := Attachments]

  /** Every bucket is registered under its own name. */
  lemma BucketsKeyedByName()
    ensures forall k :: k in StorageBuckets ==> StorageBuckets[k].name == k
  {
  }

  /** What indexing `STORAGE_BUCKETS` yields: a bucket, or a member inherited from `Object.prototype`. */
  datatype BucketLookup = Registered(config: BucketConfig) | InheritedMember(key: string)

  /**
   * `STORAGE_BUCKETS[bucketName] ?? STORAGE_BUCKETS.attachments` as
   * JavaScript evaluates it: a name the object does not have itself but
   * inherits from `Object.prototype` yields that member (a function or
   * object), which `??` lets through.
   */
  function GetBucketConfigAsWritten(bucketName: string): (r: BucketLookup)
    ensures bucketName in StorageBuckets ==> r == Registered(StorageBuckets[bucketName])
    ensures bucketName !in StorageBuckets && bucketName in Icons.InheritedNames ==> r == InheritedMember(bucketName)
    ensures bucketName !in StorageBuckets && bucketName !in Icons.InheritedNames ==> r == Registered(Attachments)
  {
    if bucketName in StorageBuckets then Registered(StorageBuckets[bucketName])
    else if bucketName in Icons.InheritedNames then InheritedMember(bucketName)
    else Registered(StorageBuckets["attachments"])
  }

  /** `validateFile` on a looked-up value: its verdict, or the TypeError it throws. */
  datatype CheckedFile = Checked(validation: Validation) | ThrewTypeError

  /**
   * `validateFile(file, getBucketConfig(bucketName))` as written: no
   * `Object.prototype` member has an `allowedMimeTypes` property, so
   * `bucket.allowedMimeTypes.includes` throws for an inherited member.
   */
  function ValidateAsWritten(file: FileMeta, bucket: BucketLookup): (r: CheckedFile)
    ensures bucket.InheritedMember? <==> r.ThrewTypeError?
    ensures bucket.Registered? ==> r == Checked(ValidateFile(file, bucket.config))
  {
    match bucket
    case Registered(config) => Checked(ValidateFile(file, config))
    case InheritedMember(_) => ThrewTypeError
  }

  /**
   * An upload to the bucket named "constructor" does not fall back to the
   * attachments bucket: validation throws, so `uploadFile` rejects, whatever
   * the file.
   */
  lemma ConstructorBucketThrows(file: FileMeta)
    ensures ValidateAsWritten(file, GetBucketConfigAsWritten("constructor")).ThrewTypeError?
  {
    assert "constructor" in Icons.InheritedNames;
    assert "constructor" !in StorageBuckets;
  }

  /**
   * `getBucketConfig` as intended (an own-key lookup): the named bucket when
   * registered, otherwise the attachments bucket.
   */
  function GetBucketConfig(bucketName: string): (b: BucketConfig)
    ensures b in StorageBuckets.Values
    ensures bucketName in StorageBuckets ==> b.name == bucketName
    ensures bucketName !in StorageBuckets ==> b.name == "attachments"
  {
    if bucketName in StorageBuckets then StorageBuckets[bucketName]
    else
      assert StorageBuckets["attachments"] == Attachments;
      Attachments
  }

  /** The two facts `validateFile` reads about a file. */
  datatype FileMeta = FileMeta(mimeType: string, size: nat)

  /** `{ valid: boolean; error?: string }`. */
  datatype Validation = Validation(valid: bool, error: Option<string>)

  /** The bucket admits the MIME type, literally or through the wildcard entry. */
  predicate TypeAllowed(bucket: BucketConfig, mimeType: string) {
    AnyType in bucket.allowedMimeTypes || mimeType in bucket.allowedMimeTypes
  }

  /** The size limit in bytes: megabytes times 1024 * 1024. */
  function MaxBytes(bucket: BucketConfig): nat {
    bucket.maxFileSizeMB * 1024 * 1024
  }

  /** The type error names the rejected type verbatim, then the accepted list. */
  function TypeErrorMessage(mimeType: string, bucket: BucketConfig): (m: string)
    ensures StartsWith(m, "File type \"") && |m| > 11 + |mimeType|
    ensures m[11..11 + |mimeType|] == mimeType
    ensures m[11 + |mimeType|..] == "\" is not allowed. Accepted: " + Join(bucket.allowedMimeTypes, ", ")
  {
    "File type \"" + mimeType + "\" is not allowed. Accepted: " + Join(bucket.allowedMimeTypes, ", ")
  }

  /** The size error gives the limit in decimal megabytes. */
  function SizeErrorMessage(bucket: BucketConfig): (m: string)
    ensures StartsWith(m, "File size exceeds ") && |m| == 26 + |NatToString(bucket.maxFileSizeMB)|
    ensures m[18..18 + |NatToString(bucket.maxFileSizeMB)|] == NatToString(bucket.maxFileSizeMB)
    ensures ParseNat(m[18..18 + |NatToString(bucket.maxFileSizeMB)|]) == bucket.maxFileSizeMB
    ensures m[18 + |NatToString(bucket.maxFileSizeMB)|..] == "MB limit"
  {
    ParseNatToString(bucket.maxFileSizeMB);
    "File size exceeds " + NatToString(bucket.maxFileSizeMB) + "MB limit"
  }

  /**
   * `validateFile`: valid exactly when the type is admitted and the size is
   * within the limit; the type is checked first, so a file failing both
   * checks reports the type error; an error is present exactly when the
   * file is invalid.
   */
  function ValidateFile(file: FileMeta, bucket: BucketConfig): (r: Validation)
    ensures r.valid <==> TypeAllowed(bucket, file.mimeType) && file.size <= MaxBytes(bucket)
    ensures r.valid <==> r.error.None?
    ensures !TypeAllowed(bucket, file.mimeType) ==> r.error == Some(TypeErrorMessage(file.mimeType, bucket))
    ensures TypeAllowed(bucket, file.mimeType) && file.size > MaxBytes(bucket) ==>
              r.error == Some(SizeErrorMessage(bucket))
  {
    if !TypeAllowed(bucket, file.mimeType) then
      Validation(false, Some(TypeErrorMessage(file.mimeType, bucket)))
    else if file.size > MaxBytes(bucket) then
      Validation(false, Some(SizeErrorMessage(bucket)))
    else
      Validation(true, None)
  }

  /** A file of exactly the limit passes the size check; one byte more fails it. */
  lemma SizeLimitIsInclusive(bucket: BucketConfig, mimeType: string)
    requires TypeAllowed(bucket, mimeType)
    ensures ValidateFile(FileMeta(mimeType, MaxBytes(bucket)), bucket).valid
    ensures !ValidateFile(FileMeta(mimeType, MaxBytes(bucket) + 1), bucket).valid
  {
  }

  /** The corrected lookup agrees with the as-written one on every name that is not an inherited member. */
  lemma BucketLookupsAgreeOffPrototype(bucketName: string)
    requires bucketName !in Icons.InheritedNames || bucketName in StorageBuckets
    ensures GetBucketConfigAsWritten(bucketName) == Registered(GetBucketConfig(bucketName))
  {
  }

  /** The attachments bucket (the fallback of every unknown name) takes any type up to 100 MB. */
  lemma AttachmentsAcceptAnyType(bucketName: string, file: FileMeta)
    requires bucketName !in StorageBuckets || bucketName == "attachments"
    ensures ValidateFile(file, GetBucketConfig(bucketName)).valid <==> file.size <= 100 * 1024 * 1024
  {
    assert GetBucketConfig(bucketName) == Attachments;
    assert AnyType in Attachments.allowedMimeTypes;
  }

  /** The avatar bucket rejects a PDF, whatever its size, with the type error. */
  lemma AvatarsRejectPdf(size: nat)
    ensures ValidateFile(FileMeta("application/pdf", size), Avatars)
              == Validation(false, Some(TypeErrorMessage("application/pdf", Avatars)))
  {
    assert !TypeAllowed(Avatars, "application/pdf");
  }
}
