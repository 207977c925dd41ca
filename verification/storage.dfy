/**
 * Client-side storage helpers: the object path an upload is stored under,
 * the branching of `uploadFile` around validation and the storage call, and
 * the empty-list guard of `deleteFiles`. The storage service is not called:
 * its answer is an input, and the request the model would send is an output.
 */
module Storage {
  import opened Outcomes
  import opened Text
  import opened StorageConfig

  /** The characters `[a-zA-Z0-9._-]` that file name sanitising keeps. */
  predicate IsSafeChar(c: char) {
    ('a' <= c <= 'z') || ('A' <= c <= 'Z') || ('0' <= c <= '9') || c == '.' || c == '_' || c == '-'
  }

  /**
   * `filename.replace(/[^a-zA-Z0-9._-]/g, "_")`. The pattern has no `u`
   * flag, so it matches UTF-16 code units: a character outside the Basic
   * Multilingual Plane is two units and becomes two underscores.
   */
  function Sanitize(name: string): (r: string)
    ensures |r| == Utf16Length(name)
    ensures forall i :: 0 <= i < |r| ==> IsSafeChar(r[i])
    ensures IsBmp(name) ==> forall i :: 0 <= i < |name| && IsSafeChar(name[i]) ==> r[i] == name[i]
    ensures IsBmp(name) ==> forall i :: 0 <= i < |name| && !IsSafeChar(name[i]) ==> r[i] == '_'
    decreases |name|
  {
    if |name| == 0 then ""
    else
      var rest := Sanitize(name[1..]);
      assert IsBmp(name) ==> IsBmp(name[1..]) by {
        if IsBmp(name) {
          forall i | 0 <= i < |name[1..]| ensures !IsAstral(name[1..][i]) {
            assert name[1..][i] == name[i + 1];
          }
        }
      }
      SanitizeChar(name[0]) + rest
  }

  /** What one character becomes: itself when safe, one `_` per UTF-16 unit otherwise. */
  function SanitizeChar(c: char): (r: string)
    ensures |r| == Units(c)
    ensures IsSafeChar(c) ==> r == [c]
    ensures !IsSafeChar(c) && !IsAstral(c) ==> r == "_"
    ensures !IsSafeChar(c) && IsAstral(c) ==> r == "__"
  {
    if IsSafeChar(c) then [c] else if IsAstral(c) then "__" else "_"
  }

  /** Sanitising works unit by unit, so it distributes over concatenation. */
  lemma {:induction false} SanitizeConcat(a: string, b: string)
    ensures Sanitize(a + b) == Sanitize(a) + Sanitize(b)
    decreases |a|
  {
    if |a| == 0 {
      assert a + b == b;
    } else {
      assert (a + b)[0] == a[0];
      assert (a + b)[1..] == a[1..] + b;
      SanitizeConcat(a[1..], b);
      SanitizeStep(a + b);
      SanitizeStep(a);
    }
  }

  /** One step of the recursion: the first character's replacement, then the rest sanitised. */
  lemma SanitizeStep(name: string)
    requires |name| > 0
    ensures Sanitize(name) == SanitizeChar(name[0]) + Sanitize(name[1..])
  {
  }

  /** An astral character in a file name (an emoji, say) becomes two underscores, one per surrogate. */
  lemma SanitizeAstral(c: char, rest: string)
    requires IsAstral(c)
    ensures Sanitize([c] + rest) == "__" + Sanitize(rest)
  {
    assert ([c] + rest)[0] == c && ([c] + rest)[1..] == rest;
    SanitizeStep([c] + rest);
  }

  /** A sanitised name contains only safe characters; in particular no `/`. */
  lemma SanitizedIsSafe(name: string)
    ensures forall i :: 0 <= i < |Sanitize(name)| ==> IsSafeChar(Sanitize(name)[i])
    ensures '/' !in Sanitize(name)
  {
  }

  /** A name made only of safe characters is its own sanitised form. */
  lemma {:induction false} SanitizeKeepsSafe(name: string)
    requires forall i :: 0 <= i < |name| ==> IsSafeChar(name[i])
    ensures Sanitize(name) == name
    decreases |name|
  {
    if |name| > 0 {
      SanitizeKeepsSafe(name[1..]);
      assert name == [name[0]] + name[1..];
    }
  }

  /** Sanitising a sanitised name changes nothing. */
  lemma SanitizeIdempotent(name: string)
    ensures Sanitize(Sanitize(name)) == Sanitize(name)
  {
    SanitizeKeepsSafe(Sanitize(name));
  }

  /** The folder part of a path: `folder/` for a non-empty folder, nothing otherwise. */
  function FolderPrefix(folder: Option<string>): (p: string)
    ensures Present(folder) <==> p != ""
    ensures Present(folder) ==> p[..|p| - 1] == folder.value && p[|p| - 1] == '/'
  {
    if Present(folder) then folder.value + "/" else ""
  }

  /**
   * `generatePath`, with `Date.now()` and the base-36 random fragment as
   * parameters: the folder prefix, then `timestamp-random-`, then the
   * sanitised name.
   */
  function GeneratePath(filename: string, folder: Option<string>, timestamp: nat, random: string): (r: string)
    ensures |r| == |FolderPrefix(folder)| + |NatToString(timestamp)| + |random| + 2 + Utf16Length(filename)
    ensures r[..|FolderPrefix(folder)|] == FolderPrefix(folder)
    ensures r[|r| - Utf16Length(filename)..] == Sanitize(filename)
    ensures PathLayout(r, FolderPrefix(folder), NatToString(timestamp), random, Sanitize(filename))
  {
    var prefix, ts, name := FolderPrefix(folder), NatToString(timestamp), Sanitize(filename);
    PathPieces(prefix, ts, random, name);
    prefix + ts + "-" + random + "-" + name
  }

  /** `r` reads back, left to right, as `p`, `ts`, `-`, `random`, `-` and `name`. */
  predicate PathLayout(r: string, p: string, ts: string, random: string, name: string) {
    |r| == |p| + |ts| + |random| + 2 + |name|
    && r[..|p|] == p && r[|p|..|p| + |ts|] == ts && r[|p| + |ts|] == '-'
    && r[|p| + |ts| + 1..|p| + |ts| + 1 + |random|] == random
    && r[|p| + |ts| + 1 + |random|] == '-' && r[|r| - |name|..] == name
  }

  /** The six parts of a generated path read back at their offsets. */
  lemma PathPieces(p: string, ts: string, random: string, name: string)
    ensures PathLayout(p + ts + "-" + random + "-" + name, p, ts, random, name)
  {
    var r := p + ts + "-" + random + "-" + name;
    assert r[..|p|] == p;
    assert r[|p|..|p| + |ts|] == ts;
    assert r[|p| + |ts| + 1..|p| + |ts| + 1 + |random|] == random;
    assert r[|r| - |name|..] == name;
  }

  /**
   * Whatever the file name, the generated object lies directly inside the
   * folder: no `/` follows the folder prefix (the random fragment is base-36,
   * so it holds none either).
   */
  lemma PathStaysInFolder(filename: string, folder: Option<string>, timestamp: nat, random: string)
    requires '/' !in random
    ensures '/' !in GeneratePath(filename, folder, timestamp, random)[|FolderPrefix(folder)|..]
  {
    var p := FolderPrefix(folder);
    var ts := NatToString(timestamp);
    var name := Sanitize(filename);
    PathRegroup(p, ts, random, name);
    SanitizedIsSafe(filename);
    assert forall i :: 0 <= i < |ts| ==> IsDigit(ts[i]);
    NoSlashAfterPrefix(p, ts, random, name);
  }

  /** The path's parts, regrouped as the prefix and the rest. */
  lemma PathRegroup(p: string, ts: string, random: string, name: string)
    ensures p + ts + "-" + random + "-" + name == p + (ts + "-" + random + "-" + name)
  {
  }

  /** After the prefix come only slash-free parts and dashes. */
  lemma NoSlashAfterPrefix(p: string, ts: string, random: string, name: string)
    requires '/' !in ts && '/' !in random && '/' !in name
    ensures '/' !in (p + (ts + "-" + random + "-" + name))[|p|..]
  {
    var rest := ts + "-" + random + "-" + name;
    assert (p + rest)[|p|..] == rest;
  }

  datatype FileInfo = FileInfo(name: string, mimeType: string, size: nat)

  /** `{ folder?, upsert? }`; absent options are all-absent fields. */
  datatype UploadOptions = UploadOptions(folder: Option<string>, upsert: Option<bool>)

  /** The storage `upload(path, file, options)` call made against a bucket. */
  datatype UploadRequest = UploadRequest(
    bucket: string, path: string, cacheControl: string, upsert: bool, contentType: string)

  /** What the storage service answered to the upload. */
  datatype StorageReply = StorageFailed(message: string) | Stored(path: string, fullPath: Option<string>)

  datatype UploadResult = UploadResult(path: string, url: string, fullPath: string)

  datatype StorageError = StorageError(code: string, message: string)

  /** `{ data, error }` as `uploadFile` resolves it. */
  datatype UploadResponse = UploadResponse(data: Option<UploadResult>, error: Option<StorageError>)

  /** The storage call `uploadFile` made (if any) and what it resolved to. */
  datatype UploadRun = UploadRun(request: Option<UploadRequest>, response: UploadResponse)

  /**
   * `uploadFile`: the file is validated against the configuration of the
   * named bucket (or the attachments fallback); an invalid file resolves to a
   * VALIDATION error without any storage call. A valid file is uploaded to
   * the bucket named by the caller under a generated path, with `upsert`
   * defaulting to false; a storage error resolves to UPLOAD_FAILED, success
   * to the stored path, its public URL, and the full path (falling back to
   * `bucket/path`). Exactly one of data and error is present.
   */
  function UploadFile(
    file: FileInfo, bucketName: string, options: UploadOptions,
    timestamp: nat, random: string, reply: StorageReply, publicUrl: string -> string): (r: UploadRun)
    ensures r.response.data.Some? <==> r.response.error.None?
    ensures !ValidateFile(FileMeta(file.mimeType, file.size), GetBucketConfig(bucketName)).valid ==>
              r.request.None? && r.response.error.Some? && r.response.error.value.code == "VALIDATION"
              && Some(r.response.error.value.message)
                 == ValidateFile(FileMeta(file.mimeType, file.size), GetBucketConfig(bucketName)).error
    ensures r.request.Some? ==>
              r.request.value.bucket == bucketName
              && r.request.value.path == GeneratePath(file.name, options.folder, timestamp, random)
              && r.request.value.upsert == options.upsert.GetOr(false)
              && r.request.value.contentType == file.mimeType
    ensures r.request.Some? && reply.StorageFailed? ==>
              r.response == UploadResponse(None, Some(StorageError("UPLOAD_FAILED", reply.message)))
    ensures r.request.Some? && reply.Stored? ==>
              r.response.data.Some?
              && r.response.data.value.path == reply.path
              && r.response.data.value.url == publicUrl(reply.path)
              && r.response.data.value.fullPath == reply.fullPath.GetOr(bucketName + "/" + reply.path)
  {
    var validation := ValidateFile(FileMeta(file.mimeType, file.size), GetBucketConfig(bucketName));
    if !validation.valid then
      UploadRun(None, UploadResponse(None, Some(StorageError("VALIDATION", validation.error.value))))
    else
      var request := UploadRequest(
        bucketName, GeneratePath(file.name, options.folder, timestamp, random),
        "3600", options.upsert.GetOr(false), file.mimeType);
      match reply
      case StorageFailed(message) =>
        UploadRun(Some(request), UploadResponse(None, Some(StorageError("UPLOAD_FAILED", message))))
      case Stored(path, fullPath) =>
        UploadRun(Some(request), UploadResponse(
          Some(UploadResult(path, publicUrl(path), fullPath.GetOr(bucketName + "/" + path))), None))
  }

  /** A valid file always reaches the storage service, and only a valid one does. */
  lemma UploadCalledIffValid(
    file: FileInfo, bucketName: string, options: UploadOptions,
    timestamp: nat, random: string, reply: StorageReply, publicUrl: string -> string)
    ensures (UploadFile(file, bucketName, options, timestamp, random, reply, publicUrl).request.Some?
             <==> ValidateFile(FileMeta(file.mimeType, file.size), GetBucketConfig(bucketName)).valid)
  {
  }

  /** The storage `remove(paths)` call and the error `deleteFiles` resolves to. */
  datatype DeleteRun = DeleteRun(removed: Option<seq<string>>, error: Option<StorageError>)

  /**
   * `deleteFiles`: an empty list resolves to no error without calling the
   * storage service; otherwise all paths are removed in one call, and a
   * storage error (`removeError`) resolves to DELETE_FAILED.
   */
  function DeleteFiles(paths: seq<string>, removeError: Option<string>): (r: DeleteRun)
    ensures |paths| == 0 ==> r == DeleteRun(None, None)
    ensures |paths| > 0 ==> r.removed == Some(paths)
    ensures |paths| > 0 ==> (r.error.Some? <==> removeError.Some?)
    ensures r.error.Some? ==> r.error.value == StorageError("DELETE_FAILED", removeError.value)
  {
    if |paths| == 0 then DeleteRun(None, None)
    else match removeError
      case Some(m) => DeleteRun(Some(paths), Some(StorageError("DELETE_FAILED", m)))
      case None => DeleteRun(Some(paths), None)
  }

  /**
   * `deleteFiles` resolves without error exactly when there was nothing to
   * delete or the storage service reported none; for an empty list the
   * storage service's behaviour is irrelevant.
   */
  lemma DeleteFailsIffStorageFails(paths: seq<string>, removeError: Option<string>, other: Option<string>)
    ensures DeleteFiles(paths, removeError).error.None? <==> |paths| == 0 || removeError.None?
    ensures |paths| == 0 ==> DeleteFiles(paths, removeError) == DeleteFiles(paths, other)
  {
  }
}
