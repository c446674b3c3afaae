/** The object store behind the application (Storage/AmazonS3Service.cs):
  * keys made of a container and a blob name, the choice between a single
  * put and a multipart transfer, the existence check, and presigned upload
  * requests. The S3 client itself is not modelled: the store is a map from
  * key to stored object, and a failure the client would report is a
  * parameter of the operation that meets it. */
module Storage {
  import opened Wrappers
  import opened Text
  import opened Results
  import opened Clock

  /** Objects above this size cannot be sent in a single put. */
  const SinglePutLimit: int := 5000000000
  /** The part size of a multipart transfer, 6 MiB. */
  const PartSize: int := 6291456
  /** Presigned links expire five minutes after they are issued. */
  const PresignLifetime: int := 5 * 60
  /** HTTP 404, the status S3 reports for a missing object. */
  const NotFoundStatus: int := 404

  type Metadata = map<string, string>

  datatype AmazonS3Options = AmazonS3Options(
    url: string, publicKey: string, secretKey: string,
    bucket: string, region: string, chunkThreshold: int)

  datatype SaveBlobRequest = SaveBlobRequest(
    container: string, blobName: string, originalFileName: Option<string>,
    metadata: Option<Metadata>)

  datatype SaveBlobResponse = SaveBlobResponse(url: string, path: string, originalFileName: Option<string>)

  /** What the store holds under a key: the metadata it was written with
    * and whether it arrived by multipart transfer. */
  datatype StoredObject = StoredObject(metadata: Metadata, multipart: bool)

  datatype HttpVerb = GET | PUT

  /** The request a presigned URL is computed from. */
  datatype PresignRequest = PresignRequest(
    bucket: string, key: string, expires: Instant, verb: HttpVerb, metadata: Metadata)

  /** An error the S3 client raises, with the HTTP status it carries. */
  datatype S3Error = S3Error(statusCode: int)

  /** A catch block that deletes a key and rethrows: the exception caught,
    * or the delete's own exception when the delete fails (and then the key
    * stays). */
  function DeleteAndRethrow<T>(error: Exception, objects: map<string, StoredObject>, key: string,
                               failure: Option<S3Error>): (Outcome<T>, map<string, StoredObject>)
  {
    if failure.Some? then (Raised(StorageException), objects)
    else (Raised(error), objects - {key})
  }

  /** GetKeyName: container and blob name combined as a path, with the
    * platform separator normalised to '/'. */
  function GetKeyName(container: string, blobName: string): (key: string)
    ensures (container != "" && container[|container| - 1] != '/' && blobName != "" && blobName[0] != '/')
            ==> key == container + "/" + blobName
    ensures blobName == "" ==> key == container
    ensures container == "" ==> key == blobName
  {
    ReplaceSameChar(Combine(container, blobName), DirectorySeparator);
    ReplaceChar(Combine(container, blobName), DirectorySeparator, '/')
  }

  /** A key determines the blob name within a container (for the names the
    * application issues: non-empty and not rooted). */
  lemma GetKeyNameInjective(container: string, a: string, b: string)
    requires container != "" && container[|container| - 1] != '/'
    requires a != "" && a[0] != '/' && b != "" && b[0] != '/'
    requires GetKeyName(container, a) == GetKeyName(container, b)
    ensures a == b
  {
    assert a == GetKeyName(container, a)[|container| + 1..];
    assert b == GetKeyName(container, b)[|container| + 1..];
  }

  /** The size from which SaveAsync switches to multipart transfer. */
  function Threshold(chunkThreshold: int): (t: int)
    ensures t <= SinglePutLimit && t <= chunkThreshold
    ensures t == SinglePutLimit || t == chunkThreshold
  {
    if chunkThreshold < SinglePutLimit then chunkThreshold else SinglePutLimit
  }

  /** A length that is known and at least the threshold goes by multipart
    * transfer; an unknown length (a stream that cannot seek) never does. */
  predicate UsesMultipart(length: Option<int>, chunkThreshold: int)
  {
    length.Some? && length.value >= Threshold(chunkThreshold)
  }

  /** An object too large for a single put is always sent in parts, and
    * one below the configured threshold never is. */
  lemma MultipartChoice(length: int, chunkThreshold: int)
    ensures length >= SinglePutLimit ==> UsesMultipart(Some(length), chunkThreshold)
    ensures length >= chunkThreshold ==> UsesMultipart(Some(length), chunkThreshold)
    ensures length < chunkThreshold && length < SinglePutLimit ==> !UsesMultipart(Some(length), chunkThreshold)
    ensures !UsesMultipart(None, chunkThreshold)
  {
  }

  /** The loop that copies request metadata into a client request: a null
    * or empty dictionary adds nothing, otherwise every entry is copied. */
  method CopyMetadata(metadata: Option<Metadata>) returns (copied: Metadata)
    ensures metadata.None? ==> copied == map[]
    ensures metadata.Some? ==> copied == metadata.value
  {
    copied := map[];
    if metadata.Some? && |metadata.value| > 0 {
      var source := metadata.value;
      var pending := source.Keys;
      while pending != {}
        invariant pending <= source.Keys
        invariant copied.Keys == source.Keys - pending
        invariant forall k :: k in copied ==> copied[k] == source[k]
        decreases |pending|
      {
        var k :| k in pending;
        copied := copied[k := source[k]];
        pending := pending - {k};
      }
    } else if metadata.Some? {
      assert metadata.value.Keys == {} by {
        assert |metadata.value.Keys| == 0;
      }
    }
  }

  class AmazonS3Service {
    const bucket: string
    const chunkThreshold: int
    /** The public address of the bucket, https://<bucket>.s3.amazonaws.com. */
    const url: string
    /** The objects in the bucket, by key. */
    var objects: map<string, StoredObject>

    constructor Open(options: AmazonS3Options)
      ensures bucket == options.bucket && chunkThreshold == options.chunkThreshold
      ensures url == "https://" + options.bucket + ".s3.amazonaws.com"
      ensures objects == map[]
    {
      bucket := options.bucket;
      chunkThreshold := options.chunkThreshold;
      url := "https://" + options.bucket + ".s3.amazonaws.com";
      objects := map[];
    }

    /** The constructor: refuses a configured URL that is not an Amazon one. */
    static method Connect(options: AmazonS3Options) returns (r: Result<AmazonS3Service, Exception>)
      ensures r.Err? <==> !Contains(options.url, "amazonaws.com")
      ensures r.Err? ==> r.error == StorageException
      ensures r.Ok? ==> fresh(r.value) && r.value.objects == map[] && r.value.bucket == options.bucket
                        && r.value.url == "https://" + options.bucket + ".s3.amazonaws.com"
    {
      if !Contains(options.url, "amazonaws.com") {
        return Err(StorageException);
      }
      var s := new AmazonS3Service.Open(options);
      return Ok(s);
    }

    /** RemoveAsync(key): deletes the object; a client failure becomes a
      * StorageException and leaves the bucket as it was. */
    method RemoveKey(key: string, failure: Option<S3Error>) returns (r: Result<(), Exception>)
      modifies this
      ensures failure.Some? ==> r == Err(StorageException) && objects == old(objects)
      ensures failure.None? ==> r.Ok? && objects == old(objects) - {key}
    {
      if failure.Some? {
        return Err(StorageException);
      }
      objects := objects - {key};
      return Ok(());
    }

    /** RemoveAsync(container, blobName) */
    method Remove(container: string, blobName: string, failure: Option<S3Error>) returns (r: Result<(), Exception>)
      modifies this
      ensures failure.Some? ==> r == Err(StorageException) && objects == old(objects)
      ensures failure.None? ==> r.Ok? && objects == old(objects) - {GetKeyName(container, blobName)}
    {
      r := RemoveKey(GetKeyName(container, blobName), failure);
    }

    /** SaveAsync: writes the object under the request's key, by multipart
      * transfer or single put, and answers with the key and its public URL.
      * A client failure becomes a StorageException and writes nothing. */
    method Save(length: Option<int>, request: SaveBlobRequest, failure: Option<S3Error>)
      returns (r: Result<SaveBlobResponse, Exception>)
      modifies this
      ensures failure.Some? ==> r == Err(StorageException) && objects == old(objects)
      ensures failure.None? ==> r.Ok?
      ensures r.Ok? ==>
        var key := GetKeyName(request.container, request.blobName);
        && r.value == SaveBlobResponse(url + "/" + key, key, request.originalFileName)
        && objects == old(objects)[key := StoredObject(request.metadata.GetOr(map[]), UsesMultipart(length, chunkThreshold))]
    {
      var key := GetKeyName(request.container, request.blobName);
      // string.Join('/', url, key) of two parts
      var blobUrl := url + "/" + key;
      var multipart := length.Some? && length.value >= Threshold(chunkThreshold);
      var metadata := CopyMetadata(request.metadata);
      if failure.Some? {
        return Err(StorageException);
      }
      objects := objects[key := StoredObject(metadata, multipart)];
      return Ok(SaveBlobResponse(blobUrl, key, request.originalFileName));
    }

    /** GetAsync(key): true when the metadata request succeeds, false when
      * S3 answers NotFound, a StorageException for any other error. */
    method ExistsKey(key: string, failure: Option<S3Error>) returns (r: Result<bool, Exception>)
      ensures failure.None? ==> r == Ok(key in objects)
      ensures failure.Some? && failure.value.statusCode == NotFoundStatus ==> r == Ok(false)
      ensures failure.Some? && failure.value.statusCode != NotFoundStatus ==> r == Err(StorageException)
    {
      if failure.None? {
        if key in objects {
          return Ok(true);
        }
        // S3 reports a missing object as NotFound.
        return Ok(false);
      }
      if failure.value.statusCode == NotFoundStatus {
        return Ok(false);
      }
      return Err(StorageException);
    }

    /** GetAsync(container, blobName) */
    method Exists(container: string, blobName: string, failure: Option<S3Error>) returns (r: Result<bool, Exception>)
      ensures failure.None? ==> r == Ok(GetKeyName(container, blobName) in objects)
      ensures failure.Some? && failure.value.statusCode == NotFoundStatus ==> r == Ok(false)
      ensures failure.Some? && failure.value.statusCode != NotFoundStatus ==> r == Err(StorageException)
    {
      r := ExistsKey(GetKeyName(container, blobName), failure);
    }

    /** GetPresignedUrl: the signing request for an upload by PUT, expiring
      * five minutes after now and carrying every metadata entry. The
      * signature itself is computed by the client and is not modelled. */
    method GetPresignedRequest(request: SaveBlobRequest, now: Instant) returns (p: PresignRequest)
      ensures p.bucket == bucket && p.key == GetKeyName(request.container, request.blobName)
      ensures p.verb == PUT && p.expires == now + PresignLifetime
      ensures p.metadata == request.metadata.GetOr(map[])
    {
      var metadata := CopyMetadata(request.metadata);
      p := PresignRequest(bucket, GetKeyName(request.container, request.blobName), now + PresignLifetime, PUT, metadata);
    }
  }
}
