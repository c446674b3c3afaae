/** Pictures (Image/ImageService.cs): the container a picture type is
  * stored in, the base64 payload extracted from a data URL, and the upload
  * and removal of a picture through the object store. Decoding, resizing
  * and JPEG encoding are not modelled: whether they succeed, and the size
  * of the encoded image, are parameters. */
module Images {
  import opened Wrappers
  import opened Text
  import opened Results
  import Containers
  import opened Storage
  import opened BlobPaths

  /** PictureType; a C# enum variable may hold any other integer. */
  datatype PictureType = AudioPicture | UserPicture | UndefinedPictureType(value: int)

  lemma PictureContainerNames()
    ensures Combine(Containers.Pictures, Containers.Audios) == "pictures/audios"
    ensures Combine(Containers.Pictures, Containers.Users) == "pictures/users"
  {
    assert Containers.Pictures[|Containers.Pictures| - 1] == 's';
    assert Containers.Audios[0] == 'a' && Containers.Users[0] == 'u';
    assert Containers.Pictures + "/" + Containers.Audios == "pictures/audios";
    assert Containers.Pictures + "/" + Containers.Users == "pictures/users";
  }

  /** GetContainer: pictures of audios and of users live in two
    * sub-containers of the pictures container. */
  function GetContainer(pictureType: PictureType): (r: Result<string, Exception>)
    ensures pictureType == AudioPicture ==> r == Ok("pictures/audios")
    ensures pictureType == UserPicture ==> r == Ok("pictures/users")
    ensures pictureType.UndefinedPictureType? ==> r == Err(ArgumentOutOfRangeException("type"))
  {
    PictureContainerNames();
    match pictureType
    case AudioPicture => Ok(Combine(Containers.Pictures, Containers.Audios))
    case UserPicture => Ok(Combine(Containers.Pictures, Containers.Users))
    case UndefinedPictureType(_) => Err(ArgumentOutOfRangeException("type"))
  }

  /** The two picture containers differ, so an audio picture and a user
    * picture never share a key. */
  lemma PictureContainersDistinct(name: string)
    requires name != "" && name[0] != '/'
    ensures GetKeyName(GetContainer(AudioPicture).value, name) != GetKeyName(GetContainer(UserPicture).value, name)
  {
    var audios, users := GetContainer(AudioPicture).value, GetContainer(UserPicture).value;
    assert |audios| == 15 && audios[14] == 's';
    assert |users| == 14 && users[13] == 's';
    assert |GetKeyName(audios, name)| == 16 + |name|;
    assert |GetKeyName(users, name)| == 15 + |name|;
  }

  /** The payload ProcessImage decodes: for a data URL, the text between
    * the first and second "base64" with surrounding commas trimmed. */
  function StripBase64(data: string): (r: string)
    ensures !Contains(data, "base64") ==> r == data
  {
    if Contains(data, "base64") then
      var pieces := SplitOn(data, "base64");
      assert |pieces| >= 2;
      TrimChar(pieces[1], ',')
    else data
  }

  /** "base64" cannot start inside a text without 'b'. */
  lemma NoBase64Within(mediaType: string, rest: string)
    requires 'b' !in mediaType
    ensures forall j :: 0 <= j < |mediaType| ==> !OccursAt(mediaType + rest, "base64", j)
  {
    forall j | 0 <= j < |mediaType| ensures !OccursAt(mediaType + rest, "base64", j) {
      assert (mediaType + rest)[j] == mediaType[j];
    }
  }

  /** A leading ',' does not create an occurrence of "base64". */
  lemma CommaKeepsNoBase64(payload: string)
    requires !Contains(payload, "base64")
    ensures !Contains("," + payload, "base64")
  {
    var post := "," + payload;
    forall i | 0 <= i <= |post| ensures !OccursAt(post, "base64", i) {
      if i == 0 {
        assert post[0] == ',';
      } else if i + 6 <= |post| {
        assert post[i..i + 6] == payload[i - 1..i + 5];
        assert !OccursAt(payload, "base64", i - 1);
      }
    }
  }

  /** A data URL splits on "base64" into its media type and the rest. */
  lemma DataUrlPieces(mediaType: string, payload: string)
    requires 'b' !in mediaType
    requires !Contains(payload, "base64")
    ensures Contains(mediaType + "base64" + "," + payload, "base64")
    ensures SplitOn(mediaType + "base64" + "," + payload, "base64") == [mediaType, "," + payload]
  {
    var post := "," + payload;
    var data := mediaType + "base64" + post;
    assert data == mediaType + "base64" + "," + payload;
    NoBase64Within(mediaType, "base64" + post);
    assert mediaType + ("base64" + post) == data;
    SplitOnAt(mediaType, "base64", post);
    CommaKeepsNoBase64(payload);
    SplitOnWithout(post, "base64");
    assert OccursAt(data, "base64", |mediaType|) by {
      assert data[|mediaType|..|mediaType| + 6] == "base64";
    }
  }

  /** A data URL "<media type>base64,<payload>" gives back its payload,
    * when the media type has no 'b' and the payload neither contains
    * "base64" nor starts or ends with ','. */
  lemma StripBase64OfDataUrl(mediaType: string, payload: string)
    requires 'b' !in mediaType
    requires !Contains(payload, "base64")
    requires payload == "" || (payload[0] != ',' && payload[|payload| - 1] != ',')
    ensures StripBase64(mediaType + "base64" + "," + payload) == payload
  {
    DataUrlPieces(mediaType, payload);
    assert TrimChar("," + payload, ',') == TrimChar(payload, ',') by {
      assert ("," + payload)[1..] == payload;
    }
    TrimCharKeeps(payload, ',');
  }

  class ImageService {
    const storage: AmazonS3Service

    constructor (storage: AmazonS3Service)
      ensures this.storage == storage
    {
      this.storage := storage;
    }

    /** UploadImage: decodes and re-encodes the picture, then saves it in
      * the type's container under the caller's blob name, with no
      * metadata. A picture that does not decode raises before anything is
      * written. */
    method UploadImage(data: string, pictureType: PictureType, blobName: string,
                       decodes: bool, encodedLength: nat, failure: Option<S3Error>)
      returns (r: Result<SaveBlobResponse, Exception>)
      modifies storage
      ensures !decodes ==> r == Err(ImageException) && storage.objects == old(storage.objects)
      ensures decodes && GetContainer(pictureType).Err? ==>
                r == Err(GetContainer(pictureType).error) && storage.objects == old(storage.objects)
      ensures decodes && GetContainer(pictureType).Ok? && failure.Some? ==>
                r == Err(StorageException) && storage.objects == old(storage.objects)
      ensures decodes && GetContainer(pictureType).Ok? && failure.None? ==>
                var key := GetKeyName(GetContainer(pictureType).value, blobName);
                && r == Ok(SaveBlobResponse(storage.url + "/" + key, key, None))
                && storage.objects == old(storage.objects)[key := StoredObject(map[], UsesMultipart(Some(encodedLength), storage.chunkThreshold))]
    {
      if !decodes {
        return Err(ImageException);
      }
      var container := GetContainer(pictureType);
      if container.Err? {
        return Err(container.error);
      }
      var request := SaveBlobRequest(container.value, blobName, None, None);
      r := storage.Save(Some(encodedLength), request, failure);
    }

    /** RemoveImage: deletes the key UploadImage wrote for the same type
      * and blob name. */
    method RemoveImage(pictureType: PictureType, blobName: string, failure: Option<S3Error>)
      returns (r: Result<(), Exception>)
      modifies storage
      ensures GetContainer(pictureType).Err? ==>
                r == Err(GetContainer(pictureType).error) && storage.objects == old(storage.objects)
      ensures GetContainer(pictureType).Ok? && failure.Some? ==>
                r == Err(StorageException) && storage.objects == old(storage.objects)
      ensures GetContainer(pictureType).Ok? && failure.None? ==>
                r.Ok? && storage.objects == old(storage.objects) - {GetKeyName(GetContainer(pictureType).value, blobName)}
    {
      var container := GetContainer(pictureType);
      if container.Err? {
        return Err(container.error);
      }
      r := storage.Remove(container.value, blobName, failure);
    }
  }

  /** The path of a key below the storage URL has no ':' when neither
    * part has one. */
  lemma KeyPathHasNoColon(container: string, blobName: string)
    requires ':' !in container && ':' !in blobName
    ensures ':' !in "/" + container + "/" + blobName
  {
    var path := "/" + container + "/" + blobName;
    forall i | 0 <= i < |path| ensures path[i] != ':' {
      if i == 0 || i == |container| + 1 {
      } else if i <= |container| {
        assert path[i] == container[i - 1];
      } else {
        assert path[i] == blobName[i - |container| - 2];
      }
    }
  }

  /** The URL SaveAsync reports for a key parses back into the container
    * and blob name, when the storage URL has a ':' (its scheme) and the
    * key parts have none. */
  lemma SavedUrlParsesBack(storageUrl: string, container: string, blobName: string)
    requires ':' in storageUrl && ':' !in container && ':' !in blobName
    requires container != "" && container[0] != '/' && container[|container| - 1] != '/'
    requires blobName != "" && '/' !in blobName
    ensures GetBlobPath(storageUrl + "/" + GetKeyName(container, blobName), storageUrl) == BlobPathInfo(container, blobName)
  {
    assert blobName[0] != '/' by { assert blobName[0] in blobName; }
    var key := GetKeyName(container, blobName);
    assert key == container + "/" + blobName;
    assert storageUrl + "/" + key == storageUrl + "/" + container + "/" + blobName;
    assert !Contains("/" + container + "/" + blobName, storageUrl) by {
      var k :| 0 <= k < |storageUrl| && storageUrl[k] == ':';
      KeyPathHasNoColon(container, blobName);
      MissingCharNotContains("/" + container + "/" + blobName, storageUrl, k);
    }
    GetBlobPathRoundTrip(storageUrl, container, blobName);
  }

  /** An uploaded picture's URL parses back into its container and blob
    * name, for a bare blob name free of ':'. */
  lemma PictureUrlParsesBack(bucket: string, pictureType: PictureType, blobName: string)
    requires GetContainer(pictureType).Ok?
    requires blobName != "" && '/' !in blobName && ':' !in blobName
    ensures var storageUrl := "https://" + bucket + ".s3.amazonaws.com";
            var key := GetKeyName(GetContainer(pictureType).value, blobName);
            GetBlobPath(storageUrl + "/" + key, storageUrl) == BlobPathInfo(GetContainer(pictureType).value, blobName)
  {
    var storageUrl := "https://" + bucket + ".s3.amazonaws.com";
    var container := GetContainer(pictureType).value;
    assert storageUrl[5] == ':';
    assert container == "pictures/audios" || container == "pictures/users";
    assert ':' !in container && container[0] == 'p' && container[|container| - 1] == 's';
    SavedUrlParsesBack(storageUrl, container, blobName);
  }
}

/** The presigned upload link (Upload/UploadService.cs): a fresh upload id,
  * the blob name it determines, and the metadata attached to the upload. */
module Uploads {
  import opened Wrappers
  import opened Text
  import opened Guids
  import Containers
  import opened Storage
  import opened Entities
  import opened BlobHelpers

  /** The link is requested with a lifetime of five minutes. */
  const UploadLinkMinutes: nat := 5

  /** What GetUploadUrl hands the storage service, and the id it returns. */
  datatype UploadTicket = UploadTicket(
    uploadId: Guid, container: string, blobName: string, originalFileName: string,
    lifetimeMinutes: nat, metadata: Metadata)

  /** GetUploadUrl, with the fresh guid and the current user's id as
    * parameters. */
  function GetUploadUrl(newGuid: Guid, fileName: string, userId: string): (t: UploadTicket)
    ensures t.uploadId == newGuid && t.container == Containers.Audios
    ensures |t.blobName| >= 36 && t.blobName[..36] == FormatD(newGuid) && t.blobName[36..] == GetExtension(fileName)
    ensures t.metadata.Keys == {"UserId", "OriginalFilename"}
    ensures t.metadata["UserId"] == userId && t.metadata["OriginalFilename"] == fileName
    ensures t.lifetimeMinutes == UploadLinkMinutes && t.originalFileName == fileName
  {
    var blobName := FormatD(newGuid) + GetExtension(fileName);
    var metadata := map["UserId" := userId, "OriginalFilename" := fileName];
    UploadTicket(newGuid, Containers.Audios, blobName, fileName, UploadLinkMinutes, metadata)
  }

  /** The upload id can be read back from the blob name of the link. */
  lemma UploadIdInBlobName(a: Guid, b: Guid, fileA: string, fileB: string, user: string)
    requires GetUploadUrl(a, fileA, user).blobName == GetUploadUrl(b, fileB, user).blobName
    ensures a == b && GetExtension(fileA) == GetExtension(fileB)
  {
    var x := GetUploadUrl(a, fileA, user).blobName;
    assert x[..36] == FormatD(a) && x[..36] == FormatD(b);
    FormatDInjective(a, b);
  }

  /** The blob the client uploads to is the blob an audio created from the
    * same upload id and file name is stored under. */
  lemma UploadBlobIsAudioBlob(uploadId: Guid, fileName: string, fileSize: int, duration: int, userId: string)
    requires NewAudio(uploadId, Some(fileName), fileSize, duration, Some(userId)).Ok?
    ensures GetAudioBlobName(NewAudio(uploadId, Some(fileName), fileSize, duration, Some(userId)).value)
            == GetUploadUrl(uploadId, fileName, userId).blobName
  {
  }

  /** The signing request the link is computed from: the audios container,
    * the ticket's blob name, and both metadata entries. */
  method PresignUpload(storage: AmazonS3Service, newGuid: Guid, fileName: string, userId: string, now: int)
    returns (p: PresignRequest)
    ensures var t := GetUploadUrl(newGuid, fileName, userId);
            && p.key == GetKeyName(Containers.Audios, t.blobName)
            && p.metadata == t.metadata && p.verb == PUT
            && p.expires == now + PresignLifetime
  {
    var t := GetUploadUrl(newGuid, fileName, userId);
    p := storage.GetPresignedRequest(SaveBlobRequest(t.container, t.blobName, Some(fileName), Some(t.metadata)), now);
  }
}
