/** The picture updates: UpdateAudioPictureCommandHandler.Handle in its two
  * revisions (Features/Audio/UpdatePicture/UpdateAudioPictureCommand.cs
  * saving through the database context, Features/Audios/UpdatePicture/
  * UpdateAudioPictureCommand.cs through the audio repository) and
  * UpdateUserPictureCommandHandler.Handle
  * (Features/Users/UpdatePicture/UpdateUserPictureCommand.cs). Each names
  * the new blob from a fresh guid, deletes the entity's old picture,
  * uploads the new one, records its path and saves; any exception in the
  * try block deletes the new blob and is rethrown. The storage service and
  * the image service's storage are one object store. The fresh guid and
  * the failures of every external call are parameters. */
module Pictures {
  import opened Wrappers
  import opened Text
  import opened Guids
  import opened Results
  import opened Entities
  import opened Accounts
  import opened Storage
  import opened Images
  import opened Persistence

  /** Which external calls fail: the delete of the old picture, the image
    * decoding (and the size of the encoded image), the upload of the new
    * one, and the delete of the catch block. */
  datatype PictureFaults = PictureFaults(
    removeOld: Option<S3Error>,
    decodes: bool,
    encodedLength: nat,
    upload: Option<S3Error>,
    cleanup: Option<S3Error>)

  /** How UserManager.UpdateAsync ends: saved, a failed IdentityResult, or
    * an exception. */
  datatype IdentityUpdate = Succeeded | Rejected | Throws

  /** How a try block ends (a returned result or an exception), with the
    * tables and the bucket it leaves. */
  datatype Attempt = Attempt(result: Result<AppResult<string>, Exception>, data: Tables, objects: map<string, StoredObject>)

  /** What a handler call leaves behind. */
  datatype PictureState = PictureState(outcome: Outcome<string>, data: Tables, objects: map<string, StoredObject>)

  /** The blob name of an audio's new picture: "<id>_<guid>.jpg". */
  function AudioPictureBlobName(id: int, g: Guid): string
  {
    Int64ToString(id) + "_" + FormatN(g) + ".jpg"
  }

  function AudioPictureKey(id: int, g: Guid): string
  {
    GetKeyName(GetContainer(AudioPicture).value, AudioPictureBlobName(id, g))
  }

  /** The blob name of a user's new picture: "<user id>/<guid>.jpg". */
  function UserPictureBlobName(userId: string, g: Guid): string
  {
    Combine(userId, FormatN(g) + ".jpg")
  }

  function UserPictureKey(userId: string, g: Guid): string
  {
    GetKeyName(GetContainer(UserPicture).value, UserPictureBlobName(userId, g))
  }

  /** A name made of a fixed prefix, a guid's digits and a fixed suffix
    * determines the guid. */
  lemma GuidNameInjective(prefix: string, g: Guid, h: Guid, suffix: string)
    requires prefix + FormatN(g) + suffix == prefix + FormatN(h) + suffix
    ensures g == h
  {
    var p := |prefix|;
    assert (prefix + FormatN(g) + suffix)[p..p + 32] == FormatN(g);
    assert (prefix + FormatN(h) + suffix)[p..p + 32] == FormatN(h);
    FormatNInjective(g, h);
  }

  lemma AudioPictureKeySplits(id: int, g: Guid)
    ensures AudioPictureKey(id, g) == "pictures/audios" + "/" + AudioPictureBlobName(id, g)
  {
    assert AudioPictureBlobName(id, g)[0] == Int64ToString(id)[0];
  }

  lemma AudioPictureKeyJoins(id: int, g: Guid)
    ensures AudioPictureKey(id, g) == "pictures/audios/" + Int64ToString(id) + "_" + FormatN(g) + ".jpg"
  {
    AudioPictureKeySplits(id, g);
  }

  /** An audio picture's key is "pictures/audios/<id>_<guid>.jpg", and two
    * guids give two keys for the same audio. */
  lemma AudioPictureKeyShape(id: int, g: Guid, h: Guid)
    ensures AudioPictureKey(id, g) == "pictures/audios/" + Int64ToString(id) + "_" + FormatN(g) + ".jpg"
    ensures g != h ==> AudioPictureKey(id, g) != AudioPictureKey(id, h)
  {
    AudioPictureKeyJoins(id, g);
    AudioPictureKeyJoins(id, h);
    if AudioPictureKey(id, g) == AudioPictureKey(id, h) {
      GuidNameInjective("pictures/audios/" + Int64ToString(id) + "_", g, h, ".jpg");
    }
  }

  lemma UserPictureKeyJoins(userId: string, g: Guid)
    requires userId != "" && userId[0] != '/' && userId[|userId| - 1] != '/'
    ensures UserPictureKey(userId, g) == "pictures/users/" + userId + "/" + FormatN(g) + ".jpg"
  {
    UserPictureKeySplits(userId, g);
  }

  lemma UserPictureKeySplits(userId: string, g: Guid)
    requires userId != "" && userId[0] != '/' && userId[|userId| - 1] != '/'
    ensures UserPictureBlobName(userId, g) == userId + "/" + FormatN(g) + ".jpg"
    ensures UserPictureKey(userId, g) == "pictures/users" + "/" + UserPictureBlobName(userId, g)
  {
    FormatsHaveNoSeparator(g);
    assert FormatN(g)[0] in FormatN(g);
  }

  /** A user picture's key is "pictures/users/<user id>/<guid>.jpg" for a
    * user id that is non-empty and has no separator at either end, and two
    * guids give two keys for the same user. */
  lemma UserPictureKeyShape(userId: string, g: Guid, h: Guid)
    requires userId != "" && userId[0] != '/' && userId[|userId| - 1] != '/'
    ensures UserPictureKey(userId, g) == "pictures/users/" + userId + "/" + FormatN(g) + ".jpg"
    ensures g != h ==> UserPictureKey(userId, g) != UserPictureKey(userId, h)
  {
    UserPictureKeyJoins(userId, g);
    UserPictureKeyJoins(userId, h);
    if UserPictureKey(userId, g) == UserPictureKey(userId, h) {
      GuidNameInjective("pictures/users/" + userId + "/", g, h, ".jpg");
    }
  }

  // -----------------------------------------------------------------------
  // The steps both handlers share
  // -----------------------------------------------------------------------

  /** Once the entity is found: its old picture, when it has one, is deleted,
    * then the new picture is uploaded under the new key. Gives the upload's
    * response or the exception that ends the try block, with the bucket. */
  function Replaced(objects: map<string, StoredObject>, oldPicture: Option<string>, key: string,
                    url: string, chunkThreshold: int, f: PictureFaults)
    : (Result<SaveBlobResponse, Exception>, map<string, StoredObject>)
  {
    var hasOld := !IsNullOrEmpty(oldPicture);
    if hasOld && f.removeOld.Some? then (Err(StorageException), objects)
    else
      var cleared := if hasOld then objects - {oldPicture.value} else objects;
      if !f.decodes then (Err(ImageException), cleared)
      else if f.upload.Some? then (Err(StorageException), cleared)
      else (Ok(SaveBlobResponse(url + "/" + key, key, None)),
            cleared[key := StoredObject(map[], UsesMultipart(Some(f.encodedLength), chunkThreshold))])
  }

  /** The catch block: the new blob is deleted and the exception rethrown;
    * a result returned inside the try block is returned as it is. */
  function Caught(t: Attempt, key: string, cleanup: Option<S3Error>): PictureState
  {
    if t.result.Err? then
      var c := DeleteAndRethrow(t.result.error, t.objects, key, cleanup);
      PictureState(c.0, t.data, c.1)
    else PictureState(Returned(t.result.value), t.data, t.objects)
  }

  /** The delete of the old picture and the upload. */
  method Replace(images: ImageService, oldPicture: Option<string>, pictureType: PictureType, blobName: string,
                 imageData: string, f: PictureFaults)
    returns (r: Result<SaveBlobResponse, Exception>)
    requires GetContainer(pictureType).Ok?
    modifies images.storage
    ensures (r, images.storage.objects)
            == Replaced(old(images.storage.objects), oldPicture, GetKeyName(GetContainer(pictureType).value, blobName),
                        images.storage.url, images.storage.chunkThreshold, f)
  {
    if !IsNullOrEmpty(oldPicture) {
      var removed := images.storage.RemoveKey(oldPicture.value, f.removeOld);
      if removed.Err? {
        return Err(removed.error);
      }
    }
    r := images.UploadImage(imageData, pictureType, blobName, f.decodes, f.encodedLength, f.upload);
  }

  /** Both handlers' outcome after the entity is found: a refusal cannot
    * happen; success exactly when no external call fails, and then the URL
    * of the new key; an exception otherwise. */
  lemma ReplacedOutcome(objects: map<string, StoredObject>, oldPicture: Option<string>, key: string,
                        url: string, chunkThreshold: int, f: PictureFaults)
    ensures var r := Replaced(objects, oldPicture, key, url, chunkThreshold, f);
            && (r.0.Ok? <==> (IsNullOrEmpty(oldPicture) || f.removeOld.None?) && f.decodes && f.upload.None?)
            && (r.0.Ok? ==> r.0.value.path == key && r.0.value.url == url + "/" + key && key in r.1)
            && (r.0.Err? ==> r.0.error == StorageException || r.0.error == ImageException)
            && (!IsNullOrEmpty(oldPicture) && f.removeOld.None? && oldPicture.value != key ==> oldPicture.value !in r.1)
            && (forall k :: k in objects && k != key && k != oldPicture.GetOr(key) ==> k in r.1 && r.1[k] == objects[k])
            && (forall k :: k in r.1 ==> k in objects || k == key)
  {
  }

  // -----------------------------------------------------------------------
  // UpdateAudioPictureCommandHandler
  // -----------------------------------------------------------------------

  /** The try block: NotFound, Forbidden for another owner (or an anonymous
    * caller), then the replacement; the path is recorded on the entity and
    * saved. Clearing the path first does not change the entity, since
    * Audio.UpdatePicture ignores an empty path. */
  function TryAudioPicture(data: Tables, objects: map<string, StoredObject>, url: string, chunkThreshold: int,
                           id: int, currentUserId: Option<string>, key: string, f: PictureFaults, saveFails: bool): Attempt
  {
    if id !in data.audios then Attempt(Ok(Fail(NotFound)), data, objects)
    else
      var row := data.audios[id];
      if row.userId != currentUserId then Attempt(Ok(Fail(Forbidden)), data, objects)
      else OwnAudioPicture(data, objects, url, chunkThreshold, row, key, f, saveFails)
  }

  /** The try block once the caller is known to own the audio: the old
    * picture's path is cleared, the new one uploaded and then saved. */
  function OwnAudioPicture(data: Tables, objects: map<string, StoredObject>, url: string, chunkThreshold: int,
                           row: AudioRow, key: string, f: PictureFaults, saveFails: bool): Attempt
  {
    var r := Replaced(objects, row.picture, key, url, chunkThreshold, f);
    var cleared := if !IsNullOrEmpty(row.picture) then row.UpdatePicture(Some("")) else row;
    var saved := SavedPicture(data, cleared, r.0, saveFails);
    Attempt(saved.0, saved.1, r.1)
  }

  /** After the upload: its exception is rethrown, otherwise the new path
    * is recorded and saved, and the response's URL returned. */
  function SavedPicture(data: Tables, row: AudioRow, response: Result<SaveBlobResponse, Exception>, saveFails: bool)
    : (Result<AppResult<string>, Exception>, Tables)
  {
    if response.Err? then (Err(response.error), data)
    else if saveFails || !Storable(data.users, row) then (Err(DatabaseException), data)
    else (Ok(Success(response.value.url)), SavedAudio(data, row.UpdatePicture(Some(response.value.path))))
  }

  /** The handler, as a function of the state before the call. */
  function AudioPictureSpec(data: Tables, objects: map<string, StoredObject>, url: string, chunkThreshold: int,
                            id: int, currentUserId: Option<string>, g: Guid, f: PictureFaults, saveFails: bool): PictureState
  {
    var key := AudioPictureKey(id, g);
    Caught(TryAudioPicture(data, objects, url, chunkThreshold, id, currentUserId, key, f, saveFails), key, f.cleanup)
  }

  /** The handler; the fresh guid is a parameter. */
  method UpdateAudioPicture(db: Database, images: ImageService, id: int, currentUserId: Option<string>, g: Guid,
                            imageData: string, f: PictureFaults, saveFails: bool)
    returns (o: Outcome<string>)
    requires db.Valid()
    modifies db, images.storage
    ensures db.Valid() && db.snapshot == old(db.snapshot) && db.events == old(db.events)
    ensures PictureState(o, db.data, images.storage.objects)
            == AudioPictureSpec(old(db.data), old(images.storage.objects), images.storage.url, images.storage.chunkThreshold,
                                id, currentUserId, g, f, saveFails)
  {
    var blobName := AudioPictureBlobName(id, g);
    var attempt := TryUpdateAudioPicture(db, images, id, currentUserId, blobName, imageData, f, saveFails);
    if attempt.Err? {
      var removed := images.RemoveImage(AudioPicture, blobName, f.cleanup);
      if removed.Err? {
        return Raised(removed.error);
      }
      return Raised(attempt.error);
    }
    o := Returned(attempt.value);
  }

  /** The try block of UpdateAudioPicture. */
  method TryUpdateAudioPicture(db: Database, images: ImageService, id: int, currentUserId: Option<string>,
                               blobName: string, imageData: string, f: PictureFaults, saveFails: bool)
    returns (r: Result<AppResult<string>, Exception>)
    requires db.Valid()
    modifies db, images.storage
    ensures db.Valid() && db.snapshot == old(db.snapshot) && db.events == old(db.events)
    ensures Attempt(r, db.data, images.storage.objects)
            == TryAudioPicture(old(db.data), old(images.storage.objects), images.storage.url, images.storage.chunkThreshold,
                               id, currentUserId, GetKeyName(GetContainer(AudioPicture).value, blobName), f, saveFails)
  {
    if id !in db.data.audios {
      return Ok(Fail(NotFound));
    }
    if db.data.audios[id].userId != currentUserId {
      return Ok(Fail(Forbidden));
    }
    r := ReplaceOwnAudioPicture(db, images, db.data.audios[id], blobName, imageData, f, saveFails);
  }

  /** The try block of UpdateAudioPicture once the caller is known to own
    * the audio. */
  method ReplaceOwnAudioPicture(db: Database, images: ImageService, row: AudioRow, blobName: string, imageData: string,
                                f: PictureFaults, saveFails: bool)
    returns (r: Result<AppResult<string>, Exception>)
    requires db.Valid() && row.id in db.data.audios
    modifies db, images.storage
    ensures db.Valid() && db.snapshot == old(db.snapshot) && db.events == old(db.events)
    ensures Attempt(r, db.data, images.storage.objects)
            == OwnAudioPicture(old(db.data), old(images.storage.objects), images.storage.url, images.storage.chunkThreshold,
                               row, GetKeyName(GetContainer(AudioPicture).value, blobName), f, saveFails)
  {
    var audio := new Audio.Load(row);
    var response := Replace(images, audio.picture, AudioPicture, blobName, imageData, f);
    if !IsNullOrEmpty(audio.picture) {
      audio.UpdatePicture(Some(""));
    }
    r := SavePicture(db, audio, response, saveFails);
  }

  /** The tail of the try block of UpdateAudioPicture. */
  method SavePicture(db: Database, audio: Audio, response: Result<SaveBlobResponse, Exception>, saveFails: bool)
    returns (r: Result<AppResult<string>, Exception>)
    requires db.Valid() && audio.id in db.data.audios
    modifies db, audio
    ensures db.Valid() && db.snapshot == old(db.snapshot) && db.events == old(db.events)
    ensures (r, db.data) == SavedPicture(old(db.data), old(audio.Row()), response, saveFails)
  {
    if response.Err? {
      return Err(response.error);
    }
    audio.UpdatePicture(Some(response.value.path));
    var saved := db.SaveAudio(audio.Row(), saveFails);
    if saved.Err? {
      return Err(saved.error);
    }
    r := Ok(Success(response.value.url));
  }

  /** A missing audio is NotFound and another owner's audio Forbidden, and
    * a refusal touches neither the tables nor the bucket: the refusals are
    * returned inside the try block, so the catch block's delete is not
    * issued. */
  lemma AudioPictureRefusals(data: Tables, objects: map<string, StoredObject>, url: string, chunkThreshold: int,
                             id: int, currentUserId: Option<string>, g: Guid, f: PictureFaults, saveFails: bool)
    ensures var s := AudioPictureSpec(data, objects, url, chunkThreshold, id, currentUserId, g, f, saveFails);
            && (s.outcome.IsFailure(NotFound) <==> id !in data.audios)
            && (s.outcome.IsFailure(Forbidden) <==> id in data.audios && data.audios[id].userId != currentUserId)
            && (s.outcome.Returned? && !s.outcome.result.isSuccess ==> s.data == data && s.objects == objects)
  {
  }

  /** The picture is replaced exactly when the caller owns the audio and no
    * external call fails. */
  lemma AudioPictureSucceeds(data: Tables, objects: map<string, StoredObject>, url: string, chunkThreshold: int,
                             id: int, currentUserId: Option<string>, g: Guid, f: PictureFaults, saveFails: bool)
    ensures var s := AudioPictureSpec(data, objects, url, chunkThreshold, id, currentUserId, g, f, saveFails);
            s.outcome.Returned? && s.outcome.result.isSuccess <==>
              id in data.audios && data.audios[id].userId == currentUserId
              && (IsNullOrEmpty(data.audios[id].picture) || f.removeOld.None?)
              && f.decodes && f.upload.None? && !saveFails && Storable(data.users, data.audios[id])
  {
    var key := AudioPictureKey(id, g);
    CaughtSucceeds(TryAudioPicture(data, objects, url, chunkThreshold, id, currentUserId, key, f, saveFails), key,
                   f.cleanup);
    if id in data.audios && data.audios[id].userId == currentUserId {
      OwnAudioPictureSucceeds(data, objects, url, chunkThreshold, data.audios[id], key, f, saveFails);
    }
  }

  /** The catch block only rethrows: a handler reports success exactly
    * when its try block does. */
  lemma CaughtSucceeds(t: Attempt, key: string, cleanup: Option<S3Error>)
    ensures var s := Caught(t, key, cleanup);
            s.outcome.Returned? && s.outcome.result.isSuccess <==> t.result.Ok? && t.result.value.isSuccess
  {
  }

  /** The owner's try block succeeds exactly when no call fails. */
  lemma OwnAudioPictureSucceeds(data: Tables, objects: map<string, StoredObject>, url: string, chunkThreshold: int,
                                row: AudioRow, key: string, f: PictureFaults, saveFails: bool)
    ensures var t := OwnAudioPicture(data, objects, url, chunkThreshold, row, key, f, saveFails);
            t.result.Ok? && t.result.value.isSuccess <==>
              (IsNullOrEmpty(row.picture) || f.removeOld.None?) && f.decodes && f.upload.None? && !saveFails
              && Storable(data.users, row)
  {
    ReplacedOutcome(objects, row.picture, key, url, chunkThreshold, f);
  }

  /** On success the saved audio's picture is the new key and the result is
    * that key's URL; the old picture's blob is gone and the new one
    * written; no other audio and no other blob changes. */
  lemma AudioPictureReplaced(data: Tables, objects: map<string, StoredObject>, url: string, chunkThreshold: int,
                             id: int, currentUserId: Option<string>, g: Guid, f: PictureFaults)
    requires id in data.audios && data.audios[id].userId == currentUserId
    requires (IsNullOrEmpty(data.audios[id].picture) || f.removeOld.None?) && f.decodes && f.upload.None?
    requires Storable(data.users, data.audios[id])
    ensures var s := AudioPictureSpec(data, objects, url, chunkThreshold, id, currentUserId, g, f, false);
            var key := AudioPictureKey(id, g);
            var row := data.audios[id];
            && s.outcome == Returned(Success(url + "/" + key))
            && s.data == SavedAudio(data, row.(picture := Some(key)))
            && key in s.objects
            && (!IsNullOrEmpty(row.picture) && row.picture.value != key ==> row.picture.value !in s.objects)
            && (forall k :: k in objects && k != key && k != row.picture.GetOr(key) ==>
                  k in s.objects && s.objects[k] == objects[k])
  {
    var key := AudioPictureKey(id, g);
    AudioPictureKeyJoins(id, g);
    assert !IsBlank(key) by { assert key[0] == 'p'; }
    ReplacedOutcome(objects, data.audios[id].picture, key, url, chunkThreshold, f);
  }

  /** Any exception leaves the tables as they were, raises either the
    * exception of the failing call or, when the catch block's delete fails,
    * a StorageException; when that delete succeeds the new key is absent
    * and no blob was added. */
  lemma AudioPictureFailureCleansUp(data: Tables, objects: map<string, StoredObject>, url: string, chunkThreshold: int,
                                    id: int, currentUserId: Option<string>, g: Guid, f: PictureFaults, saveFails: bool)
    ensures var s := AudioPictureSpec(data, objects, url, chunkThreshold, id, currentUserId, g, f, saveFails);
            var key := AudioPictureKey(id, g);
            && (s.outcome.Raised? ==> s.data == data)
            && (s.outcome.Raised? && f.cleanup.Some? ==> s.outcome.error == StorageException)
            && (s.outcome.Raised? && f.cleanup.None? ==>
                  && s.outcome.error in {StorageException, ImageException, DatabaseException}
                  && key !in s.objects
                  && (forall k :: k in s.objects ==> k in objects))
  {
    var key := AudioPictureKey(id, g);
    var t := TryAudioPicture(data, objects, url, chunkThreshold, id, currentUserId, key, f, saveFails);
    if id in data.audios && data.audios[id].userId == currentUserId {
      ReplacedOutcome(objects, data.audios[id].picture, key, url, chunkThreshold, f);
    }
    CaughtCleansUp(data, objects, t, key, f.cleanup);
  }

  /** The catch block after a try block that raises only the exceptions of
    * its calls, with the tables untouched and no blob but the new key
    * added: the exception, or the delete's StorageException, is raised and
    * the new key removed unless that delete fails. */
  lemma CaughtCleansUp(data: Tables, objects: map<string, StoredObject>, t: Attempt, key: string,
                       cleanup: Option<S3Error>)
    requires t.result.Err? ==> && t.data == data
                               && t.result.error in {StorageException, ImageException, DatabaseException}
                               && (forall k :: k in t.objects ==> k in objects || k == key)
    ensures var s := Caught(t, key, cleanup);
            && (s.outcome.Raised? ==> s.data == data)
            && (s.outcome.Raised? && cleanup.Some? ==> s.outcome.error == StorageException)
            && (s.outcome.Raised? && cleanup.None? ==>
                  && s.outcome.error in {StorageException, ImageException, DatabaseException}
                  && key !in s.objects
                  && (forall k :: k in s.objects ==> k in objects))
  {
  }

  /** As written, the old picture is deleted before anything that can still
    * fail: when the upload or the save then fails, the stored audio keeps
    * the path of a blob that no longer exists. */
  lemma AudioPictureDanglingAfterFailure(data: Tables, objects: map<string, StoredObject>, url: string, chunkThreshold: int,
                                         id: int, currentUserId: Option<string>, g: Guid, f: PictureFaults, saveFails: bool)
    requires id in data.audios && data.audios[id].userId == currentUserId
    requires !IsNullOrEmpty(data.audios[id].picture) && data.audios[id].picture.value != AudioPictureKey(id, g)
    requires f.removeOld.None? && (!f.decodes || f.upload.Some? || saveFails)
    ensures var s := AudioPictureSpec(data, objects, url, chunkThreshold, id, currentUserId, g, f, saveFails);
            && s.outcome.Raised?
            && s.data.audios[id].picture == data.audios[id].picture
            && data.audios[id].picture.value !in s.objects
  {
    ReplacedOutcome(objects, data.audios[id].picture, AudioPictureKey(id, g), url, chunkThreshold, f);
  }

  // -----------------------------------------------------------------------
  // UpdateUserPictureCommandHandler
  // -----------------------------------------------------------------------

  /** The try block: Unauthorized for an unknown user id, then the
    * replacement; the path is set on the user and UpdateAsync called, whose
    * IdentityResult is ignored. */
  function TryUserPicture(data: Tables, objects: map<string, StoredObject>, url: string, chunkThreshold: int,
                          userId: string, key: string, f: PictureFaults, update: IdentityUpdate): Attempt
  {
    if userId !in data.users then Attempt(Ok(Fail(Unauthorized)), data, objects)
    else
      var user := data.users[userId];
      var r := Replaced(objects, user.picture, key, url, chunkThreshold, f);
      if r.0.Err? then Attempt(Err(r.0.error), data, r.1)
      else
        var updated := user.(picture := Some(r.0.value.path));
        match update
        case Throws => Attempt(Err(DatabaseException), data, r.1)
        case Rejected => Attempt(Ok(Success(r.0.value.url)), data, r.1)
        case Succeeded => Attempt(Ok(Success(r.0.value.url)), data.(users := data.users[updated.id := updated]), r.1)
  }

  /** The handler: a null user id makes Path.Combine raise before the try
    * block. */
  function UserPictureSpec(data: Tables, objects: map<string, StoredObject>, url: string, chunkThreshold: int,
                           userId: Option<string>, g: Guid, f: PictureFaults, update: IdentityUpdate): PictureState
  {
    if userId.None? then PictureState(Raised(ArgumentNullException("path1")), data, objects)
    else
      var key := UserPictureKey(userId.value, g);
      Caught(TryUserPicture(data, objects, url, chunkThreshold, userId.value, key, f, update), key, f.cleanup)
  }

  method UpdateUserPicture(db: Database, images: ImageService, userId: Option<string>, g: Guid,
                           imageData: string, f: PictureFaults, update: IdentityUpdate)
    returns (o: Outcome<string>)
    requires db.Valid()
    modifies db, images.storage
    ensures db.Valid() && db.snapshot == old(db.snapshot) && db.events == old(db.events)
    ensures PictureState(o, db.data, images.storage.objects)
            == UserPictureSpec(old(db.data), old(images.storage.objects), images.storage.url, images.storage.chunkThreshold,
                               userId, g, f, update)
  {
    if userId.None? {
      return Raised(ArgumentNullException("path1"));
    }
    var blobName := UserPictureBlobName(userId.value, g);
    var attempt := TryUpdateUserPicture(db, images, userId.value, blobName, imageData, f, update);
    if attempt.Err? {
      // Task.WhenAll over the one delete task
      var removed := images.RemoveImage(UserPicture, blobName, f.cleanup);
      if removed.Err? {
        return Raised(removed.error);
      }
      return Raised(attempt.error);
    }
    o := Returned(attempt.value);
  }

  /** The try block of UpdateUserPicture. */
  method TryUpdateUserPicture(db: Database, images: ImageService, userId: string, blobName: string,
                              imageData: string, f: PictureFaults, update: IdentityUpdate)
    returns (r: Result<AppResult<string>, Exception>)
    requires db.Valid()
    modifies db, images.storage
    ensures db.Valid() && db.snapshot == old(db.snapshot) && db.events == old(db.events)
    ensures Attempt(r, db.data, images.storage.objects)
            == TryUserPicture(old(db.data), old(images.storage.objects), images.storage.url, images.storage.chunkThreshold,
                              userId, GetKeyName(GetContainer(UserPicture).value, blobName), f, update)
  {
    if userId !in db.data.users {
      return Ok(Fail(Unauthorized));
    }
    var user := db.data.users[userId];
    var response := Replace(images, user.picture, UserPicture, blobName, imageData, f);
    if !IsNullOrEmpty(user.picture) {
      user := user.(picture := Some(""));
    }
    if response.Err? {
      return Err(response.error);
    }
    user := user.(picture := Some(response.value.path));
    var saved := UpdateUser(db, user, update);
    if saved.Err? {
      return Err(saved.error);
    }
    r := Ok(Success(response.value.url));
  }

  /** UserManager.UpdateAsync: a rejected update saves nothing and is not
    * an error to the caller, who ignores the IdentityResult. */
  method UpdateUser(db: Database, user: User, update: IdentityUpdate) returns (r: Result<(), Exception>)
    requires db.Valid()
    modifies db
    ensures db.Valid() && db.snapshot == old(db.snapshot) && db.events == old(db.events)
    ensures update == Throws ==> r == Err(DatabaseException) && db.data == old(db.data)
    ensures update == Rejected ==> r.Ok? && db.data == old(db.data)
    ensures update == Succeeded ==> r.Ok? && db.data == old(db.data).(users := old(db.data).users[user.id := user])
  {
    r := Ok(());
    if update != Rejected {
      r := db.SaveUser(user, update == Throws);
    }
  }

  /** A null user id raises ArgumentNullException and an unknown one is
    * Unauthorized; neither touches the tables or the bucket. */
  lemma UserPictureRefusals(data: Tables, objects: map<string, StoredObject>, url: string, chunkThreshold: int,
                            userId: Option<string>, g: Guid, f: PictureFaults, update: IdentityUpdate)
    ensures var s := UserPictureSpec(data, objects, url, chunkThreshold, userId, g, f, update);
            && (s.outcome == Raised(ArgumentNullException("path1")) <==> userId.None?)
            && (s.outcome.IsFailure(Unauthorized) <==> userId.Some? && userId.value !in data.users)
            && (userId.None? || userId.value !in data.users ==> s.data == data && s.objects == objects)
  {
    if userId.Some? {
      var key := UserPictureKey(userId.value, g);
      if userId.value in data.users {
        KnownUserPictureOutcome(data, objects, url, chunkThreshold, userId.value, key, f, update);
      } else {
        assert TryUserPicture(data, objects, url, chunkThreshold, userId.value, key, f, update)
               == Attempt(Ok(Fail(Unauthorized)), data, objects);
      }
    }
  }

  /** For a stored user the handler neither raises ArgumentNullException
    * nor reports Unauthorized. */
  lemma KnownUserPictureOutcome(data: Tables, objects: map<string, StoredObject>, url: string, chunkThreshold: int,
                                userId: string, key: string, f: PictureFaults, update: IdentityUpdate)
    requires userId in data.users
    ensures var s := Caught(TryUserPicture(data, objects, url, chunkThreshold, userId, key, f, update), key, f.cleanup);
            s.outcome != Raised(ArgumentNullException("path1")) && !s.outcome.IsFailure(Unauthorized)
  {
    ReplacedOutcome(objects, data.users[userId].picture, key, url, chunkThreshold, f);
    var t := TryUserPicture(data, objects, url, chunkThreshold, userId, key, f, update);
    assert t.result.Err? ==> t.result.error in {StorageException, ImageException, DatabaseException};
    assert t.result.Ok? ==> t.result.value.isSuccess;
  }

  /** The handler reports success exactly when the user exists and no call
    * throws, even when UpdateAsync rejects the change. */
  lemma UserPictureSucceeds(data: Tables, objects: map<string, StoredObject>, url: string, chunkThreshold: int,
                            userId: Option<string>, g: Guid, f: PictureFaults, update: IdentityUpdate)
    ensures var s := UserPictureSpec(data, objects, url, chunkThreshold, userId, g, f, update);
            s.outcome.Returned? && s.outcome.result.isSuccess <==>
              userId.Some? && userId.value in data.users
              && (IsNullOrEmpty(data.users[userId.value].picture) || f.removeOld.None?)
              && f.decodes && f.upload.None? && update != Throws
  {
    if userId.Some? {
      var key := UserPictureKey(userId.value, g);
      CaughtSucceeds(TryUserPicture(data, objects, url, chunkThreshold, userId.value, key, f, update), key, f.cleanup);
      TryUserPictureSucceeds(data, objects, url, chunkThreshold, userId.value, key, f, update);
    }
  }

  /** The try block succeeds exactly when the user exists and no call
    * throws. */
  lemma TryUserPictureSucceeds(data: Tables, objects: map<string, StoredObject>, url: string, chunkThreshold: int,
                               userId: string, key: string, f: PictureFaults, update: IdentityUpdate)
    ensures var t := TryUserPicture(data, objects, url, chunkThreshold, userId, key, f, update);
            t.result.Ok? && t.result.value.isSuccess <==>
              userId in data.users && (IsNullOrEmpty(data.users[userId].picture) || f.removeOld.None?)
              && f.decodes && f.upload.None? && update != Throws
  {
    if userId in data.users {
      ReplacedOutcome(objects, data.users[userId].picture, key, url, chunkThreshold, f);
    }
  }

  /** On success the new blob is written, the old one deleted and the
    * result is the new key's URL, but only an accepted update records the
    * new path on the user: a rejected one leaves the tables as they were. */
  lemma UserPictureReplaced(data: Tables, objects: map<string, StoredObject>, url: string, chunkThreshold: int,
                            userId: string, g: Guid, f: PictureFaults, update: IdentityUpdate)
    requires userId in data.users && update != Throws
    requires (IsNullOrEmpty(data.users[userId].picture) || f.removeOld.None?) && f.decodes && f.upload.None?
    ensures var s := UserPictureSpec(data, objects, url, chunkThreshold, Some(userId), g, f, update);
            var key := UserPictureKey(userId, g);
            var user := data.users[userId];
            && s.outcome == Returned(Success(url + "/" + key))
            && key in s.objects
            && (!IsNullOrEmpty(user.picture) && user.picture.value != key ==> user.picture.value !in s.objects)
            && (update == Succeeded ==> s.data == data.(users := data.users[user.id := user.(picture := Some(key))]))
            && (update == Rejected ==> s.data == data)
  {
    ReplacedOutcome(objects, data.users[userId].picture, UserPictureKey(userId, g), url, chunkThreshold, f);
  }

  /** Any exception from the try block leaves the tables as they were; when
    * the catch block's delete succeeds the new key is absent and no blob
    * was added, otherwise the delete's StorageException is raised. */
  lemma UserPictureFailureCleansUp(data: Tables, objects: map<string, StoredObject>, url: string, chunkThreshold: int,
                                   userId: Option<string>, g: Guid, f: PictureFaults, update: IdentityUpdate)
    requires userId.Some?
    ensures var s := UserPictureSpec(data, objects, url, chunkThreshold, userId, g, f, update);
            var key := UserPictureKey(userId.value, g);
            && (s.outcome.Raised? ==> s.data == data)
            && (s.outcome.Raised? && f.cleanup.Some? ==> s.outcome.error == StorageException)
            && (s.outcome.Raised? && f.cleanup.None? ==>
                  && s.outcome.error in {StorageException, ImageException, DatabaseException}
                  && key !in s.objects
                  && (forall k :: k in s.objects ==> k in objects))
  {
    var key := UserPictureKey(userId.value, g);
    var t := TryUserPicture(data, objects, url, chunkThreshold, userId.value, key, f, update);
    if userId.value in data.users {
      ReplacedOutcome(objects, data.users[userId.value].picture, key, url, chunkThreshold, f);
    }
    CaughtCleansUp(data, objects, t, key, f.cleanup);
  }
}
