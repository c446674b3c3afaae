/** CreateAudioCommandHandler.Handle, in its two revisions:
  * Features/Audio/CreateAudio/CreateAudioCommand.cs (database context,
  * Guid upload id, sets IsLoop) and Features/Audios/CreateAudio/
  * CreateAudioCommand.cs (repositories, never sets IsLoop). Both build the
  * entity, check that the uploaded blob exists, then resolve the genre and
  * the tags and insert the audio; any exception after the check deletes
  * the blob and is rethrown. The tag normalisation (FormatTags) is not part
  * of this model: it is the parameter formatTags. */
module CreateAudio {
  import opened Wrappers
  import opened Text
  import opened Guids
  import opened Results
  import opened Entities
  import opened Accounts
  import Containers
  import opened BlobHelpers
  import opened Storage
  import opened TagMerge
  import opened Genres
  import opened AudioViews
  import opened Persistence

  datatype CreateAudioRequest = CreateAudioRequest(
    uploadId: Guid,
    fileName: Option<string>,
    fileSize: int,
    duration: int,
    title: Option<string>,
    description: Option<string>,
    tags: seq<string>,
    genre: Option<string>,
    isPublic: Option<bool>,
    isLoop: Option<bool>)

  /** The two revisions differ in whether the handler sets IsLoop. */
  datatype Revision = ContextRevision | RepositoryRevision

  const MissingBlobMessage: string := "Cannot find audio in storage."

  /** The entity before the existence check: constructed, then the title,
    * description, loop flag (unset means false; the repository revision
    * leaves it alone) and public flag (unset means true) applied. */
  function Prepared(request: CreateAudioRequest, currentUserId: Option<string>, revision: Revision)
    : Result<AudioRow, Exception>
  {
    var created := NewAudio(request.uploadId, request.fileName, request.fileSize, request.duration, currentUserId);
    if created.Err? then Err(created.error)
    else
      var a := created.value.UpdateTitle(request.title).UpdateDescription(request.description);
      var b := if revision == ContextRevision then a.UpdateLoop(Some(request.isLoop.GetOr(false))) else a;
      Ok(b.UpdatePublicStatus(Some(request.isPublic.GetOr(true))))
  }

  /** The tags the handler attaches: the merge of the normalised request
    * tags, or none when the request has no tags. */
  function RequestedTags(stored: seq<Tag>, tags: seq<string>, formatTags: seq<string> -> seq<string>): seq<Tag>
  {
    if |tags| > 0 then MergedTags(stored, formatTags(tags)) else []
  }

  /** The row inserted: the prepared entity with the genre found for the
    * request and the requested tags. */
  function Completed(row: AudioRow, data: Tables, request: CreateAudioRequest,
                     formatTags: seq<string> -> seq<string>): (r: AudioRow)
    ensures r.title == row.title && r.fileExt == row.fileExt && r.uploadId == row.uploadId && r.userId == row.userId
    ensures Storable(data.users, r) <==> Storable(data.users, row)
  {
    row.UpdateGenre(GetGenre(data.genres, request.genre)).UpdateTags(RequestedTags(data.tags, request.tags, formatTags))
  }

  /** The key of the uploaded blob. */
  function BlobKey(row: AudioRow): string
  {
    GetKeyName(Containers.Audios, GetAudioBlobName(row))
  }

  /** The view returned: the audio's projection with the caller as its user
    * and its favourite flag recomputed. */
  function CreatedView(row: AudioRow, user: User, currentUserId: Option<string>): AudioViewModel
  {
    Map(row, user, currentUserId).(
      user := UserDto(user.id, user.userName, user.picture, false),
      isFavorited := FavoritedBy(row.favorited, currentUserId))
  }

  /** What a call leaves behind: the outcome, the tables and the bucket. */
  datatype CreateState = CreateState(outcome: Outcome<AudioViewModel>, data: Tables, objects: map<string, StoredObject>)

  /** The handler, as a function of the state before the call. */
  function CreateSpec(data: Tables, objects: map<string, StoredObject>, request: CreateAudioRequest,
                      currentUserId: Option<string>, formatTags: seq<string> -> seq<string>, revision: Revision,
                      existsFailure: Option<S3Error>, saveFails: bool, removeFailure: Option<S3Error>): CreateState
  {
    var prepared := Prepared(request, currentUserId, revision);
    if prepared.Err? then CreateState(Raised(prepared.error), data, objects)
    else
      var key := BlobKey(prepared.value);
      if existsFailure.Some? && existsFailure.value.statusCode != NotFoundStatus then
        CreateState(Raised(StorageException), data, objects)
      else if existsFailure.Some? || key !in objects then
        CreateState(Returned(Fail(BadRequest, MissingBlobMessage)), data, objects)
      else InsertSpec(prepared.value, data, objects, request, currentUserId, formatTags, saveFails, removeFailure)
  }

  /** The try block, as a function of the prepared entity and the state
    * after the existence check. */
  function InsertSpec(row: AudioRow, data: Tables, objects: map<string, StoredObject>, request: CreateAudioRequest,
                      currentUserId: Option<string>, formatTags: seq<string> -> seq<string>,
                      saveFails: bool, removeFailure: Option<S3Error>): CreateState
  {
    StoreSpec(Completed(row, data, request, formatTags), BlobKey(row), data, objects, currentUserId,
              saveFails, removeFailure)
  }

  /** The insert and the view, once the genre and the tags are attached;
    * the blob is named after the entity as it was prepared. An audio the
    * Audios table refuses makes the insert raise like a failing call. */
  function StoreSpec(done: AudioRow, key: string, data: Tables, objects: map<string, StoredObject>,
                     currentUserId: Option<string>, saveFails: bool, removeFailure: Option<S3Error>): CreateState
  {
    if saveFails || !Storable(data.users, done) then
      var c := DeleteAndRethrow(DatabaseException, objects, key, removeFailure);
      CreateState(c.0, data, c.1)
    else
      var stored := done.(id := data.nextId);
      var saved := data.(audios := data.audios[stored.id := stored], nextId := data.nextId + 1,
                         tags := data.tags + Unstored(data.tags, done.tags));
      var r := Response(stored, data.users, key, objects, currentUserId, removeFailure);
      CreateState(r.0, saved, r.1)
  }

  /** The view of the inserted audio: a caller who is not a stored user is
    * dereferenced as null, which raises and deletes the blob. */
  function Response(stored: AudioRow, users: map<string, User>, key: string, objects: map<string, StoredObject>,
                    currentUserId: Option<string>, removeFailure: Option<S3Error>)
    : (Outcome<AudioViewModel>, map<string, StoredObject>)
  {
    match FindUser(users, currentUserId)
    case Some(user) => (Returned(Success(CreatedView(stored, user, currentUserId))), objects)
    case None => DeleteAndRethrow(NullReferenceException, objects, key, removeFailure)
  }

  /** The constructor call and the field updates before the existence check. */
  method Prepare(request: CreateAudioRequest, currentUserId: Option<string>, revision: Revision)
    returns (r: Result<Audio, Exception>)
    ensures r.Err? ==> Prepared(request, currentUserId, revision) == Err(r.error)
    ensures r.Ok? ==> fresh(r.value) && Prepared(request, currentUserId, revision) == Ok(r.value.Row())
  {
    var created := Audio.New(request.uploadId, request.fileName, request.fileSize, request.duration, currentUserId);
    if created.Err? {
      return Err(created.error);
    }
    var audio := created.value;
    audio.UpdateTitle(request.title);
    audio.UpdateDescription(request.description);
    if revision == ContextRevision {
      audio.UpdateLoop(Some(request.isLoop.GetOr(false)));
    }
    audio.UpdatePublicStatus(Some(request.isPublic.GetOr(true)));
    r := Ok(audio);
  }

  method Compensate(storage: AmazonS3Service, blobName: string, error: Exception, removeFailure: Option<S3Error>)
    returns (o: Outcome<AudioViewModel>)
    modifies storage
    ensures (o, storage.objects)
            == DeleteAndRethrow(error, old(storage.objects), GetKeyName(Containers.Audios, blobName), removeFailure)
  {
    var removed := storage.Remove(Containers.Audios, blobName, removeFailure);
    if removed.Err? {
      return Raised(removed.error);
    }
    o := Raised(error);
  }

  /** The genre lookup and the tag merge, attached to the entity. */
  method Attach(audio: Audio, data: Tables, request: CreateAudioRequest, formatTags: seq<string> -> seq<string>)
    modifies audio
    ensures audio.Row() == Completed(old(audio.Row()), data, request, formatTags)
  {
    var genre := GetGenre(data.genres, request.genre);
    audio.UpdateGenre(genre);
    var tags: seq<Tag> := [];
    if |request.tags| > 0 {
      tags := MergeTags(data.tags, formatTags(request.tags));
    }
    audio.UpdateTags(tags);
  }

  /** The try block: genre, tags, insert, view; any exception deletes the blob. */
  method Insert(db: Database, storage: AmazonS3Service, audio: Audio, request: CreateAudioRequest,
                currentUserId: Option<string>, formatTags: seq<string> -> seq<string>,
                saveFails: bool, removeFailure: Option<S3Error>)
    returns (o: Outcome<AudioViewModel>)
    requires db.Valid()
    modifies db, storage, audio
    ensures db.Valid() && db.snapshot == old(db.snapshot) && db.events == old(db.events)
    ensures CreateState(o, db.data, storage.objects)
            == InsertSpec(old(audio.Row()), old(db.data), old(storage.objects), request, currentUserId, formatTags,
                          saveFails, removeFailure)
  {
    var blobName := GetAudioBlobName(audio.Row());
    Attach(audio, db.data, request, formatTags);
    o := Store(db, storage, audio.Row(), blobName, currentUserId, saveFails, removeFailure);
  }

  /** The insert and the view; a failure deletes the blob. */
  method Store(db: Database, storage: AmazonS3Service, done: AudioRow, blobName: string,
               currentUserId: Option<string>, saveFails: bool, removeFailure: Option<S3Error>)
    returns (o: Outcome<AudioViewModel>)
    requires db.Valid()
    modifies db, storage
    ensures db.snapshot == old(db.snapshot) && db.events == old(db.events)
    ensures db.Valid()
    ensures CreateState(o, db.data, storage.objects)
            == StoreSpec(done, GetKeyName(Containers.Audios, blobName), old(db.data), old(storage.objects),
                         currentUserId, saveFails, removeFailure)
  {
    var saved := db.AddAudio(done, saveFails);
    if saved.Err? {
      o := Compensate(storage, blobName, saved.error, removeFailure);
      return;
    }
    assert saved.value == done.(id := old(db.data).nextId) && db.data.users == old(db.data).users;
    o := Respond(storage, saved.value, db.data.users, blobName, currentUserId, removeFailure);
  }

  /** The view of the inserted audio; a failure deletes the blob. */
  method Respond(storage: AmazonS3Service, stored: AudioRow, users: map<string, User>, blobName: string,
                 currentUserId: Option<string>, removeFailure: Option<S3Error>)
    returns (o: Outcome<AudioViewModel>)
    modifies storage
    ensures (o, storage.objects)
            == Response(stored, users, GetKeyName(Containers.Audios, blobName), old(storage.objects), currentUserId,
                        removeFailure)
  {
    var currentUser := FindUser(users, currentUserId);
    if currentUser.None? {
      o := Compensate(storage, blobName, NullReferenceException, removeFailure);
      return;
    }
    o := Returned(Success(CreatedView(stored, currentUser.value, currentUserId)));
  }

  /** CreateAudioCommandHandler.Handle. The failures of the existence
    * check, of the insert and of the compensating delete are parameters. */
  method Handle(db: Database, storage: AmazonS3Service, request: CreateAudioRequest,
                currentUserId: Option<string>, formatTags: seq<string> -> seq<string>, revision: Revision,
                existsFailure: Option<S3Error>, saveFails: bool, removeFailure: Option<S3Error>)
    returns (o: Outcome<AudioViewModel>)
    requires db.Valid()
    modifies db, storage
    ensures db.Valid() && db.snapshot == old(db.snapshot) && db.events == old(db.events)
    ensures CreateState(o, db.data, storage.objects)
            == CreateSpec(old(db.data), old(storage.objects), request, currentUserId, formatTags, revision,
                          existsFailure, saveFails, removeFailure)
  {
    var prepared := Prepare(request, currentUserId, revision);
    if prepared.Err? {
      return Raised(prepared.error);
    }
    var audio := prepared.value;
    var found := storage.Exists(Containers.Audios, GetAudioBlobName(audio.Row()), existsFailure);
    if found.Err? {
      return Raised(found.error);
    }
    if !found.value {
      return Returned(Fail(BadRequest, MissingBlobMessage));
    }
    o := Insert(db, storage, audio, request, currentUserId, formatTags, saveFails, removeFailure);
  }

  // -----------------------------------------------------------------------
  // What the handler promises
  // -----------------------------------------------------------------------

  /** The blob key checked for a request: the upload id and the extension
    * of the file name, under the audios container. */
  function RequestKey(request: CreateAudioRequest): string
  {
    GetKeyName(Containers.Audios, FormatD(request.uploadId) + GetExtension(request.fileName.GetOr("")))
  }

  lemma PreparedKey(request: CreateAudioRequest, currentUserId: Option<string>, revision: Revision)
    requires Prepared(request, currentUserId, revision).Ok?
    ensures BlobKey(Prepared(request, currentUserId, revision).value) == RequestKey(request)
  {
    var created := NewAudio(request.uploadId, request.fileName, request.fileSize, request.duration, currentUserId);
    var p := Prepared(request, currentUserId, revision).value;
    assert p.uploadId == created.value.uploadId && p.fileExt == created.value.fileExt;
  }

  /** The audio a successful call inserts. */
  function CreatedRow(request: CreateAudioRequest, currentUserId: Option<string>, revision: Revision,
                      data: Tables, formatTags: seq<string> -> seq<string>): AudioRow
    requires Prepared(request, currentUserId, revision).Ok?
  {
    Completed(Prepared(request, currentUserId, revision).value, data, request, formatTags).(id := data.nextId)
  }

  /** A call succeeds only for a caller in the users table, a blob found in
    * the bucket and a created audio the Audios table accepts; it leaves the
    * bucket alone, inserts the created audio under the next id (with the
    * tags the Tags table lacked) and returns its view for the caller. */
  lemma CreateSucceeds(data: Tables, objects: map<string, StoredObject>, request: CreateAudioRequest,
                       currentUserId: Option<string>, formatTags: seq<string> -> seq<string>, revision: Revision,
                       existsFailure: Option<S3Error>, saveFails: bool, removeFailure: Option<S3Error>)
    ensures var s := CreateSpec(data, objects, request, currentUserId, formatTags, revision, existsFailure, saveFails, removeFailure);
            s.outcome.Returned? && s.outcome.result.isSuccess ==>
              && Prepared(request, currentUserId, revision).Ok?
              && currentUserId.Some? && currentUserId.value in data.users
              && existsFailure.None? && !saveFails && RequestKey(request) in objects
              && s.objects == objects
              && var a := CreatedRow(request, currentUserId, revision, data, formatTags);
                 Storable(data.users, a)
                 && s.data == data.(audios := data.audios[data.nextId := a], nextId := data.nextId + 1,
                                 tags := data.tags + Unstored(data.tags, a.tags))
                 && s.outcome == Returned(Success(CreatedView(a, data.users[currentUserId.value], currentUserId)))
  {
    SucceedsChecked(data, objects, request, currentUserId, formatTags, revision, existsFailure, saveFails, removeFailure);
    SucceedsInserted(data, objects, request, currentUserId, formatTags, revision, existsFailure, saveFails, removeFailure);
  }

  lemma SucceedsChecked(data: Tables, objects: map<string, StoredObject>, request: CreateAudioRequest,
                        currentUserId: Option<string>, formatTags: seq<string> -> seq<string>, revision: Revision,
                        existsFailure: Option<S3Error>, saveFails: bool, removeFailure: Option<S3Error>)
    ensures var s := CreateSpec(data, objects, request, currentUserId, formatTags, revision, existsFailure, saveFails, removeFailure);
            s.outcome.Returned? && s.outcome.result.isSuccess ==>
              existsFailure.None? && !saveFails && RequestKey(request) in objects && s.objects == objects
  {
    var s := CreateSpec(data, objects, request, currentUserId, formatTags, revision, existsFailure, saveFails, removeFailure);
    var prepared := Prepared(request, currentUserId, revision);
    if s.outcome.Returned? && s.outcome.result.isSuccess {
      assert prepared.Ok?;
      PreparedKey(request, currentUserId, revision);
      assert existsFailure.None? && RequestKey(request) in objects;
      CreateSpecInserts(data, objects, request, currentUserId, formatTags, revision, saveFails, removeFailure);
      InsertSpecTables(prepared.value, data, objects, request, currentUserId, formatTags, saveFails, removeFailure);
      InsertSpecBlob(prepared.value, data, objects, request, currentUserId, formatTags, saveFails, removeFailure);
    }
  }

  lemma SucceedsInserted(data: Tables, objects: map<string, StoredObject>, request: CreateAudioRequest,
                         currentUserId: Option<string>, formatTags: seq<string> -> seq<string>, revision: Revision,
                         existsFailure: Option<S3Error>, saveFails: bool, removeFailure: Option<S3Error>)
    ensures var s := CreateSpec(data, objects, request, currentUserId, formatTags, revision, existsFailure, saveFails, removeFailure);
            s.outcome.Returned? && s.outcome.result.isSuccess ==>
              && Prepared(request, currentUserId, revision).Ok?
              && currentUserId.Some? && currentUserId.value in data.users
              && var a := CreatedRow(request, currentUserId, revision, data, formatTags);
                 Storable(data.users, a)
                 && s.data == data.(audios := data.audios[data.nextId := a], nextId := data.nextId + 1,
                                 tags := data.tags + Unstored(data.tags, a.tags))
                 && s.outcome == Returned(Success(CreatedView(a, data.users[currentUserId.value], currentUserId)))
  {
    var s := CreateSpec(data, objects, request, currentUserId, formatTags, revision, existsFailure, saveFails, removeFailure);
    var prepared := Prepared(request, currentUserId, revision);
    if s.outcome.Returned? && s.outcome.result.isSuccess {
      assert prepared.Ok?;
      PreparedKey(request, currentUserId, revision);
      assert existsFailure.None? && RequestKey(request) in objects;
      CreateSpecInserts(data, objects, request, currentUserId, formatTags, revision, saveFails, removeFailure);
      InsertSpecTables(prepared.value, data, objects, request, currentUserId, formatTags, saveFails, removeFailure);
      assert !saveFails && FindUser(data.users, currentUserId).Some?;
    }
  }

  /** The inserted audio is owned by the caller, public unless the request
    * says otherwise, looping only when the first revision is asked to, and
    * carries exactly the normalised tag ids, each then in the Tags table. A
    * non-blank request title is ignored: the title comes from the file name. */
  lemma CreatedRowFields(request: CreateAudioRequest, currentUserId: Option<string>, revision: Revision,
                         data: Tables, formatTags: seq<string> -> seq<string>)
    requires Prepared(request, currentUserId, revision).Ok?
    ensures var a := CreatedRow(request, currentUserId, revision, data, formatTags);
            && a.id == data.nextId && a.userId == currentUserId && a.uploadId == request.uploadId
            && a.isPublic == request.isPublic.GetOr(true)
            && a.isLoop == (revision == ContextRevision && request.isLoop.GetOr(false))
            && a.description == request.description
            && a.title == (if IsNullOrWhiteSpace(request.title) then request.title
                           else Some(GetFileNameWithoutExtension(request.fileName.value)))
            && TagIds(a.tags) == (if |request.tags| > 0 then set id | id in formatTags(request.tags) else {})
            && a.genre == GetGenre(data.genres, request.genre)
            && a.favorited == []
            && (forall t :: t in a.tags ==> t in data.tags + Unstored(data.tags, a.tags))
  {
    var a := CreatedRow(request, currentUserId, revision, data, formatTags);
    if |request.tags| > 0 {
      MergedTagsIds(data.tags, formatTags(request.tags));
    }
    forall t | t in a.tags ensures t in data.tags + Unstored(data.tags, a.tags) {
      assert t in data.tags || t in Unstored(data.tags, a.tags);
    }
  }

  /** The view of a new audio shows it with the caller as its user, not
    * followed, with no favourites. */
  lemma CreatedViewFields(row: AudioRow, user: User, currentUserId: Option<string>)
    requires row.favorited == []
    ensures var v := CreatedView(row, user, currentUserId);
            && v.id == row.id && v.title == row.title && v.isPublic == row.isPublic && v.isLoop == row.isLoop
            && v.user == UserDto(user.id, user.userName, user.picture, false)
            && !v.isFavorited && v.favoriteCount == 0
  {
  }

  /** The bucket only loses the checked blob, and only on a failure after
    * the check: a refused request keeps the blob, and an exception raised
    * after the check deletes it unless the delete itself fails. */
  lemma CreateBlobEffects(data: Tables, objects: map<string, StoredObject>, request: CreateAudioRequest,
                          currentUserId: Option<string>, formatTags: seq<string> -> seq<string>, revision: Revision,
                          existsFailure: Option<S3Error>, saveFails: bool, removeFailure: Option<S3Error>)
    ensures var s := CreateSpec(data, objects, request, currentUserId, formatTags, revision, existsFailure, saveFails, removeFailure);
            && (s.objects == objects || s.objects == objects - {RequestKey(request)})
            && (s.objects != objects ==>
                  s.outcome.Raised? && removeFailure.None? && existsFailure.None? && RequestKey(request) in objects)
            && (s.outcome.Raised? && existsFailure.None? && RequestKey(request) in objects
                && Prepared(request, currentUserId, revision).Ok? && removeFailure.None? ==>
                  RequestKey(request) !in s.objects)
  {
    var s := CreateSpec(data, objects, request, currentUserId, formatTags, revision, existsFailure, saveFails, removeFailure);
    var prepared := Prepared(request, currentUserId, revision);
    if prepared.Ok? {
      PreparedKey(request, currentUserId, revision);
      var key := RequestKey(request);
      if existsFailure.None? && key in objects {
        assert s == InsertSpec(prepared.value, data, objects, request, currentUserId, formatTags, saveFails, removeFailure);
        InsertSpecBlob(prepared.value, data, objects, request, currentUserId, formatTags, saveFails, removeFailure);
      } else {
        assert s.objects == objects && s.data == data;
      }
    }
  }

  /** The handler answers "Cannot find audio in storage." exactly when the
    * entity is valid and the blob is not found (or its check answers 404),
    * and then changes nothing. */
  lemma CreateRefusesMissingBlob(data: Tables, objects: map<string, StoredObject>, request: CreateAudioRequest,
                                 currentUserId: Option<string>, formatTags: seq<string> -> seq<string>, revision: Revision,
                                 existsFailure: Option<S3Error>, saveFails: bool, removeFailure: Option<S3Error>)
    ensures var s := CreateSpec(data, objects, request, currentUserId, formatTags, revision, existsFailure, saveFails, removeFailure);
            && (s.outcome.IsFailure(BadRequest) <==>
                  Prepared(request, currentUserId, revision).Ok?
                  && (if existsFailure.Some? then existsFailure.value.statusCode == NotFoundStatus
                      else RequestKey(request) !in objects))
            && (s.outcome.IsFailure(BadRequest) ==>
                  s == CreateState(Returned(Fail(BadRequest, MissingBlobMessage)), data, objects))
  {
    var s := CreateSpec(data, objects, request, currentUserId, formatTags, revision, existsFailure, saveFails, removeFailure);
    var prepared := Prepared(request, currentUserId, revision);
    if prepared.Ok? {
      PreparedKey(request, currentUserId, revision);
      if existsFailure.None? && RequestKey(request) in objects {
        assert s == InsertSpec(prepared.value, data, objects, request, currentUserId, formatTags, saveFails, removeFailure);
        InsertSpecBlob(prepared.value, data, objects, request, currentUserId, formatTags, saveFails, removeFailure);
      }
    }
  }

  /** The try block deletes the blob exactly when it raises, unless the
    * delete fails; it never returns a failure result. */
  lemma InsertSpecBlob(row: AudioRow, data: Tables, objects: map<string, StoredObject>, request: CreateAudioRequest,
                       currentUserId: Option<string>, formatTags: seq<string> -> seq<string>,
                       saveFails: bool, removeFailure: Option<S3Error>)
    ensures var i := InsertSpec(row, data, objects, request, currentUserId, formatTags, saveFails, removeFailure);
            && (i.outcome.Raised? && removeFailure.None? ==> i.objects == objects - {BlobKey(row)})
            && (i.outcome.Returned? || removeFailure.Some? ==> i.objects == objects)
            && (i.outcome.Returned? ==> i.outcome.result.isSuccess)
  {
  }

  /** A call that raises changes no table: the insert is the last step
    * that can fail, since an audio the Audios table accepts is owned by a
    * stored user and the view's dereference of the caller then succeeds. A
    * caller who is not a stored user makes the insert itself raise once the
    * blob is found: nothing is stored and the blob is deleted unless the
    * delete fails. */
  lemma CreateFailureEffects(data: Tables, objects: map<string, StoredObject>, request: CreateAudioRequest,
                             currentUserId: Option<string>, formatTags: seq<string> -> seq<string>, revision: Revision,
                             existsFailure: Option<S3Error>, saveFails: bool, removeFailure: Option<S3Error>)
    ensures var s := CreateSpec(data, objects, request, currentUserId, formatTags, revision, existsFailure, saveFails, removeFailure);
            && (s.outcome.Raised? ==> s.data == data)
            && (s.data != data ==> s.outcome.Returned? && s.outcome.result.isSuccess)
            && (Prepared(request, currentUserId, revision).Ok? && existsFailure.None? && RequestKey(request) in objects
                && FindUser(data.users, currentUserId).None? ==>
                  && s.data == data
                  && s.outcome == Raised(if removeFailure.Some? then StorageException else DatabaseException)
                  && (removeFailure.None? ==> s.objects == objects - {RequestKey(request)})
                  && (removeFailure.Some? ==> s.objects == objects))
  {
    var s := CreateSpec(data, objects, request, currentUserId, formatTags, revision, existsFailure, saveFails, removeFailure);
    var prepared := Prepared(request, currentUserId, revision);
    if prepared.Err? {
      assert s.data == data;
    } else {
      PreparedKey(request, currentUserId, revision);
      PreparedOwner(request, currentUserId, revision);
      if existsFailure.None? && RequestKey(request) in objects {
        var i := InsertSpec(prepared.value, data, objects, request, currentUserId, formatTags, saveFails, removeFailure);
        assert s == i;
        InsertSpecTables(prepared.value, data, objects, request, currentUserId, formatTags, saveFails, removeFailure);
        InsertSpecBlob(prepared.value, data, objects, request, currentUserId, formatTags, saveFails, removeFailure);
      } else {
        assert s.data == data;
      }
    }
  }

  /** The prepared entity is owned by the caller. */
  lemma PreparedOwner(request: CreateAudioRequest, currentUserId: Option<string>, revision: Revision)
    requires Prepared(request, currentUserId, revision).Ok?
    ensures Prepared(request, currentUserId, revision).value.userId == currentUserId
  {
  }

  /** The try block leaves the tables alone when the insert fails, and
    * otherwise inserts the audio under the next identity; for an audio
    * owned by the caller it raises exactly when the insert fails, which is
    * always the case for a caller who is not a stored user. */
  lemma InsertSpecTables(row: AudioRow, data: Tables, objects: map<string, StoredObject>, request: CreateAudioRequest,
                         currentUserId: Option<string>, formatTags: seq<string> -> seq<string>,
                         saveFails: bool, removeFailure: Option<S3Error>)
    ensures var i := InsertSpec(row, data, objects, request, currentUserId, formatTags, saveFails, removeFailure);
            && (saveFails || !Storable(data.users, row) ==>
                  i.data == data && i.outcome == Raised(if removeFailure.Some? then StorageException else DatabaseException))
            && (!saveFails && Storable(data.users, row) ==> data.nextId in i.data.audios && i.data.nextId == data.nextId + 1)
            && (!saveFails && Storable(data.users, row) && i.outcome.Raised? ==>
                  FindUser(data.users, currentUserId).None?
                  && i.outcome.error == (if removeFailure.Some? then StorageException else NullReferenceException))
            && (row.userId == currentUserId ==> (i.outcome.Raised? <==> saveFails || !Storable(data.users, row)))
            && (row.userId == currentUserId && FindUser(data.users, currentUserId).None? ==> !Storable(data.users, row))
  {
  }

  /** A request without a title keeps the null title through the inverted
    * guard of UpdateTitle; the Audios table requires a title, so once the
    * blob is found the insert raises, nothing is stored, and the blob is
    * deleted unless the delete fails. */
  lemma CreateWithoutTitleRaises(data: Tables, objects: map<string, StoredObject>, request: CreateAudioRequest,
                                 currentUserId: Option<string>, formatTags: seq<string> -> seq<string>, revision: Revision,
                                 saveFails: bool, removeFailure: Option<S3Error>)
    requires request.title.None? && Prepared(request, currentUserId, revision).Ok? && RequestKey(request) in objects
    ensures var s := CreateSpec(data, objects, request, currentUserId, formatTags, revision, None, saveFails, removeFailure);
            && s.data == data
            && s.outcome == Raised(if removeFailure.Some? then StorageException else DatabaseException)
            && (removeFailure.None? ==> s.objects == objects - {RequestKey(request)})
            && (removeFailure.Some? ==> s.objects == objects)
  {
    var prepared := Prepared(request, currentUserId, revision).value;
    CreateSpecInserts(data, objects, request, currentUserId, formatTags, revision, saveFails, removeFailure);
    PreparedKey(request, currentUserId, revision);
    PreparedTitle(request, currentUserId, revision);
    InsertSpecTables(prepared, data, objects, request, currentUserId, formatTags, saveFails, removeFailure);
    InsertSpecBlob(prepared, data, objects, request, currentUserId, formatTags, saveFails, removeFailure);
  }

  /** Once the blob is found, Create is the try block for the prepared
    * entity. */
  lemma CreateSpecInserts(data: Tables, objects: map<string, StoredObject>, request: CreateAudioRequest,
                          currentUserId: Option<string>, formatTags: seq<string> -> seq<string>, revision: Revision,
                          saveFails: bool, removeFailure: Option<S3Error>)
    requires Prepared(request, currentUserId, revision).Ok? && RequestKey(request) in objects
    ensures CreateSpec(data, objects, request, currentUserId, formatTags, revision, None, saveFails, removeFailure)
            == InsertSpec(Prepared(request, currentUserId, revision).value, data, objects, request, currentUserId,
                          formatTags, saveFails, removeFailure)
  {
    PreparedKey(request, currentUserId, revision);
  }

  /** The prepared entity's title is the request's when that is null or
    * blank, and otherwise the file name's. */
  lemma PreparedTitle(request: CreateAudioRequest, currentUserId: Option<string>, revision: Revision)
    requires Prepared(request, currentUserId, revision).Ok?
    ensures Prepared(request, currentUserId, revision).value.title
            == if IsNullOrWhiteSpace(request.title) then request.title else Some(GetFileNameWithoutExtension(request.fileName.value))
  {
  }

  /** The two revisions differ only in the loop flag: when the request
    * leaves it unset or false they do the same thing. */
  lemma CreateRevisionsAgree(data: Tables, objects: map<string, StoredObject>, request: CreateAudioRequest,
                             currentUserId: Option<string>, formatTags: seq<string> -> seq<string>,
                             existsFailure: Option<S3Error>, saveFails: bool, removeFailure: Option<S3Error>)
    requires !request.isLoop.GetOr(false)
    ensures CreateSpec(data, objects, request, currentUserId, formatTags, ContextRevision, existsFailure, saveFails, removeFailure)
            == CreateSpec(data, objects, request, currentUserId, formatTags, RepositoryRevision, existsFailure, saveFails, removeFailure)
  {
    assert Prepared(request, currentUserId, ContextRevision) == Prepared(request, currentUserId, RepositoryRevision);
  }

  /** The constructor's checks come first: an invalid upload, file name or
    * caller raises before storage or tables are touched. */
  lemma CreateRejectsInvalidInput(data: Tables, objects: map<string, StoredObject>, request: CreateAudioRequest,
                                  currentUserId: Option<string>, formatTags: seq<string> -> seq<string>, revision: Revision,
                                  existsFailure: Option<S3Error>, saveFails: bool, removeFailure: Option<S3Error>)
    ensures var s := CreateSpec(data, objects, request, currentUserId, formatTags, revision, existsFailure, saveFails, removeFailure);
            && (request.uploadId == Empty ==> s == CreateState(Raised(ArgumentException("uploadId")), data, objects))
            && (request.uploadId != Empty && IsNullOrWhiteSpace(request.fileName) ==>
                  s == CreateState(Raised(ArgumentNullException("fileName")), data, objects))
            && (currentUserId.None? ==> s.outcome.Raised? && s.data == data && s.objects == objects)
  {
  }
}
