/** AudioService (Features/Audios/AudioService.cs), the service revision of
  * the audio lifecycle. Create, Update and AddPicture open a database
  * transaction of their own; an early return disposes the open
  * transaction, which rolls it back, and every catch block rolls back and
  * rethrows. Remove runs without a transaction, and its database save and
  * its two blob deletes run as concurrent tasks; they are modelled one
  * after the other, each attempted whatever the others do, and the first
  * failure in task order is the one rethrown. The request classes are not
  * part of this model: their fields are those the service reads. Fresh
  * guids, the duration the metadata service reads from a file and the
  * failures of every external call are parameters. */
module AudioService {
  import opened Wrappers
  import opened Text
  import opened Guids
  import opened Results
  import opened Entities
  import opened Accounts
  import opened TagMerge
  import opened Genres
  import opened AudioViews
  import opened Storage
  import opened Images
  import opened Persistence
  import Containers
  import opened BlobHelpers
  import RemoveAudio
  import UpdateAudio
  import Pictures

  /** An uploaded file (IFormFile): its name, its length and the duration
    * the audio metadata service reads from it. */
  datatype AudioFile = AudioFile(fileName: string, length: int, duration: int)

  datatype UploadAudioRequest = UploadAudioRequest(
    uploadId: Guid,
    fileName: Option<string>,
    fileSize: int,
    duration: int,
    title: Option<string>,
    description: Option<string>,
    tags: seq<string>,
    genre: Option<string>,
    isPublic: Option<bool>,
    isLoop: Option<bool>,
    file: Option<AudioFile>)

  datatype UpdateAudioRequest = UpdateAudioRequest(
    title: Option<string>,
    description: Option<string>,
    tags: seq<string>,
    genre: Option<string>,
    isPublic: Option<bool>,
    isLoop: Option<bool>)

  /** Which calls of Create fail: the begin, the insert, the upload of the
    * attached file, the save after it, the commit, and the catch block's
    * delete. */
  datatype CreateFaults = CreateFaults(
    begin: bool,
    add: bool,
    upload: Option<S3Error>,
    resave: bool,
    commit: bool,
    cleanup: Option<S3Error>)

  /** Which tasks of Remove fail: the save, the audio blob's delete and the
    * picture's delete. */
  datatype RemoveFaults = RemoveFaults(save: bool, audioBlob: Option<S3Error>, pictureBlob: Option<S3Error>)

  /** What a call leaves behind: its outcome, the tables, the bucket and the
    * transaction calls it made. */
  datatype ServiceState<T> = ServiceState(outcome: Outcome<T>, data: Tables, objects: map<string, StoredObject>,
                                          events: seq<TxEvent>)

  /** The same for the calls that touch no blob. */
  datatype TxState<T> = TxState(outcome: Outcome<T>, data: Tables, events: seq<TxEvent>)

  // -----------------------------------------------------------------------
  // CreateNewTags
  // -----------------------------------------------------------------------

  /** CreateNewTags: the stored tags for the normalised ids, then a new tag
    * for each id with none; every normalised id is covered and no other. */
  method CreateNewTags(stored: seq<Tag>, requested: seq<string>, formatTags: seq<string> -> seq<string>)
    returns (tags: seq<Tag>)
    ensures tags == MergedTags(stored, formatTags(requested))
    ensures TagIds(tags) == set id | id in formatTags(requested)
  {
    tags := MergeTags(stored, formatTags(requested));
    MergedTagsIds(stored, formatTags(requested));
  }

  // -----------------------------------------------------------------------
  // Create
  // -----------------------------------------------------------------------

  /** Path.GetFileNameWithoutExtension and Path.GetExtension of a name that
    * may be null: null gives null. */
  function TitleOf(fileName: Option<string>): Option<string>
  {
    if fileName.Some? then Some(GetFileNameWithoutExtension(fileName.value)) else None
  }

  function ExtensionOf(fileName: Option<string>): Option<string>
  {
    if fileName.Some? then Some(GetExtension(fileName.value)) else None
  }

  /** The object initialiser of the new audio. */
  function Initialised(request: UploadAudioRequest): AudioRow
  {
    DefaultRow.(uploadId := request.uploadId,
                title := if !IsNullOrWhiteSpace(request.title) then request.title else TitleOf(request.fileName),
                description := request.description,
                duration := request.duration,
                fileExt := ExtensionOf(request.fileName),
                isPublic := request.isPublic.GetOr(true),
                isLoop := request.isLoop.GetOr(false),
                fileSize := request.fileSize)
  }

  /** An attached file's length, extension and duration, and its name as
    * the title when the title is still blank. */
  function FromFile(row: AudioRow, file: AudioFile): AudioRow
  {
    row.(fileSize := file.length,
         fileExt := Some(GetExtension(file.fileName)),
         title := if IsNullOrWhiteSpace(row.title) then Some(GetFileNameWithoutExtension(file.fileName)) else row.title,
         duration := file.duration)
  }

  /** The audio before the try block. */
  function Drafted(request: UploadAudioRequest): AudioRow
  {
    if request.file.Some? then FromFile(Initialised(request), request.file.value) else Initialised(request)
  }

  /** The caller, the genre and the tags assigned at the start of the try
    * block; no tag is looked up for a request without tags. */
  function Attached(row: AudioRow, data: Tables, request: UploadAudioRequest, currentUserId: Option<string>,
                    formatTags: seq<string> -> seq<string>): (r: AudioRow)
    ensures r.title == row.title && r.fileExt == row.fileExt && r.uploadId == row.uploadId
    ensures ColumnsFit(r) <==> ColumnsFit(row)
    ensures r.userId == if FindUser(data.users, currentUserId).Some? then Some(FindUser(data.users, currentUserId).value.id) else None
  {
    var user := FindUser(data.users, currentUserId);
    row.UpdateGenre(GetGenre(data.genres, request.genre))
       .(userId := if user.Some? then Some(user.value.id) else None,
         tags := if |request.tags| > 0 then MergedTags(data.tags, formatTags(request.tags)) else [])
  }

  /** The key the catch block deletes: "source" and the extension, in a
    * folder named after the upload id. */
  function SourceKey(row: AudioRow): string
  {
    GetKeyName(Containers.Audios, Combine(FormatD(row.uploadId), "source" + row.fileExt.GetOr("")))
  }

  /** How the try block of Create ends, with the audio as it then is and
    * whether the transaction was committed. */
  datatype CreateAttempt = CreateAttempt(result: Result<AudioItem, Exception>, row: AudioRow, data: Tables,
                                         objects: map<string, StoredObject>, committed: bool)

  /** The insert, then the attached file's upload or the commit. */
  function TryCreate(data: Tables, objects: map<string, StoredObject>, url: string, chunkThreshold: int,
                     row: AudioRow, user: Option<User>, file: Option<AudioFile>, newGuid: Guid, f: CreateFaults)
    : CreateAttempt
  {
    if f.add || !Storable(data.users, row) then CreateAttempt(Err(DatabaseException), row, data, objects, false)
    else
      var stored := row.(id := data.nextId);
      var added := data.(audios := data.audios[data.nextId := stored], nextId := data.nextId + 1,
                         tags := data.tags + Unstored(data.tags, row.tags));
      Inserted(added, objects, url, chunkThreshold, stored, user, file, newGuid, f)
  }

  /** After the insert: the attached file's upload, or the commit. */
  function Inserted(data: Tables, objects: map<string, StoredObject>, url: string, chunkThreshold: int,
                    stored: AudioRow, user: Option<User>, file: Option<AudioFile>, newGuid: Guid, f: CreateFaults)
    : CreateAttempt
  {
    if file.None? then Concluded(data, objects, stored, user, f.commit)
    else Uploaded(data, objects, url, chunkThreshold, stored.(uploadId := newGuid), user, file.value, f)
  }

  /** The file branch: the metadata entry dereferences the caller, then the
    * upload under the new upload id and the second save. */
  function Uploaded(data: Tables, objects: map<string, StoredObject>, url: string, chunkThreshold: int,
                    row: AudioRow, user: Option<User>, file: AudioFile, f: CreateFaults): CreateAttempt
  {
    if user.None? then CreateAttempt(Err(NullReferenceException), row, data, objects, false)
    else if f.upload.Some? then CreateAttempt(Err(StorageException), row, data, objects, false)
    else
      var written := objects[RemoveAudio.AudioKey(row) := StoredObject(map["UserId" := user.value.id],
                                                                    UsesMultipart(Some(file.length), chunkThreshold))];
      if f.resave || !Storable(data.users, row) then CreateAttempt(Err(DatabaseException), row, data, written, false)
      else Concluded(SavedAudio(data, row), written, row, user, f.commit)
  }

  /** The commit, then the projection, which dereferences the caller. */
  function Concluded(data: Tables, objects: map<string, StoredObject>, row: AudioRow, user: Option<User>,
                     commitFails: bool): CreateAttempt
  {
    if commitFails then CreateAttempt(Err(DatabaseException), row, data, objects, false)
    else if user.None? then CreateAttempt(Err(NullReferenceException), row, data, objects, true)
    else CreateAttempt(Ok(ItemMap(row, user.value, Some(user.value.id))), row, data, objects, true)
  }

  /** The catch block: the rollback, which restores the tables unless the
    * commit has happened, and the delete of the source key. */
  function CreateClosed(data: Tables, t: CreateAttempt, cleanup: Option<S3Error>): ServiceState<AudioItem>
  {
    var done := if t.committed then [Committed] else [];
    if t.result.Ok? then ServiceState(Returned(Success(t.result.value)), t.data, t.objects, done)
    else
      var c := DeleteAndRethrow(t.result.error, t.objects, SourceKey(t.row), cleanup);
      ServiceState(c.0, if t.committed then t.data else data, c.1, done + [RolledBack])
  }

  /** Create once its transaction has begun: the drafted audio, the try
    * block and the catch block. */
  function CreateTransaction(data: Tables, objects: map<string, StoredObject>, url: string, chunkThreshold: int,
                             request: UploadAudioRequest, currentUserId: Option<string>,
                             formatTags: seq<string> -> seq<string>, newGuid: Guid, f: CreateFaults)
    : ServiceState<AudioItem>
  {
    var row := Attached(Drafted(request), data, request, currentUserId, formatTags);
    CreateClosed(data, TryCreate(data, objects, url, chunkThreshold, row, FindUser(data.users, currentUserId),
                                 request.file, newGuid, f), f.cleanup)
  }

  /** Create as a function of the state before the call. */
  function CreateSpec(data: Tables, objects: map<string, StoredObject>, url: string, chunkThreshold: int,
                      request: UploadAudioRequest, currentUserId: Option<string>,
                      formatTags: seq<string> -> seq<string>, newGuid: Guid, f: CreateFaults): ServiceState<AudioItem>
  {
    if f.begin then ServiceState(Raised(DatabaseException), data, objects, [])
    else
      var c := CreateTransaction(data, objects, url, chunkThreshold, request, currentUserId, formatTags, newGuid, f);
      ServiceState(c.outcome, c.data, c.objects, [Begun] + c.events)
  }

  /** Create. */
  method Create(db: Database, storage: AmazonS3Service, request: UploadAudioRequest, currentUserId: Option<string>,
                formatTags: seq<string> -> seq<string>, newGuid: Guid, f: CreateFaults)
    returns (o: Outcome<AudioItem>)
    requires db.Valid() && db.snapshot.None?
    modifies db, storage
    ensures db.Valid() && db.snapshot.None?
    ensures f.begin ==> o == Raised(DatabaseException) && db.data == old(db.data) && storage.objects == old(storage.objects)
                        && db.events == old(db.events)
    ensures !f.begin ==> var s := CreateTransaction(old(db.data), old(storage.objects), storage.url,
                                                    storage.chunkThreshold, request, currentUserId, formatTags,
                                                    newGuid, f);
                         o == s.outcome && db.data == s.data && storage.objects == s.objects
                         && db.events == old(db.events) + [Begun] + s.events
  {
    var begun := db.BeginTransaction(f.begin);
    if begun.Err? {
      return Raised(begun.error);
    }
    o := CreateBegun(db, storage, request, currentUserId, formatTags, newGuid, f);
  }

  /** Create once its transaction has begun. */
  method CreateBegun(db: Database, storage: AmazonS3Service, request: UploadAudioRequest, currentUserId: Option<string>,
                     formatTags: seq<string> -> seq<string>, newGuid: Guid, f: CreateFaults)
    returns (o: Outcome<AudioItem>)
    requires db.Valid() && db.snapshot == Some(db.data)
    modifies db, storage
    ensures db.Valid() && db.snapshot.None?
    ensures var s := CreateTransaction(old(db.data), old(storage.objects), storage.url, storage.chunkThreshold,
                                       request, currentUserId, formatTags, newGuid, f);
            o == s.outcome && db.data == s.data && storage.objects == s.objects && db.events == old(db.events) + s.events
  {
    var audio := Draft(request);
    var user := FindUser(db.data.users, currentUserId);
    Attach(audio, db.data, request, currentUserId, formatTags);
    o := CreateInTransaction(db, storage, audio, user, request.file, newGuid, f);
  }

  /** The try block and the catch block. */
  method CreateInTransaction(db: Database, storage: AmazonS3Service, audio: Audio, user: Option<User>,
                             file: Option<AudioFile>, newGuid: Guid, f: CreateFaults)
    returns (o: Outcome<AudioItem>)
    requires db.Valid() && db.snapshot == Some(db.data)
    modifies db, storage, audio
    ensures db.Valid() && db.snapshot.None?
    ensures var s := CreateClosed(old(db.data), TryCreate(old(db.data), old(storage.objects), storage.url,
                                                          storage.chunkThreshold, old(audio.Row()), user, file,
                                                          newGuid, f), f.cleanup);
            o == s.outcome && db.data == s.data && storage.objects == s.objects && db.events == old(db.events) + s.events
  {
    TryCreateOutcomes(db.data, storage.objects, storage.url, storage.chunkThreshold, audio.Row(), user, file, newGuid, f);
    var attempt := TryStore(db, storage, audio, user, file, newGuid, f);
    if attempt.Ok? {
      return Returned(Success(attempt.value));
    }
    o := RollBackCreate(db, storage, audio.Row(), attempt.error, f.cleanup);
  }

  /** The catch block of Create: the rollback, then the delete of the
    * source key, whose failure replaces the exception being rethrown. */
  method RollBackCreate(db: Database, storage: AmazonS3Service, row: AudioRow, error: Exception, cleanup: Option<S3Error>)
    returns (o: Outcome<AudioItem>)
    requires db.Valid()
    modifies db, storage
    ensures db.Valid() && db.snapshot.None? && db.events == old(db.events) + [RolledBack]
    ensures db.data == if old(db.snapshot).Some? then old(db.snapshot).value else old(db.data)
    ensures (o, storage.objects) == DeleteAndRethrow(error, old(storage.objects), SourceKey(row), cleanup)
  {
    db.RollbackTransaction();
    var removed := storage.Remove(Containers.Audios, Combine(FormatD(row.uploadId), "source" + row.fileExt.GetOr("")),
                                  cleanup);
    if removed.Err? {
      return Raised(removed.error);
    }
    o := Raised(error);
  }

  /** The object initialiser and the file branch. */
  method Draft(request: UploadAudioRequest) returns (audio: Audio)
    ensures fresh(audio) && audio.Row() == Drafted(request)
  {
    audio := new Audio.Load(Initialised(request));
    if request.file.Some? {
      ApplyFile(audio, request.file.value);
    }
  }

  /** The file branch of the object initialiser. */
  method ApplyFile(audio: Audio, file: AudioFile)
    modifies audio
    ensures audio.Row() == FromFile(old(audio.Row()), file)
  {
    audio.fileSize := file.length;
    audio.fileExt := Some(GetExtension(file.fileName));
    if IsNullOrWhiteSpace(audio.title) {
      audio.title := Some(GetFileNameWithoutExtension(file.fileName));
    }
    audio.duration := file.duration;
  }

  /** The caller, the genre and the tags. */
  method Attach(audio: Audio, data: Tables, request: UploadAudioRequest, currentUserId: Option<string>,
                formatTags: seq<string> -> seq<string>)
    modifies audio
    ensures audio.Row() == Attached(old(audio.Row()), data, request, currentUserId, formatTags)
  {
    var user := FindUser(data.users, currentUserId);
    ghost var genred := old(audio.Row()).UpdateGenre(GetGenre(data.genres, request.genre));
    audio.UpdateGenre(GetGenre(data.genres, request.genre));
    audio.userId := if user.Some? then Some(user.value.id) else None;
    assert audio.Row() == genred.(userId := audio.userId);
    var tags: seq<Tag> := [];
    if |request.tags| > 0 {
      tags := CreateNewTags(data.tags, request.tags, formatTags);
    }
    audio.tags := tags;
    assert audio.Row() == genred.(userId := audio.userId, tags := tags);
  }

  /** The try block after the assignments. */
  method TryStore(db: Database, storage: AmazonS3Service, audio: Audio, user: Option<User>, file: Option<AudioFile>,
                  newGuid: Guid, f: CreateFaults)
    returns (r: Result<AudioItem, Exception>)
    requires db.Valid() && db.snapshot == Some(db.data)
    modifies db, storage, audio
    ensures db.Valid()
    ensures var t := TryCreate(old(db.data), old(storage.objects), storage.url, storage.chunkThreshold, old(audio.Row()),
                               user, file, newGuid, f);
            && r == t.result && audio.Row() == t.row && db.data == t.data && storage.objects == t.objects
            && db.snapshot == (if t.committed then None else old(db.snapshot))
            && db.events == old(db.events) + (if t.committed then [Committed] else [])
  {
    var added := db.AddAudio(audio.Row(), f.add);
    if added.Err? {
      return Err(added.error);
    }
    audio.id := added.value.id;
    r := StoreInserted(db, storage, audio, user, file, newGuid, f);
  }

  /** The try block after the insert. */
  method StoreInserted(db: Database, storage: AmazonS3Service, audio: Audio, user: Option<User>, file: Option<AudioFile>,
                       newGuid: Guid, f: CreateFaults)
    returns (r: Result<AudioItem, Exception>)
    requires db.Valid() && db.snapshot.Some? && audio.id in db.data.audios
    modifies db, storage, audio
    ensures db.Valid()
    ensures var t := Inserted(old(db.data), old(storage.objects), storage.url, storage.chunkThreshold, old(audio.Row()),
                              user, file, newGuid, f);
            && r == t.result && audio.Row() == t.row && db.data == t.data && storage.objects == t.objects
            && db.snapshot == (if t.committed then None else old(db.snapshot))
            && db.events == old(db.events) + (if t.committed then [Committed] else [])
  {
    if file.Some? {
      r := UploadFile(db, storage, audio, user, file.value, newGuid, f);
    } else {
      r := Conclude(db, audio, user, f.commit);
    }
  }

  /** The file branch of the try block. */
  method UploadFile(db: Database, storage: AmazonS3Service, audio: Audio, user: Option<User>, file: AudioFile,
                    newGuid: Guid, f: CreateFaults)
    returns (r: Result<AudioItem, Exception>)
    requires db.Valid() && db.snapshot.Some? && audio.id in db.data.audios
    modifies db, storage, audio
    ensures db.Valid()
    ensures var t := Uploaded(old(db.data), old(storage.objects), storage.url, storage.chunkThreshold,
                              old(audio.Row()).(uploadId := newGuid), user, file, f);
            && r == t.result && audio.Row() == t.row && db.data == t.data && storage.objects == t.objects
            && db.snapshot == (if t.committed then None else old(db.snapshot))
            && db.events == old(db.events) + (if t.committed then [Committed] else [])
  {
    audio.uploadId := newGuid;
    assert audio.Row() == old(audio.Row()).(uploadId := newGuid);
    if user.None? {
      return Err(NullReferenceException);
    }
    var request := SaveBlobRequest(Containers.Audios, GetAudioBlobName(audio.Row()), Some(file.fileName),
                                   Some(map["UserId" := user.value.id]));
    var saved := storage.Save(Some(file.length), request, f.upload);
    if saved.Err? {
      return Err(saved.error);
    }
    var resaved := db.SaveAudio(audio.Row(), f.resave);
    if resaved.Err? {
      return Err(resaved.error);
    }
    r := Conclude(db, audio, user, f.commit);
  }

  /** The commit and the projection. */
  method Conclude(db: Database, audio: Audio, user: Option<User>, commitFails: bool)
    returns (r: Result<AudioItem, Exception>)
    requires db.Valid() && db.snapshot.Some?
    modifies db
    ensures db.Valid()
    ensures var t := Concluded(old(db.data), map[], audio.Row(), user, commitFails);
            && r == t.result && db.data == old(db.data)
            && db.snapshot == (if t.committed then None else old(db.snapshot))
            && db.events == old(db.events) + (if t.committed then [Committed] else [])
  {
    var committed := db.CommitTransaction(commitFails);
    if committed.Err? {
      return Err(committed.error);
    }
    var view := ItemMapToDetail(audio.Row(), user, if user.Some? then Some(user.value.id) else None);
    if view.Err? {
      return Err(view.error);
    }
    r := Ok(view.value);
  }

  // -----------------------------------------------------------------------
  // What Create promises
  // -----------------------------------------------------------------------

  /** The audio Create stores: the drafted fields, the caller, the genre and
    * the tags, the next identity, and the new upload id when a file is
    * attached. */
  function CreatedRow(data: Tables, request: UploadAudioRequest, currentUserId: Option<string>,
                      formatTags: seq<string> -> seq<string>, newGuid: Guid): AudioRow
  {
    var row := Attached(Drafted(request), data, request, currentUserId, formatTags).(id := data.nextId);
    if request.file.Some? then row.(uploadId := newGuid) else row
  }

  /** The title is the request's when it is not blank, otherwise the
    * request's file name without extension, and, when that is blank too,
    * the attached file's name without extension; the flags default to
    * public and not looping; size, extension and duration come from the
    * attached file when there is one; the tags cover exactly the
    * normalised ids. */
  lemma CreatedRowFields(data: Tables, request: UploadAudioRequest, currentUserId: Option<string>,
                         formatTags: seq<string> -> seq<string>, newGuid: Guid)
    ensures var r := CreatedRow(data, request, currentUserId, formatTags, newGuid);
            && r.id == data.nextId
            && r.title == (if !IsNullOrWhiteSpace(request.title) then request.title
                           else if request.file.None? || !IsNullOrWhiteSpace(TitleOf(request.fileName))
                           then TitleOf(request.fileName)
                           else Some(GetFileNameWithoutExtension(request.file.value.fileName)))
            && r.description == request.description
            && r.isPublic == request.isPublic.GetOr(true) && r.isLoop == request.isLoop.GetOr(false)
            && r.picture == None && r.favorited == []
            && (request.file.None? ==> && r.uploadId == request.uploadId && r.fileSize == request.fileSize
                                       && r.duration == request.duration && r.fileExt == ExtensionOf(request.fileName))
            && (request.file.Some? ==> && r.uploadId == newGuid && r.fileSize == request.file.value.length
                                       && r.duration == request.file.value.duration
                                       && r.fileExt == Some(GetExtension(request.file.value.fileName)))
            && r.genre == GetGenre(data.genres, request.genre)
            && r.userId == (if currentUserId.Some? && currentUserId.value in data.users
                            then Some(data.users[currentUserId.value].id) else None)
            && TagIds(r.tags) == set id | |request.tags| > 0 && id in formatTags(request.tags)
  {
    if |request.tags| > 0 {
      MergedTagsIds(data.tags, formatTags(request.tags));
    } else {
      assert TagIds([]) == {};
    }
  }

  /** The try block completes exactly when the insert, the file branch and
    * the commit succeed and the caller exists; it commits unless a call
    * fails or the file branch meets an unknown caller. */
  lemma TryCreateOutcomes(data: Tables, objects: map<string, StoredObject>, url: string, chunkThreshold: int,
                          row: AudioRow, user: Option<User>, file: Option<AudioFile>, newGuid: Guid, f: CreateFaults)
    ensures var t := TryCreate(data, objects, url, chunkThreshold, row, user, file, newGuid, f);
            && (t.result.Ok? <==> !f.add && Storable(data.users, row) && !f.commit && user.Some?
                                  && (file.Some? ==> f.upload.None? && !f.resave))
            && (t.committed <==> !f.add && Storable(data.users, row) && !f.commit
                                 && (file.Some? ==> user.Some? && f.upload.None? && !f.resave))
            && (!f.add && Storable(data.users, row) ==> t.row == if file.Some? then row.(id := data.nextId, uploadId := newGuid)
                                    else row.(id := data.nextId))
  {
  }

  /** A completed try block stores the audio under the next identity and
    * writes the attached file with the caller's id as metadata. */
  lemma TryCreateStores(data: Tables, objects: map<string, StoredObject>, url: string, chunkThreshold: int,
                        row: AudioRow, user: Option<User>, file: Option<AudioFile>, newGuid: Guid, f: CreateFaults)
    requires !f.add && Storable(data.users, row) && !f.commit && user.Some? && (file.Some? ==> f.upload.None? && !f.resave)
    ensures var t := TryCreate(data, objects, url, chunkThreshold, row, user, file, newGuid, f);
            && t.result == Ok(ItemMap(t.row, user.value, Some(user.value.id)))
            && t.data.audios == data.audios[data.nextId := t.row] && t.data.nextId == data.nextId + 1
            && t.data.users == data.users && t.data.favorites == data.favorites
            && (file.None? ==> t.objects == objects)
            && (file.Some? ==>
                  t.objects == objects[RemoveAudio.AudioKey(t.row) := StoredObject(map["UserId" := user.value.id],
                                                            UsesMultipart(Some(file.value.length), chunkThreshold))])
  {
    if file.Some? {
      var stored := row.(id := data.nextId);
      assert data.audios[data.nextId := stored][data.nextId := stored.(uploadId := newGuid)]
             == data.audios[data.nextId := stored.(uploadId := newGuid)];
    }
  }

  /** When the upload succeeded and the second save or the commit fails,
    * the uploaded blob is in the bucket at the end of the try block. */
  lemma TryCreateUploadFails(data: Tables, objects: map<string, StoredObject>, url: string, chunkThreshold: int,
                             row: AudioRow, user: Option<User>, file: Option<AudioFile>, newGuid: Guid, f: CreateFaults)
    requires file.Some? && user.Some? && !f.add && Storable(data.users, row) && f.upload.None? && (f.resave || f.commit)
    ensures var t := TryCreate(data, objects, url, chunkThreshold, row, user, file, newGuid, f);
            && t.result.Err? && !t.committed
            && RemoveAudio.AudioKey(t.row) in t.objects
            && t.objects[RemoveAudio.AudioKey(t.row)].metadata == map["UserId" := user.value.id]
  {
  }

  /** The catch block after a failure before the commit: the tables are
    * restored and the only blob deleted is the source key. */
  lemma ClosedBeforeCommit(data: Tables, t: CreateAttempt, cleanup: Option<S3Error>)
    requires t.result.Err? && !t.committed
    ensures var s := CreateClosed(data, t, cleanup);
            && s.outcome.Raised? && s.data == data && s.events == [RolledBack]
            && forall k :: k in t.objects && k != SourceKey(t.row) ==> k in s.objects && s.objects[k] == t.objects[k]
  {
  }

  /** The try and catch blocks after an upload whose second save or commit
    * fails: the tables are restored and the uploaded blob remains. */
  lemma ClosedKeepsUpload(data: Tables, objects: map<string, StoredObject>, url: string, chunkThreshold: int,
                          row: AudioRow, user: Option<User>, file: Option<AudioFile>, newGuid: Guid, f: CreateFaults)
    requires file.Some? && user.Some? && !f.add && Storable(data.users, row) && f.upload.None? && (f.resave || f.commit)
    ensures var s := CreateClosed(data, TryCreate(data, objects, url, chunkThreshold, row, user, file, newGuid, f),
                                  f.cleanup);
            var key := RemoveAudio.AudioKey(row.(id := data.nextId, uploadId := newGuid));
            && s.outcome.Raised? && s.data == data && s.events == [RolledBack]
            && key in s.objects && s.objects[key].metadata == map["UserId" := user.value.id]
  {
    TryCreateOutcomes(data, objects, url, chunkThreshold, row, user, file, newGuid, f);
    TryCreateUploadFails(data, objects, url, chunkThreshold, row, user, file, newGuid, f);
    var t := TryCreate(data, objects, url, chunkThreshold, row, user, file, newGuid, f);
    SourceKeyIsNotWrittenKey(t.row, t.row);
    ClosedBeforeCommit(data, t, f.cleanup);
  }

  /** The catch block always rethrows: Create returns exactly when its try
    * block completes. */
  lemma ClosedReturns(data: Tables, t: CreateAttempt, cleanup: Option<S3Error>)
    ensures CreateClosed(data, t, cleanup).outcome.Returned? <==> t.result.Ok?
  {
  }

  /** The catch block after a failure after the commit: the rollback has
    * nothing to undo. */
  lemma ClosedAfterCommit(data: Tables, t: CreateAttempt, cleanup: Option<S3Error>)
    requires t.result.Err? && t.committed
    ensures var s := CreateClosed(data, t, cleanup);
            && s.outcome == (if cleanup.Some? then Raised(StorageException) else Raised(t.result.error))
            && s.data == t.data && s.events == [Committed, RolledBack]
  {
  }

  /** The attached audio is one the Audios table accepts exactly when the
    * drafted columns fit and the caller is a stored user. */
  lemma AttachedStorable(data: Tables, request: UploadAudioRequest, currentUserId: Option<string>,
                         formatTags: seq<string> -> seq<string>)
    requires TablesValid(data)
    ensures Storable(data.users, Attached(Drafted(request), data, request, currentUserId, formatTags))
            <==> ColumnsFit(Drafted(request)) && FindUser(data.users, currentUserId).Some?
  {
    var user := FindUser(data.users, currentUserId);
    if user.Some? {
      assert user.value.id == currentUserId.value;
    }
  }

  /** Create succeeds exactly when the caller exists, the drafted columns
    * fit and no call fails. */
  lemma CreateSucceeds(data: Tables, objects: map<string, StoredObject>, url: string, chunkThreshold: int,
                       request: UploadAudioRequest, currentUserId: Option<string>,
                       formatTags: seq<string> -> seq<string>, newGuid: Guid, f: CreateFaults)
    requires TablesValid(data)
    ensures var s := CreateSpec(data, objects, url, chunkThreshold, request, currentUserId, formatTags, newGuid, f);
            s.outcome.Returned? <==>
              && !f.begin && !f.add && ColumnsFit(Drafted(request)) && !f.commit && FindUser(data.users, currentUserId).Some?
              && (request.file.Some? ==> f.upload.None? && !f.resave)
  {
    var row := Attached(Drafted(request), data, request, currentUserId, formatTags);
    var user := FindUser(data.users, currentUserId);
    AttachedStorable(data, request, currentUserId, formatTags);
    TryCreateOutcomes(data, objects, url, chunkThreshold, row, user, request.file, newGuid, f);
    ClosedReturns(data, TryCreate(data, objects, url, chunkThreshold, row, user, request.file, newGuid, f), f.cleanup);
  }

  /** On success the created audio is stored under the next identity and
    * returned with its owner; the transaction is committed; the attached
    * file, when there is one, is written under audios/<upload id><ext>
    * with the caller's id as metadata, and no other blob changes. */
  lemma CreateStores(data: Tables, objects: map<string, StoredObject>, url: string, chunkThreshold: int,
                     request: UploadAudioRequest, currentUserId: Option<string>,
                     formatTags: seq<string> -> seq<string>, newGuid: Guid, f: CreateFaults)
    requires TablesValid(data)
    requires !f.begin && !f.add && ColumnsFit(Drafted(request)) && !f.commit && FindUser(data.users, currentUserId).Some?
    requires request.file.Some? ==> f.upload.None? && !f.resave
    ensures var s := CreateSpec(data, objects, url, chunkThreshold, request, currentUserId, formatTags, newGuid, f);
            var row := CreatedRow(data, request, currentUserId, formatTags, newGuid);
            var user := data.users[currentUserId.value];
            && s.outcome == Returned(Success(ItemMap(row, user, Some(user.id))))
            && s.data.audios == data.audios[data.nextId := row] && s.data.nextId == data.nextId + 1
            && s.data.users == data.users && s.data.favorites == data.favorites
            && s.events == [Begun, Committed]
            && (request.file.None? ==> s.objects == objects)
            && (request.file.Some? ==>
                  s.objects == objects[RemoveAudio.AudioKey(row) := StoredObject(map["UserId" := user.id],
                                                        UsesMultipart(Some(request.file.value.length), chunkThreshold))])
  {
    var row := Attached(Drafted(request), data, request, currentUserId, formatTags);
    var user := FindUser(data.users, currentUserId);
    AttachedStorable(data, request, currentUserId, formatTags);
    TryCreateOutcomes(data, objects, url, chunkThreshold, row, user, request.file, newGuid, f);
    TryCreateStores(data, objects, url, chunkThreshold, row, user, request.file, newGuid, f);
  }

  /** The catch block never deletes the blob Create wrote: the upload goes
    * to audios/<upload id><ext>, the delete to audios/<upload id>/source<ext>,
    * which is longer, whatever the two upload ids. */
  lemma SourceKeyIsNotWrittenKey(written: AudioRow, failed: AudioRow)
    requires written.fileExt == failed.fileExt
    ensures SourceKey(failed) != RemoveAudio.AudioKey(written)
  {
    var ext := written.fileExt.GetOr("");
    var d := FormatD(failed.uploadId);
    FormatsHaveNoSeparator(failed.uploadId);
    assert d[35] in d && ("source" + ext)[0] == 's';
    var blob := Combine(d, "source" + ext);
    assert |blob| == 36 + 1 + 6 + |ext|;
    AudiosKeyLength(blob);
    var w := FormatD(written.uploadId);
    var name := GetAudioBlobName(written);
    FormatsHaveNoSeparator(written.uploadId);
    assert name[0] == name[..36][0] == w[0] && w[0] in w;
    AudiosKeyLength(name);
  }

  /** A key in the audios container is one character longer than the
    * container and the blob name together. */
  lemma AudiosKeyLength(blobName: string)
    requires blobName != "" && blobName[0] != '/'
    ensures |GetKeyName(Containers.Audios, blobName)| == |Containers.Audios| + 1 + |blobName|
  {
    assert Containers.Audios[|Containers.Audios| - 1] == 's';
  }

  /** When the upload succeeded and a later save or the commit fails, the
    * tables are rolled back but the uploaded blob stays in the bucket: the
    * catch block deletes another key. */
  lemma CreateOrphansUpload(data: Tables, objects: map<string, StoredObject>, url: string, chunkThreshold: int,
                            request: UploadAudioRequest, currentUserId: Option<string>,
                            formatTags: seq<string> -> seq<string>, newGuid: Guid, f: CreateFaults)
    requires TablesValid(data) && request.file.Some? && FindUser(data.users, currentUserId).Some?
    requires !f.begin && !f.add && ColumnsFit(Drafted(request)) && f.upload.None? && (f.resave || f.commit)
    ensures var s := CreateSpec(data, objects, url, chunkThreshold, request, currentUserId, formatTags, newGuid, f);
            var key := RemoveAudio.AudioKey(CreatedRow(data, request, currentUserId, formatTags, newGuid));
            && s.outcome.Raised? && s.data == data && s.events == [Begun, RolledBack]
            && key in s.objects && s.objects[key].metadata == map["UserId" := data.users[currentUserId.value].id]
  {
    var row := Attached(Drafted(request), data, request, currentUserId, formatTags);
    var user := FindUser(data.users, currentUserId);
    AttachedStorable(data, request, currentUserId, formatTags);
    ClosedKeepsUpload(data, objects, url, chunkThreshold, row, user, request.file, newGuid, f);
    CreateSpecUnfolds(data, objects, url, chunkThreshold, request, currentUserId, formatTags, newGuid, f);
    CreatedRowWithFile(data, request, currentUserId, formatTags, newGuid);
  }

  /** Once the transaction begins, Create is the catch block around the try
    * block for the drafted and attached audio. */
  lemma CreateSpecUnfolds(data: Tables, objects: map<string, StoredObject>, url: string, chunkThreshold: int,
                          request: UploadAudioRequest, currentUserId: Option<string>,
                          formatTags: seq<string> -> seq<string>, newGuid: Guid, f: CreateFaults)
    requires !f.begin
    ensures var row := Attached(Drafted(request), data, request, currentUserId, formatTags);
            var c := CreateClosed(data, TryCreate(data, objects, url, chunkThreshold, row,
                                                  FindUser(data.users, currentUserId), request.file, newGuid, f),
                                  f.cleanup);
            CreateSpec(data, objects, url, chunkThreshold, request, currentUserId, formatTags, newGuid, f)
            == ServiceState(c.outcome, c.data, c.objects, [Begun] + c.events)
  {
  }

  /** With an attached file, the stored row carries the next identity and
    * the fresh upload id. */
  lemma CreatedRowWithFile(data: Tables, request: UploadAudioRequest, currentUserId: Option<string>,
                           formatTags: seq<string> -> seq<string>, newGuid: Guid)
    requires request.file.Some?
    ensures CreatedRow(data, request, currentUserId, formatTags, newGuid)
            == Attached(Drafted(request), data, request, currentUserId, formatTags).(id := data.nextId, uploadId := newGuid)
  {
  }

  /** Without a known caller the attached audio has no owner, so the insert
    * raises before anything is written: the tables are rolled back to what
    * they were, the source key is deleted unless the delete fails, and no
    * commit happens. */
  lemma CreateRefusesOwnerless(data: Tables, objects: map<string, StoredObject>, url: string, chunkThreshold: int,
                               request: UploadAudioRequest, currentUserId: Option<string>,
                               formatTags: seq<string> -> seq<string>, newGuid: Guid, f: CreateFaults)
    requires FindUser(data.users, currentUserId).None?
    ensures var s := CreateSpec(data, objects, url, chunkThreshold, request, currentUserId, formatTags, newGuid, f);
            var row := Attached(Drafted(request), data, request, currentUserId, formatTags);
            && s.outcome.Raised? && s.data == data
            && (f.begin ==> s.outcome == Raised(DatabaseException) && s.objects == objects && s.events == [])
            && (!f.begin ==> && (s.outcome, s.objects) == DeleteAndRethrow(DatabaseException, objects, SourceKey(row), f.cleanup)
                             && s.events == [Begun, RolledBack])
  {
    var row := Attached(Drafted(request), data, request, currentUserId, formatTags);
    assert !OwnerStored(data.users, row);
    if !f.begin {
      CreateSpecUnfolds(data, objects, url, chunkThreshold, request, currentUserId, formatTags, newGuid, f);
    }
  }

  /** Every call that raises leaves the tables as they were and raises
    * before its commit: a committed insert always has a stored owner, so
    * the projection after the commit cannot fail. */
  lemma CreateAtomic(data: Tables, objects: map<string, StoredObject>, url: string, chunkThreshold: int,
                     request: UploadAudioRequest, currentUserId: Option<string>,
                     formatTags: seq<string> -> seq<string>, newGuid: Guid, f: CreateFaults)
    ensures var s := CreateSpec(data, objects, url, chunkThreshold, request, currentUserId, formatTags, newGuid, f);
            s.outcome.Raised? ==> s.data == data && Committed !in s.events
  {
    if !f.begin {
      var row := Attached(Drafted(request), data, request, currentUserId, formatTags);
      var user := FindUser(data.users, currentUserId);
      assert Storable(data.users, row) ==> user.Some?;
      TryCreateOutcomes(data, objects, url, chunkThreshold, row, user, request.file, newGuid, f);
      CreateSpecUnfolds(data, objects, url, chunkThreshold, request, currentUserId, formatTags, newGuid, f);
    }
  }

  // -----------------------------------------------------------------------
  // Update
  // -----------------------------------------------------------------------

  /** The null-coalescing assignments of Update. */
  function Changed(row: AudioRow, request: UpdateAudioRequest): AudioRow
  {
    row.(title := if request.title.Some? then request.title else row.title,
         description := if request.description.Some? then request.description else row.description,
         isPublic := request.isPublic.GetOr(row.isPublic),
         isLoop := request.isLoop.GetOr(row.isLoop))
  }

  /** The assignments of Update: a title, description or flag that is not
    * null replaces the stored one (a blank title included), the genre found
    * replaces the current one when another is requested, and the tag set
    * is synchronised with the resolved request tags, whether or not the
    * request has any. */
  function Edited(row: AudioRow, data: Tables, request: UpdateAudioRequest, formatTags: seq<string> -> seq<string>)
    : (r: AudioRow)
    ensures r.id == row.id && r.userId == row.userId
  {
    var a := Changed(row, request);
    var b := if UpdateAudio.GenreChangeRequested(row, request.genre) then a.UpdateGenre(GetGenre(data.genres, request.genre))
             else a;
    b.(tags := UpdateAudio.HandlerTags(b.tags, MergedTags(data.tags, formatTags(request.tags))))
  }

  /** Update once its transaction has begun. */
  function UpdateBody(data: Tables, id: int, request: UpdateAudioRequest, currentUserId: Option<string>,
                      formatTags: seq<string> -> seq<string>, saveFails: bool, commitFails: bool): TxState<AudioItem>
  {
    if id !in data.audios then TxState(Returned(Fail(NotFound)), data, [RolledBack])
    else
      var row := data.audios[id];
      if row.userId != currentUserId then TxState(Returned(Fail(Forbidden)), data, [RolledBack])
      else if UpdateAudio.GenreChangeRequested(row, request.genre) && GetGenre(data.genres, request.genre).None? then
        TxState(Returned(Fail(BadRequest, UpdateAudio.UnknownGenreMessage)), data, [RolledBack])
      else UpdateSaved(data, Edited(row, data, request, formatTags), currentUserId, saveFails, commitFails)
  }

  /** The save, the commit and the projection with the loaded owner. */
  function UpdateSaved(data: Tables, edited: AudioRow, currentUserId: Option<string>, saveFails: bool, commitFails: bool)
    : TxState<AudioItem>
  {
    if saveFails || !Storable(data.users, edited) || commitFails then TxState(Raised(DatabaseException), data, [RolledBack])
    else
      // The save accepted the audio, so its owner is a stored user and the
      // projection after the commit does not raise.
      var saved := SavedAudio(data, edited);
      var view := ItemMapToDetail(edited, FindUser(saved.users, edited.userId), currentUserId);
      TxState(Returned(Success(view.value)), saved, [Committed])
  }

  /** Update as a function of the tables before the call. */
  function UpdateSpec(data: Tables, id: int, request: UpdateAudioRequest, currentUserId: Option<string>,
                      formatTags: seq<string> -> seq<string>, beginFails: bool, saveFails: bool, commitFails: bool)
    : TxState<AudioItem>
  {
    if beginFails then TxState(Raised(DatabaseException), data, [])
    else
      var b := UpdateBody(data, id, request, currentUserId, formatTags, saveFails, commitFails);
      TxState(b.outcome, b.data, [Begun] + b.events)
  }

  /** Update. */
  method Update(db: Database, id: int, request: UpdateAudioRequest, currentUserId: Option<string>,
                formatTags: seq<string> -> seq<string>, beginFails: bool, saveFails: bool, commitFails: bool)
    returns (o: Outcome<AudioItem>)
    requires db.Valid() && db.snapshot.None?
    modifies db
    ensures db.Valid() && db.snapshot.None?
    ensures var s := UpdateSpec(old(db.data), id, request, currentUserId, formatTags, beginFails, saveFails, commitFails);
            o == s.outcome && db.data == s.data && db.events == old(db.events) + s.events
  {
    var begun := db.BeginTransaction(beginFails);
    if begun.Err? {
      return Raised(begun.error);
    }
    o := UpdateInTransaction(db, id, request, currentUserId, formatTags, saveFails, commitFails);
  }

  method UpdateInTransaction(db: Database, id: int, request: UpdateAudioRequest, currentUserId: Option<string>,
                             formatTags: seq<string> -> seq<string>, saveFails: bool, commitFails: bool)
    returns (o: Outcome<AudioItem>)
    requires db.Valid() && db.snapshot == Some(db.data)
    modifies db
    ensures db.Valid() && db.snapshot.None?
    ensures var s := UpdateBody(old(db.data), id, request, currentUserId, formatTags, saveFails, commitFails);
            o == s.outcome && db.data == s.data && db.events == old(db.events) + s.events
  {
    if id !in db.data.audios {
      db.RollbackTransaction();
      return Returned(Fail(NotFound));
    }
    var row := db.data.audios[id];
    if row.userId != currentUserId {
      db.RollbackTransaction();
      return Returned(Fail(Forbidden));
    }
    o := EditInTransaction(db, row, request, currentUserId, formatTags, saveFails, commitFails);
  }

  /** The try block once the caller is known to own the audio. */
  method EditInTransaction(db: Database, row: AudioRow, request: UpdateAudioRequest, currentUserId: Option<string>,
                           formatTags: seq<string> -> seq<string>, saveFails: bool, commitFails: bool)
    returns (o: Outcome<AudioItem>)
    requires db.Valid() && db.snapshot == Some(db.data) && row.id in db.data.audios
    modifies db
    ensures db.Valid() && db.snapshot.None?
    ensures var s := if UpdateAudio.GenreChangeRequested(row, request.genre) && GetGenre(old(db.data).genres, request.genre).None?
                     then TxState(Returned(Fail(BadRequest, UpdateAudio.UnknownGenreMessage)), old(db.data), [RolledBack])
                     else UpdateSaved(old(db.data), Edited(row, old(db.data), request, formatTags), currentUserId,
                                      saveFails, commitFails);
            o == s.outcome && db.data == s.data && db.events == old(db.events) + s.events
  {
    var newTags := CreateNewTags(db.data.tags, request.tags, formatTags);
    var audio := new Audio.Load(row);
    AssignChanges(audio, request);
    if UpdateAudio.GenreChangeRequested(row, request.genre) {
      var genre := GetGenre(db.data.genres, request.genre);
      if genre.None? {
        db.RollbackTransaction();
        return Returned(Fail(BadRequest, UpdateAudio.UnknownGenreMessage));
      }
      audio.UpdateGenre(genre);
    }
    UpdateAudio.ReplaceTags(audio, newTags);
    o := SaveUpdated(db, audio, currentUserId, saveFails, commitFails);
  }

  /** The null-coalescing assignments. */
  method AssignChanges(audio: Audio, request: UpdateAudioRequest)
    modifies audio
    ensures audio.Row() == Changed(old(audio.Row()), request)
  {
    audio.title, audio.description, audio.isPublic, audio.isLoop :=
      if request.title.Some? then request.title else audio.title,
      if request.description.Some? then request.description else audio.description,
      request.isPublic.GetOr(audio.isPublic),
      request.isLoop.GetOr(audio.isLoop);
  }

  method SaveUpdated(db: Database, audio: Audio, currentUserId: Option<string>, saveFails: bool, commitFails: bool)
    returns (o: Outcome<AudioItem>)
    requires db.Valid() && db.snapshot == Some(db.data) && audio.id in db.data.audios
    modifies db
    ensures db.Valid() && db.snapshot.None?
    ensures var s := UpdateSaved(old(db.data), audio.Row(), currentUserId, saveFails, commitFails);
            o == s.outcome && db.data == s.data && db.events == old(db.events) + s.events
  {
    var saved := db.SaveAudio(audio.Row(), saveFails);
    if saved.Err? {
      db.RollbackTransaction();
      return Raised(saved.error);
    }
    var committed := db.CommitTransaction(commitFails);
    if committed.Err? {
      db.RollbackTransaction();
      return Raised(committed.error);
    }
    // The save accepted the audio, so its owner is a stored user and the
    // projection's dereference of the owner does not raise.
    var view := ItemMapToDetail(audio.Row(), FindUser(db.data.users, audio.userId), currentUserId);
    o := Returned(Success(view.value));
  }

  // -----------------------------------------------------------------------
  // What Update promises
  // -----------------------------------------------------------------------

  /** NotFound for a missing audio, Forbidden for another owner, BadRequest
    * for an unknown genre; each refusal rolls back and changes nothing. */
  lemma UpdateRefusals(data: Tables, id: int, request: UpdateAudioRequest, currentUserId: Option<string>,
                       formatTags: seq<string> -> seq<string>, saveFails: bool, commitFails: bool)
    ensures var s := UpdateSpec(data, id, request, currentUserId, formatTags, false, saveFails, commitFails);
            && (s.outcome.IsFailure(NotFound) <==> id !in data.audios)
            && (s.outcome.IsFailure(Forbidden) <==> id in data.audios && data.audios[id].userId != currentUserId)
            && (s.outcome == Returned(Fail(BadRequest, UpdateAudio.UnknownGenreMessage)) <==>
                  && id in data.audios && data.audios[id].userId == currentUserId
                  && UpdateAudio.GenreChangeRequested(data.audios[id], request.genre)
                  && GetGenre(data.genres, request.genre).None?)
            && (s.outcome.Returned? && !s.outcome.result.isSuccess ==> s.data == data && s.events == [Begun, RolledBack])
  {
  }

  /** Update succeeds exactly when the caller owns the audio, the requested
    * genre is known, the edited audio is one the Audios table accepts
    * (which includes an owner that is a stored user) and neither the save
    * nor the commit fails; the edited audio is then saved and returned. */
  lemma UpdateSucceeds(data: Tables, id: int, request: UpdateAudioRequest, currentUserId: Option<string>,
                       formatTags: seq<string> -> seq<string>, beginFails: bool, saveFails: bool, commitFails: bool)
    ensures var s := UpdateSpec(data, id, request, currentUserId, formatTags, beginFails, saveFails, commitFails);
            && (s.outcome.Returned? && s.outcome.result.isSuccess <==>
                  && !beginFails && id in data.audios && data.audios[id].userId == currentUserId
                  && !(UpdateAudio.GenreChangeRequested(data.audios[id], request.genre)
                       && GetGenre(data.genres, request.genre).None?)
                  && !saveFails && Storable(data.users, Edited(data.audios[id], data, request, formatTags))
                  && !commitFails)
            && (s.outcome.Returned? && s.outcome.result.isSuccess ==>
                  s.data == SavedAudio(data, Edited(data.audios[id], data, request, formatTags))
                  && s.events == [Begun, Committed])
  {
  }

  /** The edited audio: a title that is not null replaces the stored one
    * even when blank; description and flags keep their old values when
    * null; the picture, the upload id and the favorites are untouched. */
  lemma EditedFields(row: AudioRow, data: Tables, request: UpdateAudioRequest, formatTags: seq<string> -> seq<string>)
    ensures var r := Edited(row, data, request, formatTags);
            && r.title == (if request.title.Some? then request.title else row.title)
            && r.description == (if request.description.Some? then request.description else row.description)
            && r.isPublic == request.isPublic.GetOr(row.isPublic) && r.isLoop == request.isLoop.GetOr(row.isLoop)
            && r.picture == row.picture && r.uploadId == row.uploadId && r.favorited == row.favorited
  {
  }

  /** The tag ids of the edited audio become exactly the normalised request
    * ids, so a request without tags clears the tags. */
  lemma EditedTags(row: AudioRow, data: Tables, request: UpdateAudioRequest, formatTags: seq<string> -> seq<string>)
    ensures var r := Edited(row, data, request, formatTags);
            && TagIds(r.tags) == set id | id in formatTags(request.tags)
            && (formatTags(request.tags) == [] ==> r.tags == [])
  {
    var merged := MergedTags(data.tags, formatTags(request.tags));
    MergedTagsIds(data.tags, formatTags(request.tags));
    UpdateAudio.HandlerTagsProperties(row.tags, merged);
  }

  /** A blank, non-null title is stored by Update, while the command
    * handler of Features/Audio/UpdateAudio keeps the old title. */
  lemma UpdateRevisionsDisagreeOnBlankTitle(row: AudioRow, data: Tables, request: UpdateAudioRequest, id: int,
                                            formatTags: seq<string> -> seq<string>)
    requires request.title.Some? && IsBlank(request.title.value)
    ensures Edited(row, data, request, formatTags).title == request.title
    ensures UpdateAudio.Edited(row, data, UpdateAudio.UpdateAudioRequest(id, request.title, request.description,
                                                                        request.tags, request.genre, request.isPublic,
                                                                        request.isLoop), formatTags).title == row.title
  {
  }

  /** Every call that raises does so before its commit and leaves the
    * tables as they were; a committed call returns the saved audio. */
  lemma UpdateAtomic(data: Tables, id: int, request: UpdateAudioRequest, currentUserId: Option<string>,
                     formatTags: seq<string> -> seq<string>, beginFails: bool, saveFails: bool, commitFails: bool)
    ensures var s := UpdateSpec(data, id, request, currentUserId, formatTags, beginFails, saveFails, commitFails);
            && (s.outcome.Raised? ==> s.data == data && Committed !in s.events)
            && (Committed in s.events ==> s.outcome.Returned? && s.outcome.result.isSuccess)
  {
  }

  // -----------------------------------------------------------------------
  // Remove
  // -----------------------------------------------------------------------

  /** What Remove leaves behind. Result.Success() carries no data; it is
    * modelled as a success carrying the unit value. */
  datatype RemoveState = RemoveState(outcome: Outcome<()>, data: Tables, objects: map<string, StoredObject>)

  /** The key the picture delete is issued for: the stored path as it is;
    * a null path is handed on as the empty key. */
  function PictureKey(row: AudioRow): string
  {
    row.picture.GetOr("")
  }

  /** Remove as a function of the state before the call. */
  function RemoveSpec(data: Tables, objects: map<string, StoredObject>, id: int, currentUserId: Option<string>,
                      f: RemoveFaults): RemoveState
  {
    if id !in data.audios then RemoveState(Returned(Fail(NotFound)), data, objects)
    else
      var row := data.audios[id];
      if row.userId != currentUserId then RemoveState(Returned(Fail(Forbidden)), data, objects)
      else
        var afterAudio := if f.audioBlob.None? then objects - {RemoveAudio.AudioKey(row)} else objects;
        var afterPicture := if f.pictureBlob.None? then afterAudio - {PictureKey(row)} else afterAudio;
        var outcome := if f.save then Raised(DatabaseException)
                       else if f.audioBlob.Some? || f.pictureBlob.Some? then Raised(StorageException)
                       else Returned(Success(()));
        RemoveState(outcome, if f.save then data else AudioRemoved(data, id), afterPicture)
  }

  /** Remove: the row removal and the two deletes are all issued before the
    * first failure is rethrown. */
  method Remove(db: Database, storage: AmazonS3Service, id: int, currentUserId: Option<string>, f: RemoveFaults)
    returns (o: Outcome<()>)
    requires db.Valid()
    modifies db, storage
    ensures db.Valid() && db.snapshot == old(db.snapshot) && db.events == old(db.events)
    ensures RemoveState(o, db.data, storage.objects) == RemoveSpec(old(db.data), old(storage.objects), id, currentUserId, f)
  {
    if id !in db.data.audios {
      return Returned(Fail(NotFound));
    }
    var row := db.data.audios[id];
    if row.userId != currentUserId {
      return Returned(Fail(Forbidden));
    }
    var removed := db.RemoveAudio(id, f.save);
    var audioRemoved := storage.Remove(Containers.Audios, GetAudioBlobName(row), f.audioBlob);
    var pictureRemoved := storage.RemoveKey(row.picture.GetOr(""), f.pictureBlob);
    if removed.Err? {
      return Raised(removed.error);
    }
    if audioRemoved.Err? {
      return Raised(audioRemoved.error);
    }
    if pictureRemoved.Err? {
      return Raised(pictureRemoved.error);
    }
    o := Returned(Success(()));
  }

  /** NotFound for a missing audio and Forbidden for another owner, with
    * nothing removed; otherwise success exactly when no task fails, and
    * then the row, its favourites, its audio blob and its picture blob are
    * gone and nothing else changes. */
  lemma RemoveOutcomes(data: Tables, objects: map<string, StoredObject>, id: int, currentUserId: Option<string>,
                       f: RemoveFaults)
    ensures var s := RemoveSpec(data, objects, id, currentUserId, f);
            && (s.outcome.IsFailure(NotFound) <==> id !in data.audios)
            && (s.outcome.IsFailure(Forbidden) <==> id in data.audios && data.audios[id].userId != currentUserId)
            && (s.outcome.Returned? && !s.outcome.result.isSuccess ==> s.data == data && s.objects == objects)
            && (s.outcome.Returned? && s.outcome.result.isSuccess <==>
                  id in data.audios && data.audios[id].userId == currentUserId
                  && !f.save && f.audioBlob.None? && f.pictureBlob.None?)
            && (s.outcome.Returned? && s.outcome.result.isSuccess ==>
                  var row := data.audios[id];
                  && s.data == AudioRemoved(data, id)
                  && (forall k :: k in s.data.favorites <==> k in data.favorites && k.audioId != id)
                  && s.objects == objects - {RemoveAudio.AudioKey(row), PictureKey(row)})
  {
    var s := RemoveSpec(data, objects, id, currentUserId, f);
    if id !in data.audios {
      assert s.outcome == Returned(Fail(NotFound));
    } else if data.audios[id].userId != currentUserId {
      assert s.outcome == Returned(Fail(Forbidden));
    } else if f.save || f.audioBlob.Some? || f.pictureBlob.Some? {
      assert s.outcome.Raised?;
    } else {
      var row := data.audios[id];
      assert s.outcome == Returned(Success(()));
      assert objects - {RemoveAudio.AudioKey(row)} - {PictureKey(row)} == objects - {RemoveAudio.AudioKey(row), PictureKey(row)};
    }
  }

  /** The picture delete is issued even for an audio without a picture: when
    * that delete fails, Remove raises, where the command handler of
    * Features/Audio/RemoveAudio issues no such delete and succeeds. */
  lemma RemoveDeletesMissingPicture(data: Tables, objects: map<string, StoredObject>, id: int,
                                    currentUserId: Option<string>, f: RemoveFaults)
    requires id in data.audios && data.audios[id].userId == currentUserId
    requires IsNullOrEmpty(data.audios[id].picture)
    requires !f.save && f.audioBlob.None? && f.pictureBlob.Some?
    ensures RemoveSpec(data, objects, id, currentUserId, f).outcome == Raised(StorageException)
    ensures RemoveAudio.RemoveSpec(data, objects, id, currentUserId, false, None, f.pictureBlob).outcome
            == Returned(Success(true))
  {
  }

  /** A failing save leaves the row in place, yet the blob deletes have been
    * issued: the row outlives its audio blob. */
  lemma RemoveSaveFailureKeepsRow(data: Tables, objects: map<string, StoredObject>, id: int,
                                  currentUserId: Option<string>, f: RemoveFaults)
    requires id in data.audios && data.audios[id].userId == currentUserId
    requires f.save && f.audioBlob.None?
    ensures var s := RemoveSpec(data, objects, id, currentUserId, f);
            && s.outcome == Raised(DatabaseException) && s.data == data
            && RemoveAudio.AudioKey(data.audios[id]) !in s.objects
  {
  }

  // -----------------------------------------------------------------------
  // AddPicture
  // -----------------------------------------------------------------------

  /** The try block of AddPicture: NotFound, Forbidden, then the upload;
    * the path is assigned to the audio directly, so the old picture's blob
    * is neither deleted nor remembered. A failure of the save or the commit
    * is rolled back by the catch block. */
  function TryAddPicture(data: Tables, objects: map<string, StoredObject>, url: string, chunkThreshold: int,
                         id: int, currentUserId: Option<string>, key: string, f: Pictures.PictureFaults,
                         saveFails: bool, commitFails: bool): Pictures.Attempt
  {
    if id !in data.audios then Pictures.Attempt(Ok(Fail(NotFound)), data, objects)
    else
      var row := data.audios[id];
      if row.userId != currentUserId then Pictures.Attempt(Ok(Fail(Forbidden)), data, objects)
      else
        var r := Pictures.Replaced(objects, None, key, url, chunkThreshold, f);
        if r.0.Err? then Pictures.Attempt(Err(r.0.error), data, r.1)
        else if saveFails || !Storable(data.users, row) || commitFails then Pictures.Attempt(Err(DatabaseException), data, r.1)
        else Pictures.Attempt(Ok(Success(r.0.value.url)), SavedAudio(data, row.(picture := Some(r.0.value.path))), r.1)
  }

  /** AddPicture once its transaction has begun: the try block, then the
    * commit or the rollback, and on an exception the catch block, which
    * rolls back and deletes the new key. */
  function AddPictureTransaction(data: Tables, objects: map<string, StoredObject>, url: string, chunkThreshold: int,
                                 id: int, currentUserId: Option<string>, g: Guid, f: Pictures.PictureFaults,
                                 saveFails: bool, commitFails: bool): ServiceState<string>
  {
    var key := Pictures.AudioPictureKey(id, g);
    var t := TryAddPicture(data, objects, url, chunkThreshold, id, currentUserId, key, f, saveFails, commitFails);
    if t.result.Ok? then
      ServiceState(Returned(t.result.value), t.data, t.objects, [if t.result.value.isSuccess then Committed else RolledBack])
    else
      var c := DeleteAndRethrow(t.result.error, t.objects, key, f.cleanup);
      ServiceState(c.0, data, c.1, [RolledBack])
  }

  /** AddPicture as a function of the state before the call. */
  function AddPictureSpec(data: Tables, objects: map<string, StoredObject>, url: string, chunkThreshold: int,
                          id: int, currentUserId: Option<string>, g: Guid, f: Pictures.PictureFaults,
                          beginFails: bool, saveFails: bool, commitFails: bool): ServiceState<string>
  {
    if beginFails then ServiceState(Raised(DatabaseException), data, objects, [])
    else
      var c := AddPictureTransaction(data, objects, url, chunkThreshold, id, currentUserId, g, f, saveFails, commitFails);
      ServiceState(c.outcome, c.data, c.objects, [Begun] + c.events)
  }

  /** AddPicture; the fresh guid is a parameter. */
  method AddPicture(db: Database, images: ImageService, id: int, currentUserId: Option<string>, g: Guid,
                    imageData: string, f: Pictures.PictureFaults, beginFails: bool, saveFails: bool, commitFails: bool)
    returns (o: Outcome<string>)
    requires db.Valid() && db.snapshot.None?
    modifies db, images.storage
    ensures db.Valid() && db.snapshot.None?
    ensures beginFails ==> o == Raised(DatabaseException) && db.data == old(db.data)
                           && images.storage.objects == old(images.storage.objects) && db.events == old(db.events)
    ensures !beginFails ==> var s := AddPictureTransaction(old(db.data), old(images.storage.objects),
                                                           images.storage.url, images.storage.chunkThreshold, id,
                                                           currentUserId, g, f, saveFails, commitFails);
                            o == s.outcome && db.data == s.data && images.storage.objects == s.objects
                            && db.events == old(db.events) + [Begun] + s.events
  {
    var begun := db.BeginTransaction(beginFails);
    if begun.Err? {
      return Raised(begun.error);
    }
    o := AddPictureBegun(db, images, id, currentUserId, g, imageData, f, saveFails, commitFails);
  }

  /** AddPicture once its transaction has begun. */
  method AddPictureBegun(db: Database, images: ImageService, id: int, currentUserId: Option<string>, g: Guid,
                         imageData: string, f: Pictures.PictureFaults, saveFails: bool, commitFails: bool)
    returns (o: Outcome<string>)
    requires db.Valid() && db.snapshot == Some(db.data)
    modifies db, images.storage
    ensures db.Valid() && db.snapshot.None?
    ensures var s := AddPictureTransaction(old(db.data), old(images.storage.objects), images.storage.url,
                                           images.storage.chunkThreshold, id, currentUserId, g, f, saveFails,
                                           commitFails);
            o == s.outcome && db.data == s.data && images.storage.objects == s.objects
            && db.events == old(db.events) + s.events
  {
    var blobName := Pictures.AudioPictureBlobName(id, g);
    var attempt := TryAddPictureInTransaction(db, images, id, currentUserId, blobName, imageData, f, saveFails, commitFails);
    if attempt.Ok? {
      return Returned(attempt.value);
    }
    db.RollbackTransaction();
    var removed := images.RemoveImage(AudioPicture, blobName, f.cleanup);
    if removed.Err? {
      return Raised(removed.error);
    }
    o := Raised(attempt.error);
  }

  /** The try block of AddPicture; a refusal disposes the transaction. */
  method TryAddPictureInTransaction(db: Database, images: ImageService, id: int, currentUserId: Option<string>,
                                    blobName: string, imageData: string, f: Pictures.PictureFaults,
                                    saveFails: bool, commitFails: bool)
    returns (r: Result<AppResult<string>, Exception>)
    requires db.Valid() && db.snapshot == Some(db.data)
    modifies db, images.storage
    ensures db.Valid()
    ensures var t := TryAddPicture(old(db.data), old(images.storage.objects), images.storage.url,
                                   images.storage.chunkThreshold, id, currentUserId,
                                   GetKeyName(GetContainer(AudioPicture).value, blobName), f, saveFails, commitFails);
            && r == t.result && images.storage.objects == t.objects
            && (r.Err? ==> db.snapshot == old(db.snapshot) && db.events == old(db.events))
            && (r.Ok? ==> db.data == t.data && db.snapshot.None?
                          && db.events == old(db.events) + [if r.value.isSuccess then Committed else RolledBack])
  {
    if id !in db.data.audios {
      db.RollbackTransaction();
      return Ok(Fail(NotFound));
    }
    var row := db.data.audios[id];
    if row.userId != currentUserId {
      db.RollbackTransaction();
      return Ok(Fail(Forbidden));
    }
    var response := Pictures.Replace(images, None, AudioPicture, blobName, imageData, f);
    if response.Err? {
      return Err(response.error);
    }
    r := SavePicture(db, row, response.value, saveFails, commitFails);
  }

  /** The save of the new picture path and the commit. */
  method SavePicture(db: Database, row: AudioRow, response: SaveBlobResponse, saveFails: bool, commitFails: bool)
    returns (r: Result<AppResult<string>, Exception>)
    requires db.Valid() && db.snapshot.Some? && row.id in db.data.audios
    modifies db
    ensures db.Valid()
    ensures saveFails || !Storable(old(db.data).users, row) || commitFails
            ==> r == Err(DatabaseException) && db.snapshot == old(db.snapshot) && db.events == old(db.events)
    ensures !(saveFails || !Storable(old(db.data).users, row) || commitFails)
            ==> && r == Ok(Success(response.url)) && db.data == SavedAudio(old(db.data), row.(picture := Some(response.path)))
                && db.snapshot.None? && db.events == old(db.events) + [Committed]
  {
    var saved := db.SaveAudio(row.(picture := Some(response.path)), saveFails);
    if saved.Err? {
      return Err(saved.error);
    }
    var committed := db.CommitTransaction(commitFails);
    if committed.Err? {
      return Err(committed.error);
    }
    r := Ok(Success(response.url));
  }

  // -----------------------------------------------------------------------
  // What AddPicture promises
  // -----------------------------------------------------------------------

  /** NotFound for a missing audio and Forbidden for another owner, before
    * any storage call; a refusal rolls back and changes nothing. */
  lemma AddPictureRefusals(data: Tables, objects: map<string, StoredObject>, url: string, chunkThreshold: int,
                           id: int, currentUserId: Option<string>, g: Guid, f: Pictures.PictureFaults,
                           saveFails: bool, commitFails: bool)
    ensures var s := AddPictureSpec(data, objects, url, chunkThreshold, id, currentUserId, g, f, false, saveFails,
                                    commitFails);
            && (s.outcome.IsFailure(NotFound) <==> id !in data.audios)
            && (s.outcome.IsFailure(Forbidden) <==> id in data.audios && data.audios[id].userId != currentUserId)
            && (s.outcome.Returned? && !s.outcome.result.isSuccess ==>
                  s.data == data && s.objects == objects && s.events == [Begun, RolledBack])
  {
  }

  /** AddPicture succeeds exactly when the caller owns the audio and no
    * call fails. */
  lemma AddPictureSucceeds(data: Tables, objects: map<string, StoredObject>, url: string, chunkThreshold: int,
                           id: int, currentUserId: Option<string>, g: Guid, f: Pictures.PictureFaults,
                           beginFails: bool, saveFails: bool, commitFails: bool)
    ensures var s := AddPictureSpec(data, objects, url, chunkThreshold, id, currentUserId, g, f, beginFails, saveFails,
                                    commitFails);
            s.outcome.Returned? && s.outcome.result.isSuccess <==>
              && !beginFails && id in data.audios && data.audios[id].userId == currentUserId
              && f.decodes && f.upload.None? && !saveFails && Storable(data.users, data.audios[id]) && !commitFails
  {
    if !beginFails {
      TryAddPictureSucceeds(data, objects, url, chunkThreshold, id, currentUserId, Pictures.AudioPictureKey(id, g), f,
                            saveFails, commitFails);
    }
  }

  /** The try block completes with a success exactly when the caller owns
    * the audio and no call fails. */
  lemma TryAddPictureSucceeds(data: Tables, objects: map<string, StoredObject>, url: string, chunkThreshold: int,
                              id: int, currentUserId: Option<string>, key: string, f: Pictures.PictureFaults,
                              saveFails: bool, commitFails: bool)
    ensures var t := TryAddPicture(data, objects, url, chunkThreshold, id, currentUserId, key, f, saveFails, commitFails);
            t.result.Ok? && t.result.value.isSuccess <==>
              && id in data.audios && data.audios[id].userId == currentUserId
              && f.decodes && f.upload.None? && !saveFails && Storable(data.users, data.audios[id]) && !commitFails
  {
    if id in data.audios && data.audios[id].userId == currentUserId {
      Pictures.ReplacedOutcome(objects, None, key, url, chunkThreshold, f);
    }
  }

  /** On success the audio's picture is the new key and the result is that
    * key's URL; the old picture's blob is not deleted: every blob but the
    * new key is left as it was. */
  lemma AddPictureKeepsOldBlob(data: Tables, objects: map<string, StoredObject>, url: string, chunkThreshold: int,
                               id: int, currentUserId: Option<string>, g: Guid, f: Pictures.PictureFaults)
    requires id in data.audios && data.audios[id].userId == currentUserId && f.decodes && f.upload.None?
    requires Storable(data.users, data.audios[id])
    ensures var s := AddPictureSpec(data, objects, url, chunkThreshold, id, currentUserId, g, f, false, false, false);
            var key := Pictures.AudioPictureKey(id, g);
            var row := data.audios[id];
            && s.outcome == Returned(Success(url + "/" + key))
            && s.data == SavedAudio(data, row.(picture := Some(key)))
            && s.events == [Begun, Committed]
            && key in s.objects
            && (forall k :: k in objects && k != key ==> k in s.objects && s.objects[k] == objects[k])
  {
    Pictures.ReplacedOutcome(objects, None, Pictures.AudioPictureKey(id, g), url, chunkThreshold, f);
  }

  /** Any exception leaves the tables as they were and, when the catch
    * block's delete succeeds, removes the new key. */
  lemma AddPictureFailureCleansUp(data: Tables, objects: map<string, StoredObject>, url: string, chunkThreshold: int,
                                  id: int, currentUserId: Option<string>, g: Guid, f: Pictures.PictureFaults,
                                  saveFails: bool, commitFails: bool)
    ensures var s := AddPictureSpec(data, objects, url, chunkThreshold, id, currentUserId, g, f, false, saveFails,
                                    commitFails);
            s.outcome.Raised? ==>
              && s.data == data && s.events == [Begun, RolledBack]
              && (f.cleanup.None? ==> Pictures.AudioPictureKey(id, g) !in s.objects)
              && (f.cleanup.Some? ==> s.outcome == Raised(StorageException))
  {
  }
}
