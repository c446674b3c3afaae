/** RemoveAudioCommandHandler.Handle, in its two revisions
  * (Features/Audio/RemoveAudio/RemoveAudioCommand.cs through the database
  * context, Features/Audios/RemoveAudio/RemoveAudioCommand.cs through the
  * audio repository and Audio.CanModify). Both behave alike: refuse a
  * missing audio and a caller who does not own it, remove and save the row,
  * then delete the audio blob and, when the audio has one, its picture.
  * The deletes run as concurrent tasks; they are modelled one after the
  * other, each attempted whatever the other does. */
module RemoveAudio {
  import opened Wrappers
  import opened Text
  import opened Results
  import opened Entities
  import Containers
  import opened BlobHelpers
  import opened Storage
  import opened Persistence

  datatype RemoveState = RemoveState(outcome: Outcome<bool>, data: Tables, objects: map<string, StoredObject>)

  /** The key of an audio's blob. */
  function AudioKey(row: AudioRow): string
  {
    GetKeyName(Containers.Audios, GetAudioBlobName(row))
  }

  /** Whether a picture delete is issued: only for a non-empty path. */
  predicate HasPicture(row: AudioRow)
  {
    !IsNullOrEmpty(row.picture)
  }

  /** The blob deletes after the row is gone; either failure raises, after
    * both were attempted. */
  function Deleted(row: AudioRow, objects: map<string, StoredObject>,
                   audioFailure: Option<S3Error>, pictureFailure: Option<S3Error>): (Outcome<bool>, map<string, StoredObject>)
  {
    var afterAudio := if audioFailure.None? then objects - {AudioKey(row)} else objects;
    var afterPicture := if HasPicture(row) && pictureFailure.None? then afterAudio - {row.picture.value} else afterAudio;
    var failed := audioFailure.Some? || (HasPicture(row) && pictureFailure.Some?);
    (if failed then Raised(StorageException) else Returned(Success(true)), afterPicture)
  }

  /** The handler as a function of the state before the call. */
  function RemoveSpec(data: Tables, objects: map<string, StoredObject>, id: int, currentUserId: Option<string>,
                      saveFails: bool, audioFailure: Option<S3Error>, pictureFailure: Option<S3Error>): RemoveState
  {
    if id !in data.audios then RemoveState(Returned(Fail(NotFound)), data, objects)
    else
      var row := data.audios[id];
      if row.userId != currentUserId then RemoveState(Returned(Fail(Forbidden)), data, objects)
      else if saveFails then RemoveState(Raised(DatabaseException), data, objects)
      else
        var d := Deleted(row, objects, audioFailure, pictureFailure);
        RemoveState(d.0, AudioRemoved(data, id), d.1)
  }

  /** The handler. The failures of the save and of the two deletes are
    * parameters. */
  method Handle(db: Database, storage: AmazonS3Service, id: int, currentUserId: Option<string>,
                saveFails: bool, audioFailure: Option<S3Error>, pictureFailure: Option<S3Error>)
    returns (o: Outcome<bool>)
    requires db.Valid()
    modifies db, storage
    ensures db.Valid() && db.snapshot == old(db.snapshot) && db.events == old(db.events)
    ensures RemoveState(o, db.data, storage.objects)
            == RemoveSpec(old(db.data), old(storage.objects), id, currentUserId, saveFails, audioFailure, pictureFailure)
  {
    if id !in db.data.audios {
      return Returned(Fail(NotFound));
    }
    var row := db.data.audios[id];
    if row.userId != currentUserId {
      return Returned(Fail(Forbidden));
    }
    var removed := db.RemoveAudio(id, saveFails);
    if removed.Err? {
      return Raised(removed.error);
    }
    o := DeleteBlobs(storage, row, audioFailure, pictureFailure);
  }

  /** The list of delete tasks and Task.WhenAll. */
  method DeleteBlobs(storage: AmazonS3Service, row: AudioRow, audioFailure: Option<S3Error>, pictureFailure: Option<S3Error>)
    returns (o: Outcome<bool>)
    modifies storage
    ensures (o, storage.objects) == Deleted(row, old(storage.objects), audioFailure, pictureFailure)
  {
    var audioRemoved := storage.Remove(Containers.Audios, GetAudioBlobName(row), audioFailure);
    var pictureRemoved: Result<(), Exception> := Ok(());
    if !IsNullOrEmpty(row.picture) {
      pictureRemoved := storage.RemoveKey(row.picture.value, pictureFailure);
    }
    if audioRemoved.Err? {
      return Raised(audioRemoved.error);
    }
    if pictureRemoved.Err? {
      return Raised(pictureRemoved.error);
    }
    o := Returned(Success(true));
  }

  /** A missing audio is NotFound and another owner's audio Forbidden; a
    * refusal, like a failed save, touches neither the row nor any blob. */
  lemma RemoveRefusals(data: Tables, objects: map<string, StoredObject>, id: int, currentUserId: Option<string>,
                       saveFails: bool, audioFailure: Option<S3Error>, pictureFailure: Option<S3Error>)
    ensures var s := RemoveSpec(data, objects, id, currentUserId, saveFails, audioFailure, pictureFailure);
            && (s.outcome.IsFailure(NotFound) <==> id !in data.audios)
            && (s.outcome.IsFailure(Forbidden) <==> id in data.audios && data.audios[id].userId != currentUserId)
            && (s.outcome.Returned? && !s.outcome.result.isSuccess ==> s.data == data && s.objects == objects)
            && (s.outcome == Raised(DatabaseException) <==>
                  id in data.audios && data.audios[id].userId == currentUserId && saveFails)
            && (s.outcome == Raised(DatabaseException) ==> s.data == data && s.objects == objects)
  {
    var s := RemoveSpec(data, objects, id, currentUserId, saveFails, audioFailure, pictureFailure);
    if id !in data.audios {
      assert s.outcome == Returned(Fail(NotFound));
    } else if data.audios[id].userId != currentUserId {
      assert s.outcome == Returned(Fail(Forbidden));
    } else if saveFails {
      assert s.outcome == Raised(DatabaseException);
    } else {
      assert s.outcome == Returned(Success(true)) || s.outcome == Raised(StorageException);
    }
  }

  /** Once the caller owns the audio and the save succeeds, the row and its
    * favourites are gone whatever the deletes do, and no other row changes; the audio blob's delete is always issued, the
    * picture's only for a non-empty path, and no other blob is touched. The
    * result is Success(true) exactly when every issued delete succeeds. */
  lemma RemoveEffects(data: Tables, objects: map<string, StoredObject>, id: int, currentUserId: Option<string>,
                      audioFailure: Option<S3Error>, pictureFailure: Option<S3Error>)
    requires id in data.audios && data.audios[id].userId == currentUserId
    ensures var row := data.audios[id];
            var s := RemoveSpec(data, objects, id, currentUserId, false, audioFailure, pictureFailure);
            && s.data == AudioRemoved(data, id)
            && id !in s.data.audios && (forall k :: k in s.data.favorites ==> k.audioId != id)
            && (forall k :: k in data.favorites && k.audioId != id ==> k in s.data.favorites)
            && (FavoritesReferToAudios(data) ==> FavoritesReferToAudios(s.data))
            && (s.outcome == Returned(Success(true)) <==>
                  audioFailure.None? && (HasPicture(row) ==> pictureFailure.None?))
            && (s.outcome != Returned(Success(true)) ==> s.outcome == Raised(StorageException))
            && (audioFailure.None? ==> AudioKey(row) !in s.objects)
            && (HasPicture(row) && pictureFailure.None? ==> row.picture.value !in s.objects)
            && (forall k :: k in objects && k != AudioKey(row) && !(HasPicture(row) && k == row.picture.value) ==>
                  k in s.objects && s.objects[k] == objects[k])
            && s.objects.Keys <= objects.Keys
  {
    AudioRemovedKeepsReferences(data, id);
  }

  /** Without a picture, only the audio blob can disappear. */
  lemma RemoveWithoutPicture(data: Tables, objects: map<string, StoredObject>, id: int, currentUserId: Option<string>,
                             saveFails: bool, audioFailure: Option<S3Error>, pictureFailure: Option<S3Error>)
    requires id in data.audios && !HasPicture(data.audios[id])
    ensures var s := RemoveSpec(data, objects, id, currentUserId, saveFails, audioFailure, pictureFailure);
            s.objects == objects || s.objects == objects - {AudioKey(data.audios[id])}
  {
  }
}
