/** UpdateAudioCommandHandler.Handle, in its two revisions:
  * Features/Audio/UpdateAudio/UpdateAudioCommand.cs assigns the fields
  * itself inside a database transaction; Features/Audios/UpdateAudio/
  * UpdateAudioCommand.cs goes through the entity's Update methods and the
  * repositories, without a transaction. Both load the audio, refuse a
  * missing audio, a caller who does not own it and an unknown genre, then
  * update and save it. */
module UpdateAudio {
  import opened Wrappers
  import opened Text
  import opened Results
  import opened Entities
  import opened Accounts
  import opened TagMerge
  import opened Genres
  import opened AudioViews
  import opened Persistence

  datatype UpdateAudioRequest = UpdateAudioRequest(
    id: int,
    title: Option<string>,
    description: Option<string>,
    tags: seq<string>,
    genre: Option<string>,
    isPublic: Option<bool>,
    isLoop: Option<bool>)

  const UnknownGenreMessage: string := "Genre does not exist."

  /** A genre is looked up only when the request names one other than the
    * slug of the current genre (compared as given, not normalised). */
  predicate GenreChangeRequested(row: AudioRow, genre: Option<string>)
  {
    !IsNullOrWhiteSpace(genre) && (if row.genre.Some? then row.genre.value.slug else "") != genre.value
  }

  /** The tags the request resolves to: the stored tags for its normalised
    * ids plus new ones for the rest. */
  function NewTags(data: Tables, request: UpdateAudioRequest, formatTags: seq<string> -> seq<string>): seq<Tag>
  {
    MergedTags(data.tags, formatTags(request.tags))
  }

  /** The two loops of the first revision's handler: drop the tags not
    * among the new ones, then append the new ones not yet present. */
  function HandlerTags(current: seq<Tag>, newTags: seq<Tag>): seq<Tag>
  {
    AddMissing(KeepRequested(current, newTags), newTags)
  }

  /** The outcome of a call, the tables after it and the transaction calls
    * it made. */
  datatype UpdateState = UpdateState(outcome: Outcome<AudioViewModel>, data: Tables, events: seq<TxEvent>)

  // -----------------------------------------------------------------------
  // First revision: database context and transaction
  // -----------------------------------------------------------------------

  /** The field assignments of the first revision: a non-blank title and a
    * non-null description and flags. */
  function DirectFields(row: AudioRow, request: UpdateAudioRequest): AudioRow
  {
    row.(title := if !IsNullOrWhiteSpace(request.title) then request.title else row.title,
         description := if request.description.Some? then request.description else row.description,
         isPublic := request.isPublic.GetOr(row.isPublic),
         isLoop := request.isLoop.GetOr(row.isLoop))
  }

  /** The assignments, then the genre found. */
  function Assigned(row: AudioRow, genre: Option<Genre>, request: UpdateAudioRequest): AudioRow
  {
    var a := DirectFields(row, request);
    if GenreChangeRequested(row, request.genre) && genre.Some? then a.UpdateGenre(genre) else a
  }

  /** The assignments followed by the tag loops when the request has tags. */
  function Edited(row: AudioRow, data: Tables, request: UpdateAudioRequest, formatTags: seq<string> -> seq<string>): (r: AudioRow)
    ensures r.id == row.id && r.userId == row.userId
  {
    var b := Assigned(row, GetGenre(data.genres, request.genre), request);
    if |request.tags| > 0 then b.(tags := HandlerTags(b.tags, NewTags(data, request, formatTags))) else b
  }

  /** The first revision once its transaction has begun. An early return
    * disposes the open transaction, which rolls it back. */
  function ContextBody(data: Tables, request: UpdateAudioRequest, currentUserId: Option<string>,
                       formatTags: seq<string> -> seq<string>, saveFails: bool, commitFails: bool): UpdateState
  {
    if request.id !in data.audios then UpdateState(Returned(Fail(NotFound)), data, [RolledBack])
    else
      var row := data.audios[request.id];
      if row.userId != currentUserId then UpdateState(Returned(Fail(Forbidden)), data, [RolledBack])
      else if GenreChangeRequested(row, request.genre) && GetGenre(data.genres, request.genre).None? then
        UpdateState(Returned(Fail(BadRequest, UnknownGenreMessage)), data, [RolledBack])
      else ContextSave(data, Edited(row, data, request, formatTags), currentUserId, saveFails, commitFails)
  }

  /** The save, the commit and the projection of the edited audio. */
  function ContextSave(data: Tables, edited: AudioRow, currentUserId: Option<string>, saveFails: bool, commitFails: bool)
    : UpdateState
  {
    if saveFails || !Storable(data.users, edited) || commitFails then UpdateState(Raised(DatabaseException), data, [RolledBack])
    else
      // The save accepted the audio, so its owner is a stored user and the
      // projection after the commit does not raise.
      var saved := SavedAudio(data, edited);
      var view := MapToDetail(edited, FindUser(saved.users, edited.userId), currentUserId);
      UpdateState(Returned(Success(view.value)), saved, [Committed])
  }

  /** The tag loops of the first revision, on the loaded entity. */
  method ReplaceTags(audio: Audio, newTags: seq<Tag>)
    modifies audio
    ensures audio.Row() == old(audio.Row()).(tags := HandlerTags(old(audio.tags), newTags))
  {
    ghost var current := audio.tags;
    var kept: seq<Tag> := [];
    var i := 0;
    while i < |audio.tags|
      invariant 0 <= i <= |audio.tags| && audio.tags == current
      invariant kept == KeepRequested(audio.tags[..i], newTags)
    {
      if audio.tags[i].id in TagIds(newTags) {
        kept := kept + [audio.tags[i]];
      }
      assert audio.tags[..i + 1][..i] == audio.tags[..i];
      i := i + 1;
    }
    assert audio.tags[..i] == current;
    var j := 0;
    while j < |newTags|
      invariant 0 <= j <= |newTags|
      invariant AddMissing(kept, newTags[j..]) == HandlerTags(current, newTags)
    {
      assert newTags[j..][1..] == newTags[j + 1..];
      if newTags[j].id !in TagIds(kept) {
        kept := kept + [newTags[j]];
      }
      j := j + 1;
    }
    audio.tags := kept;
  }

  method AssignFields(audio: Audio, genre: Option<Genre>, request: UpdateAudioRequest)
    modifies audio
    ensures audio.Row() == Assigned(old(audio.Row()), genre, request)
  {
    var row := audio.Row();
    AssignDirect(audio, request);
    if GenreChangeRequested(row, request.genre) && genre.Some? {
      audio.UpdateGenre(genre);
    }
  }

  /** The assignments of the title, the description and the two flags. */
  method AssignDirect(audio: Audio, request: UpdateAudioRequest)
    modifies audio
    ensures audio.Row() == DirectFields(old(audio.Row()), request)
  {
    if !IsNullOrWhiteSpace(request.title) {
      audio.title := request.title;
    }
    if request.description.Some? {
      audio.description := request.description;
    }
    audio.isPublic, audio.isLoop := request.isPublic.GetOr(audio.isPublic), request.isLoop.GetOr(audio.isLoop);
  }

  /** Loads the audio and applies the first revision's assignments. */
  method EditLoaded(row: AudioRow, data: Tables, request: UpdateAudioRequest, formatTags: seq<string> -> seq<string>)
    returns (audio: Audio)
    ensures fresh(audio) && audio.Row() == Edited(row, data, request, formatTags)
  {
    audio := new Audio.Load(row);
    AssignFields(audio, GetGenre(data.genres, request.genre), request);
    if |request.tags| > 0 {
      var newTags := MergeTags(data.tags, formatTags(request.tags));
      ReplaceTags(audio, newTags);
    }
  }

  /** The first revision's handler. Failures of the transaction calls and
    * of the save are parameters; a rollback does not fail. */
  method HandleInContext(db: Database, request: UpdateAudioRequest, currentUserId: Option<string>,
                         formatTags: seq<string> -> seq<string>, beginFails: bool, saveFails: bool, commitFails: bool)
    returns (o: Outcome<AudioViewModel>)
    requires db.Valid() && db.snapshot.None?
    modifies db
    ensures db.Valid() && db.snapshot.None?
    ensures beginFails ==> o == Raised(DatabaseException) && db.data == old(db.data) && db.events == old(db.events)
    ensures !beginFails ==>
              var s := ContextBody(old(db.data), request, currentUserId, formatTags, saveFails, commitFails);
              o == s.outcome && db.data == s.data && db.events == old(db.events) + [Begun] + s.events
  {
    var begun := db.BeginTransaction(beginFails);
    if begun.Err? {
      return Raised(begun.error);
    }
    o := InTransaction(db, request, currentUserId, formatTags, saveFails, commitFails);
  }

  method InTransaction(db: Database, request: UpdateAudioRequest, currentUserId: Option<string>,
                       formatTags: seq<string> -> seq<string>, saveFails: bool, commitFails: bool)
    returns (o: Outcome<AudioViewModel>)
    requires db.Valid() && db.snapshot == Some(db.data)
    modifies db
    ensures db.Valid() && db.snapshot.None?
    ensures var s := ContextBody(old(db.data), request, currentUserId, formatTags, saveFails, commitFails);
            o == s.outcome && db.data == s.data && db.events == old(db.events) + s.events
  {
    if request.id !in db.data.audios {
      db.RollbackTransaction();
      return Returned(Fail(NotFound));
    }
    var row := db.data.audios[request.id];
    if row.userId != currentUserId {
      db.RollbackTransaction();
      return Returned(Fail(Forbidden));
    }
    if GenreChangeRequested(row, request.genre) && GetGenre(db.data.genres, request.genre).None? {
      db.RollbackTransaction();
      return Returned(Fail(BadRequest, UnknownGenreMessage));
    }
    var audio := EditLoaded(row, db.data, request, formatTags);
    o := SaveInContext(db, audio, currentUserId, saveFails, commitFails);
  }

  method SaveInContext(db: Database, audio: Audio, currentUserId: Option<string>, saveFails: bool, commitFails: bool)
    returns (o: Outcome<AudioViewModel>)
    requires db.Valid() && db.snapshot == Some(db.data) && audio.id in db.data.audios
    modifies db
    ensures db.Valid() && db.snapshot.None?
    ensures var s := ContextSave(old(db.data), audio.Row(), currentUserId, saveFails, commitFails);
            o == s.outcome && db.data == s.data && db.events == old(db.events) + s.events
  {
    var saved := db.SaveAudio(audio.Row(), saveFails);
    if saved.Err? {
      db.RollbackTransaction();
      return Raised(saved.error);
    }
    var committed := db.CommitTransaction(commitFails);
    if committed.Err? {
      db.RollbackTransaction();
      return Raised(committed.error);
    }
    // The save accepted the audio, so its owner is a stored user and the
    // projection's dereference of the owner does not raise.
    var view := MapToDetail(audio.Row(), FindUser(db.data.users, audio.userId), currentUserId);
    o := Returned(Success(view.value));
  }

  // -----------------------------------------------------------------------
  // Second revision: entity methods and repositories
  // -----------------------------------------------------------------------

  /** The second revision's genre step: UpdateGenre with the genre found. */
  function Regenred(row: AudioRow, genre: Option<Genre>, request: UpdateAudioRequest): AudioRow
  {
    if GenreChangeRequested(row, request.genre) && genre.Some? then row.UpdateGenre(genre) else row
  }

  /** The second revision's tag step: UpdateTags when the request has tags. */
  function Retagged(row: AudioRow, data: Tables, request: UpdateAudioRequest, formatTags: seq<string> -> seq<string>): AudioRow
  {
    if |request.tags| > 0 then row.UpdateTags(NewTags(data, request, formatTags)) else row
  }

  /** The entity calls of the second revision: the genre found, the tags
    * when the request has some, then UpdateTitle, UpdateDescription and
    * UpdatePublicStatus (the loop flag is not touched). */
  function Updated(row: AudioRow, genre: Option<Genre>, data: Tables, request: UpdateAudioRequest,
                   formatTags: seq<string> -> seq<string>): (r: AudioRow)
    ensures r.id == row.id && r.userId == row.userId
  {
    Retagged(Regenred(row, genre, request), data, request, formatTags)
      .UpdateTitle(request.title).UpdateDescription(request.description).UpdatePublicStatus(request.isPublic)
  }

  /** The mapped view with the favourite flag recomputed. */
  function UpdatedView(row: AudioRow, owner: User, currentUserId: Option<string>): AudioViewModel
  {
    Map(row, owner, currentUserId).(isFavorited := FavoritedBy(row.favorited, currentUserId))
  }

  /** The second revision as a function of the tables before the call. */
  function RepositorySpec(data: Tables, request: UpdateAudioRequest, currentUserId: Option<string>,
                          formatTags: seq<string> -> seq<string>, saveFails: bool): UpdateState
  {
    if request.id !in data.audios then UpdateState(Returned(Fail(NotFound)), data, [])
    else
      var row := data.audios[request.id];
      if row.userId != currentUserId then UpdateState(Returned(Fail(Forbidden)), data, [])
      else if GenreChangeRequested(row, request.genre) && GetGenre(data.genres, request.genre).None? then
        UpdateState(Returned(Fail(BadRequest, UnknownGenreMessage)), data, [])
      else RepositorySave(data, Updated(row, GetGenre(data.genres, request.genre), data, request, formatTags), currentUserId, saveFails)
  }

  /** UpdateAsync and the projection of the updated audio. */
  function RepositorySave(data: Tables, edited: AudioRow, currentUserId: Option<string>, saveFails: bool): UpdateState
  {
    if saveFails || !Storable(data.users, edited) then UpdateState(Raised(DatabaseException), data, [])
    else
      // The save accepted the audio, so its owner is a stored user.
      var saved := SavedAudio(data, edited);
      var owner := FindUser(saved.users, edited.userId).value;
      UpdateState(Returned(Success(UpdatedView(edited, owner, currentUserId))), saved, [])
  }

  /** The second revision's handler. Audio.CanModify compares the owner
    * with the caller id, null included. */
  method HandleWithRepositories(db: Database, request: UpdateAudioRequest, currentUserId: Option<string>,
                                formatTags: seq<string> -> seq<string>, saveFails: bool)
    returns (o: Outcome<AudioViewModel>)
    requires db.Valid()
    modifies db
    ensures db.Valid() && db.snapshot == old(db.snapshot) && db.events == old(db.events)
    ensures var s := RepositorySpec(old(db.data), request, currentUserId, formatTags, saveFails);
            o == s.outcome && db.data == s.data
  {
    if request.id !in db.data.audios {
      return Returned(Fail(NotFound));
    }
    var row := db.data.audios[request.id];
    if row.userId != currentUserId {
      return Returned(Fail(Forbidden));
    }
    var genre: Option<Genre> := None;
    if GenreChangeRequested(row, request.genre) {
      genre := GetGenre(db.data.genres, request.genre);
      if genre.None? {
        return Returned(Fail(BadRequest, UnknownGenreMessage));
      }
    }
    assert Regenred(row, genre, request) == Regenred(row, GetGenre(db.data.genres, request.genre), request);
    var audio := UpdateLoaded(row, genre, db.data, request, formatTags);
    o := SaveWithRepository(db, audio, currentUserId, saveFails);
  }

  /** Loads the audio and calls its Update methods in the handler's order. */
  method UpdateLoaded(row: AudioRow, genre: Option<Genre>, data: Tables, request: UpdateAudioRequest,
                      formatTags: seq<string> -> seq<string>) returns (audio: Audio)
    ensures fresh(audio) && audio.Row() == Updated(row, genre, data, request, formatTags)
  {
    audio := new Audio.Load(row);
    if GenreChangeRequested(row, request.genre) && genre.Some? {
      audio.UpdateGenre(genre);
    }
    if |request.tags| > 0 {
      var newTags := MergeTags(data.tags, formatTags(request.tags));
      audio.UpdateTags(newTags);
    }
    assert audio.Row() == Retagged(Regenred(row, genre, request), data, request, formatTags);
    audio.UpdateTitle(request.title);
    audio.UpdateDescription(request.description);
    audio.UpdatePublicStatus(request.isPublic);
  }

  method SaveWithRepository(db: Database, audio: Audio, currentUserId: Option<string>, saveFails: bool)
    returns (o: Outcome<AudioViewModel>)
    requires db.Valid() && audio.id in db.data.audios
    modifies db
    ensures db.Valid() && db.snapshot == old(db.snapshot) && db.events == old(db.events)
    ensures var s := RepositorySave(old(db.data), audio.Row(), currentUserId, saveFails);
            o == s.outcome && db.data == s.data
  {
    var saved := db.SaveAudio(audio.Row(), saveFails);
    if saved.Err? {
      return Raised(saved.error);
    }
    var owner := FindUser(db.data.users, audio.userId);
    o := Returned(Success(UpdatedView(audio.Row(), owner.value, currentUserId)));
  }

  // -----------------------------------------------------------------------
  // Properties of both revisions
  // -----------------------------------------------------------------------

  /** The checks both revisions make before touching anything: the audio
    * exists, the caller owns it, and a requested genre change names a
    * stored genre. */
  predicate Permitted(data: Tables, request: UpdateAudioRequest, currentUserId: Option<string>)
  {
    && request.id in data.audios
    && data.audios[request.id].userId == currentUserId
    && !(GenreChangeRequested(data.audios[request.id], request.genre) && GetGenre(data.genres, request.genre).None?)
  }
  /** The audio the first revision saves. */
  function ContextEdited(data: Tables, request: UpdateAudioRequest, formatTags: seq<string> -> seq<string>): AudioRow
    requires request.id in data.audios
  {
    Edited(data.audios[request.id], data, request, formatTags)
  }

  /** The audio the second revision saves. */
  function RepositoryUpdated(data: Tables, request: UpdateAudioRequest, formatTags: seq<string> -> seq<string>): AudioRow
    requires request.id in data.audios
  {
    Updated(data.audios[request.id], GetGenre(data.genres, request.genre), data, request, formatTags)
  }


  /** The tables after a save of the audio stored under id: the same audio
    * ids, every other audio, user, genre and favourite unchanged, and the
    * tags table only extended. */
  predicate OnlyAudioChanged(before: Tables, after: Tables, id: int)
  {
    && after == before.(audios := after.audios, tags := after.tags)
    && after.audios.Keys == before.audios.Keys
    && (forall k :: k in before.audios && k != id ==> after.audios[k] == before.audios[k])
    && |before.tags| <= |after.tags| && after.tags[..|before.tags|] == before.tags
  }

  /** The tag loops leave exactly the new tags' ids, each once when the
    * audio's ids were unique; on an audio that has tags they do what
    * Audio.UpdateTags does. */
  lemma HandlerTagsProperties(current: seq<Tag>, newTags: seq<Tag>)
    ensures TagIds(HandlerTags(current, newTags)) == TagIds(newTags)
    ensures UniqueTagIds(current) ==> UniqueTagIds(HandlerTags(current, newTags))
    ensures |current| > 0 ==> HandlerTags(current, newTags) == SyncTags(current, newTags)
  {
    var k := KeepRequested(current, newTags);
    KeepRequestedMembers(current, newTags);
    AddMissingIds(k, newTags);
    assert TagIds(k) <= TagIds(newTags);
    if UniqueTagIds(current) {
      KeepRequestedUnique(current, newTags);
      AddMissingUnique(k, newTags);
    }
  }

  /** The request's tags resolve to tags whose ids are its normalised ids. */
  lemma NewTagsIds(data: Tables, request: UpdateAudioRequest, formatTags: seq<string> -> seq<string>)
    ensures TagIds(NewTags(data, request, formatTags)) == set id | id in formatTags(request.tags)
  {
    MergedTagsIds(data.tags, formatTags(request.tags));
  }

  /** The first revision's edit: a non-blank title replaces the old one;
    * description and flags keep their values when null; the genre changes
    * only to the stored genre a change request names; tags are re-synced
    * to the normalised ids only when the request has some; nothing else
    * changes. */
  lemma EditedFields(row: AudioRow, data: Tables, request: UpdateAudioRequest, formatTags: seq<string> -> seq<string>)
    ensures var r := Edited(row, data, request, formatTags);
            && r.title == (if !IsNullOrWhiteSpace(request.title) then request.title else row.title)
            && r.description == (if request.description.Some? then request.description else row.description)
            && r.isPublic == request.isPublic.GetOr(row.isPublic)
            && r.isLoop == request.isLoop.GetOr(row.isLoop)
            && (if GenreChangeRequested(row, request.genre) && GetGenre(data.genres, request.genre).Some?
                then r.genre == GetGenre(data.genres, request.genre) && r.genreId == Some(r.genre.value.id)
                else r.genre == row.genre && r.genreId == row.genreId)
            && (|request.tags| > 0 ==> TagIds(r.tags) == set id | id in formatTags(request.tags))
            && (|request.tags| > 0 && UniqueTagIds(row.tags) ==> UniqueTagIds(r.tags))
            && (|request.tags| == 0 ==> r.tags == row.tags)
            && r.(title := row.title, description := row.description, isPublic := row.isPublic, isLoop := row.isLoop,
                  genre := row.genre, genreId := row.genreId, tags := row.tags) == row
  {
    var g := GetGenre(data.genres, request.genre);
    var b := Assigned(row, g, request);
    AssignedFields(row, g, request);
    if |request.tags| > 0 {
      var t := NewTags(data, request, formatTags);
      assert Edited(row, data, request, formatTags) == b.(tags := HandlerTags(b.tags, t));
      HandlerTagsProperties(b.tags, t);
      NewTagsIds(data, request, formatTags);
    } else {
      assert Edited(row, data, request, formatTags) == b;
    }
  }

  /** The assignments and the genre step of the first revision. */
  lemma AssignedFields(row: AudioRow, genre: Option<Genre>, request: UpdateAudioRequest)
    ensures var a := Assigned(row, genre, request);
            && a.title == (if !IsNullOrWhiteSpace(request.title) then request.title else row.title)
            && a.description == (if request.description.Some? then request.description else row.description)
            && a.isPublic == request.isPublic.GetOr(row.isPublic)
            && a.isLoop == request.isLoop.GetOr(row.isLoop)
            && (if GenreChangeRequested(row, request.genre) && genre.Some?
                then a.genre == genre && a.genreId == Some(genre.value.id)
                else a.genre == row.genre && a.genreId == row.genreId)
            && a.(title := row.title, description := row.description, isPublic := row.isPublic, isLoop := row.isLoop,
                  genre := row.genre, genreId := row.genreId) == row
  {
  }

  /** The second revision's edit goes through the entity's setters: a null
    * or blank title is assigned and any other title ignored; the loop flag
    * is never changed; genre and tags as in the first revision. */
  lemma UpdatedFields(row: AudioRow, data: Tables, request: UpdateAudioRequest, formatTags: seq<string> -> seq<string>)
    ensures var r := Updated(row, GetGenre(data.genres, request.genre), data, request, formatTags);
            && r.title == (if IsNullOrWhiteSpace(request.title) then request.title else row.title)
            && r.description == (if request.description.Some? then request.description else row.description)
            && r.isPublic == request.isPublic.GetOr(row.isPublic)
            && r.isLoop == row.isLoop
            && (if GenreChangeRequested(row, request.genre) && GetGenre(data.genres, request.genre).Some?
                then r.genre == GetGenre(data.genres, request.genre) && r.genreId == Some(r.genre.value.id)
                else r.genre == row.genre && r.genreId == row.genreId)
            && (|request.tags| > 0 ==> TagIds(r.tags) == set id | id in formatTags(request.tags))
            && (|request.tags| == 0 ==> r.tags == row.tags)
            && r.(title := row.title, description := row.description, isPublic := row.isPublic,
                  genre := row.genre, genreId := row.genreId, tags := row.tags) == row
  {
    var genre := GetGenre(data.genres, request.genre);
    var g := Regenred(row, genre, request);
    var t := Retagged(g, data, request, formatTags);
    if |request.tags| > 0 {
      SyncTagsIds(g.tags, NewTags(data, request, formatTags));
      NewTagsIds(data, request, formatTags);
    }
    assert |request.tags| == 0 ==> t == g;
    assert t.(tags := g.tags) == g;
    SettersFields(t, request);
  }

  /** UpdateTitle, UpdateDescription and UpdatePublicStatus in a row. */
  lemma SettersFields(t: AudioRow, request: UpdateAudioRequest)
    ensures var r := t.UpdateTitle(request.title).UpdateDescription(request.description).UpdatePublicStatus(request.isPublic);
            && r.title == (if IsNullOrWhiteSpace(request.title) then request.title else t.title)
            && r.description == (if request.description.Some? then request.description else t.description)
            && r.isPublic == request.isPublic.GetOr(t.isPublic)
            && r.(title := t.title, description := t.description, isPublic := t.isPublic) == t
  {
  }

  /** The two revisions disagree on the title exactly when the request's
    * title differs from the stored one (each assigns it in the case the
    * other ignores it), and on the loop flag exactly when the request sets
    * it to a new value; they agree on description, visibility and genre. */
  lemma RevisionsDisagree(row: AudioRow, data: Tables, request: UpdateAudioRequest, formatTags: seq<string> -> seq<string>)
    ensures var e := Edited(row, data, request, formatTags);
            var u := Updated(row, GetGenre(data.genres, request.genre), data, request, formatTags);
            && (e.title == u.title <==> request.title == row.title)
            && (e.isLoop == u.isLoop <==> request.isLoop.None? || request.isLoop.value == row.isLoop)
            && e.description == u.description && e.isPublic == u.isPublic
            && e.genre == u.genre && e.genreId == u.genreId
  {
    EditedFields(row, data, request, formatTags);
    UpdatedFields(row, data, request, formatTags);
  }

  /** First revision: a missing audio is NotFound, another owner's audio
    * Forbidden, an unknown genre BadRequest; each refusal leaves the tables
    * as they were and rolls the transaction back. Success needs the checks
    * to pass, the save to succeed with an audio the Audios table accepts
    * (which includes an owner that is a stored user) and the commit to
    * succeed, and then ends with a commit. */
  lemma ContextRefusals(data: Tables, request: UpdateAudioRequest, currentUserId: Option<string>,
                        formatTags: seq<string> -> seq<string>, saveFails: bool, commitFails: bool)
    ensures var s := ContextBody(data, request, currentUserId, formatTags, saveFails, commitFails);
            && (request.id !in data.audios ==> s.outcome.IsFailure(NotFound))
            && (request.id in data.audios && data.audios[request.id].userId != currentUserId ==>
                  s.outcome.IsFailure(Forbidden))
            && (request.id in data.audios && data.audios[request.id].userId == currentUserId && !Permitted(data, request, currentUserId) ==>
                  s.outcome == Returned(Fail(BadRequest, UnknownGenreMessage)))
            && (s.outcome.Returned? && !s.outcome.result.isSuccess <==> !Permitted(data, request, currentUserId))
            && (!Permitted(data, request, currentUserId) ==> s.data == data && s.events == [RolledBack])
            && (s.outcome.Returned? && s.outcome.result.isSuccess <==>
                  && Permitted(data, request, currentUserId) && !saveFails && Storable(data.users, ContextEdited(data, request, formatTags))
                  && !commitFails)
            && (s.outcome.Returned? && s.outcome.result.isSuccess ==> s.events == [Committed])
  {
  }

  /** First revision, atomicity: the tables change only through a commit,
    * and then only in the edited audio and the tags it brings; an exception
    * raised leaves them as they were, since nothing raises after the
    * commit. The save keeps the audio's favourites, so the FavoriteAudios
    * table and the audios' collections stay linked. */
  lemma ContextAtomic(data: Tables, request: UpdateAudioRequest, currentUserId: Option<string>,
                      formatTags: seq<string> -> seq<string>, saveFails: bool, commitFails: bool)
    requires TablesValid(data)
    ensures var s := ContextBody(data, request, currentUserId, formatTags, saveFails, commitFails);
            && (Committed in s.events <==>
                  Permitted(data, request, currentUserId) && !saveFails && Storable(data.users, ContextEdited(data, request, formatTags)) && !commitFails)
            && (Committed !in s.events ==> s.data == data && s.events == [RolledBack])
            && (Committed in s.events ==>
                  && s.events[0] == Committed
                  && OnlyAudioChanged(data, s.data, request.id)
                  && s.data.audios[request.id] == Edited(data.audios[request.id], data, request, formatTags))
            && (FavoritesLinked(data) ==> FavoritesLinked(s.data))
            && (Committed in s.events ==> s.outcome.Returned? && s.outcome.result.isSuccess && s.events == [Committed])
            && (s.outcome.Raised? ==> s.data == data)
  {
    if !Permitted(data, request, currentUserId) {
      ContextRefusals(data, request, currentUserId, formatTags, saveFails, commitFails);
    } else {
      var edited := Edited(data.audios[request.id], data, request, formatTags);
      assert edited.id == request.id;
      assert ContextBody(data, request, currentUserId, formatTags, saveFails, commitFails)
             == ContextSave(data, edited, currentUserId, saveFails, commitFails);
      ContextSaveAtomic(data, edited, currentUserId, saveFails, commitFails);
    }
  }

  /** The save step of the first revision on its own. */
  lemma ContextSaveAtomic(data: Tables, edited: AudioRow, currentUserId: Option<string>, saveFails: bool, commitFails: bool)
    requires edited.id in data.audios
    ensures var s := ContextSave(data, edited, currentUserId, saveFails, commitFails);
            && (Committed in s.events <==> !saveFails && Storable(data.users, edited) && !commitFails)
            && (Committed !in s.events ==> s.data == data && s.events == [RolledBack])
            && (Committed in s.events ==>
                  s.events[0] == Committed && OnlyAudioChanged(data, s.data, edited.id) && s.data.audios[edited.id] == edited)
            && (Committed in s.events ==> s.outcome.Returned? && s.outcome.result.isSuccess && s.events == [Committed])
            && (s.outcome.Raised? ==> s.data == data)
            && (FavoritesLinked(data) && edited.favorited == data.audios[edited.id].favorited ==> FavoritesLinked(s.data))
  {
    var s := ContextSave(data, edited, currentUserId, saveFails, commitFails);
    if !saveFails && Storable(data.users, edited) && !commitFails {
      assert s.data.tags[..|data.tags|] == data.tags;
      SavedAudioKeepsLink(data, edited);
    }
  }

  /** Second revision: the same refusals, with nothing changed and no
    * transaction; success needs the checks to pass, the save to succeed
    * with an audio the Audios table accepts, which includes an owner that
    * is a stored user. */
  lemma RepositoryRefusals(data: Tables, request: UpdateAudioRequest, currentUserId: Option<string>,
                           formatTags: seq<string> -> seq<string>, saveFails: bool)
    ensures var s := RepositorySpec(data, request, currentUserId, formatTags, saveFails);
            && (request.id !in data.audios ==> s.outcome.IsFailure(NotFound))
            && (request.id in data.audios && data.audios[request.id].userId != currentUserId ==>
                  s.outcome.IsFailure(Forbidden))
            && (request.id in data.audios && data.audios[request.id].userId == currentUserId && !Permitted(data, request, currentUserId) ==>
                  s.outcome == Returned(Fail(BadRequest, UnknownGenreMessage)))
            && (s.outcome.Returned? && !s.outcome.result.isSuccess <==> !Permitted(data, request, currentUserId))
            && (!Permitted(data, request, currentUserId) ==> s.data == data)
            && (s.outcome.Returned? && s.outcome.result.isSuccess <==>
                  && Permitted(data, request, currentUserId) && !saveFails && Storable(data.users, RepositoryUpdated(data, request, formatTags)))
            && s.events == []
  {
  }

  /** Second revision: the tables change only in the updated audio and its
    * tags, and only by a call that succeeds: the projection after the save
    * finds the owner the save required. The save
    * keeps the audio's favourites, so the two favourite stores stay
    * linked. */
  lemma RepositoryChanges(data: Tables, request: UpdateAudioRequest, currentUserId: Option<string>,
                          formatTags: seq<string> -> seq<string>, saveFails: bool)
    requires TablesValid(data)
    ensures var s := RepositorySpec(data, request, currentUserId, formatTags, saveFails);
            && (s.data != data ==>
                  Permitted(data, request, currentUserId) && !saveFails && Storable(data.users, RepositoryUpdated(data, request, formatTags)))
            && (Permitted(data, request, currentUserId) && !saveFails && Storable(data.users, RepositoryUpdated(data, request, formatTags)) ==>
                  && OnlyAudioChanged(data, s.data, request.id)
                  && s.data.audios[request.id]
                     == Updated(data.audios[request.id], GetGenre(data.genres, request.genre), data, request, formatTags)
                  && s.outcome.Returned? && s.outcome.result.isSuccess)
            && (s.outcome.Raised? ==> s.data == data)
            && (FavoritesLinked(data) ==> FavoritesLinked(s.data))
  {
    if !Permitted(data, request, currentUserId) {
      RepositoryRefusals(data, request, currentUserId, formatTags, saveFails);
    } else {
      var u := Updated(data.audios[request.id], GetGenre(data.genres, request.genre), data, request, formatTags);
      assert u.id == request.id;
      assert RepositorySpec(data, request, currentUserId, formatTags, saveFails)
             == RepositorySave(data, u, currentUserId, saveFails);
      RepositorySaveChanges(data, u, currentUserId, saveFails);
    }
  }

  /** The save step of the second revision on its own. */
  lemma RepositorySaveChanges(data: Tables, edited: AudioRow, currentUserId: Option<string>, saveFails: bool)
    requires edited.id in data.audios
    ensures var s := RepositorySave(data, edited, currentUserId, saveFails);
            && (saveFails || !Storable(data.users, edited) ==> s.data == data && s.outcome == Raised(DatabaseException))
            && (!saveFails && Storable(data.users, edited) ==>
                  && OnlyAudioChanged(data, s.data, edited.id) && s.data.audios[edited.id] == edited
                  && s.outcome.Returned? && s.outcome.result.isSuccess)
            && (FavoritesLinked(data) && edited.favorited == data.audios[edited.id].favorited ==> FavoritesLinked(s.data))
  {
    var s := RepositorySave(data, edited, currentUserId, saveFails);
    if !saveFails && Storable(data.users, edited) {
      assert s.data.tags[..|data.tags|] == data.tags;
      SavedAudioKeepsLink(data, edited);
    }
  }

  /** The second revision passes the request's title through the inverted
    * guard of UpdateTitle, so a request without a title clears the stored
    * one; the Audios table requires a title, and the save raises. */
  lemma RepositoryWithoutTitleRaises(data: Tables, request: UpdateAudioRequest, currentUserId: Option<string>,
                                     formatTags: seq<string> -> seq<string>, saveFails: bool)
    requires Permitted(data, request, currentUserId) && request.title.None?
    ensures var s := RepositorySpec(data, request, currentUserId, formatTags, saveFails);
            s.outcome == Raised(DatabaseException) && s.data == data
  {
    assert RepositoryUpdated(data, request, formatTags).title.None?;
  }
}
