/** The database context the handlers share (IApplicationDbContext) and the
  * transaction pipeline that wraps every request
  * (Common/Behaviors/DbContextTransactionPipelineBehavior.cs and its
  * synchronous copy Persistence/Pipelines/DbContextTransactionPipelineBehavior.cs).
  * The context's own implementation is not part of this model: a
  * transaction is a snapshot of the tables that a rollback restores, and
  * a failing database call is a parameter of the call. */
module Persistence {
  import opened Wrappers
  import opened Results
  import opened Entities
  import opened Accounts

  /** The tables. Audios are keyed by id; users by id; the FavoriteAudios
    * table is keyed by its (user, audio) pair and holds the Created time;
    * nextId is the identity the next inserted audio receives. */
  datatype Tables = Tables(
    audios: map<int, AudioRow>,
    users: map<string, User>,
    genres: seq<Genre>,
    tags: seq<Tag>,
    favorites: map<FavoriteAudio, int>,
    nextId: int)

  /** Every audio is stored under its own id, below the next identity, and
    * is owned by a stored user; every user is stored under its own id. */
  predicate TablesValid(t: Tables)
  {
    && (forall id :: id in t.audios ==> t.audios[id].id == id && id < t.nextId && OwnerStored(t.users, t.audios[id]))
    && (forall k :: k in t.users ==> t.users[k].id == k)
  }

  /** The audio's owner is a stored user: UserId is a required foreign key
    * to the Users table. */
  predicate OwnerStored(users: map<string, User>, row: AudioRow)
  {
    row.userId.Some? && row.userId.value in users
  }

  /** The tags of an audio that the Tags table does not hold yet, which
    * saving the audio inserts. */
  function Unstored(stored: seq<Tag>, tags: seq<Tag>): (r: seq<Tag>)
    ensures forall t :: t in r <==> t in tags && t !in stored
  {
    if tags == [] then []
    else (if tags[0] in stored then [] else [tags[0]]) + Unstored(stored, tags[1..])
  }

  /** The tables after SaveChanges for a tracked audio: its row replaces the
    * stored one, and its tags the Tags table lacks are inserted. */
  function SavedAudio(data: Tables, row: AudioRow): Tables
  {
    data.(audios := data.audios[row.id := row], tags := data.tags + Unstored(data.tags, row.tags))
  }

  /** The longest title and file extension the Audios table stores. */
  const TitleMaxLength: nat := 100
  const FileExtMaxLength: nat := 10

  /** The column rules of the Audios table's configuration
    * (AudioConfiguration): a title, required and of at most 100
    * characters, and a file extension of at most 10. */
  predicate ColumnsFit(row: AudioRow)
  {
    && row.title.Some? && |row.title.value| <= TitleMaxLength
    && (row.fileExt.Some? ==> |row.fileExt.value| <= FileExtMaxLength)
  }

  /** What the Audios table's configuration demands of a row saved beside
    * the given Users table: the column rules, and an owner that is a stored
    * user (the required User relationship through UserId). SaveChanges
    * raises for any other row. */
  predicate Storable(users: map<string, User>, row: AudioRow)
  {
    ColumnsFit(row) && OwnerStored(users, row)
  }

  /** Every FavoriteAudios row refers to a stored audio: the row's AudioId
    * is a required foreign key to the Audios table. */
  predicate FavoritesReferToAudios(t: Tables)
  {
    forall k :: k in t.favorites ==> k.audioId in t.audios
  }

  /** An audio's Favorited collection is the navigation of the
    * FavoriteAudios table: every table row refers to a stored audio and is
    * in that audio's collection, every favourite in a collection is a table
    * row of that audio, and a collection holds one favourite per user. */
  predicate FavoritesLinked(t: Tables)
  {
    && (forall k :: k in t.favorites ==> k.audioId in t.audios && k in t.audios[k.audioId].favorited)
    && (forall a, k :: a in t.audios && k in t.audios[a].favorited ==> k.audioId == a && k in t.favorites)
    && (forall a :: a in t.audios ==> UniqueFavorites(t.audios[a].favorited))
  }

  /** The tables after FavoriteAudios.Add and SaveChanges: the table row,
    * created now, and the same favourite in the audio's collection. */
  function FavoriteAdded(data: Tables, key: FavoriteAudio, now: int): (r: Tables)
    requires key.audioId in data.audios
    ensures r.favorites == data.favorites[key := now]
    ensures r.audios.Keys == data.audios.Keys
    ensures r.audios[key.audioId] == data.audios[key.audioId].(favorited := r.audios[key.audioId].favorited)
    ensures forall a :: a in r.audios && a != key.audioId ==> r.audios[a] == data.audios[a]
    ensures r.users == data.users && r.genres == data.genres && r.tags == data.tags && r.nextId == data.nextId
  {
    var row := data.audios[key.audioId];
    data.(favorites := data.favorites[key := now],
          audios := data.audios[key.audioId := row.(favorited := AddedFavorite(row.favorited, key.userId, key.audioId))])
  }

  /** The tables after FavoriteAudios.Remove and SaveChanges: the table row
    * goes, and the user's favourite leaves the audio's collection. */
  function FavoriteDropped(data: Tables, key: FavoriteAudio): (r: Tables)
    ensures r.favorites == data.favorites - {key}
    ensures r.audios.Keys == data.audios.Keys
    ensures key.audioId in data.audios ==>
              r.audios[key.audioId] == data.audios[key.audioId].(favorited := r.audios[key.audioId].favorited)
    ensures forall a :: a in r.audios && a != key.audioId ==> r.audios[a] == data.audios[a]
    ensures r.users == data.users && r.genres == data.genres && r.tags == data.tags && r.nextId == data.nextId
  {
    if key.audioId !in data.audios then data.(favorites := data.favorites - {key})
    else
      var row := data.audios[key.audioId];
      data.(favorites := data.favorites - {key},
            audios := data.audios[key.audioId := row.(favorited := RemovedFavorite(row.favorited, key.userId))])
  }

  /** The FavoriteAudios rows after SaveChanges for an audio whose Favorited
    * collection changed: the rows of other audios stay, the audio's rows
    * become those of its collection, a row already stored keeps its
    * creation time and a new one is created now. */
  function FavoritesSynced(data: Tables, row: AudioRow, now: int): (r: map<FavoriteAudio, int>)
    ensures forall k :: k in r <==> (k in data.favorites && k.audioId != row.id) || (k in row.favorited && k.audioId == row.id)
    ensures forall k :: k in r ==> r[k] == if k in data.favorites then data.favorites[k] else now
  {
    var keys := (set k | k in data.favorites && k.audioId != row.id) + (set k | k in row.favorited && k.audioId == row.id);
    map k | k in keys :: if k in data.favorites then data.favorites[k] else now
  }

  /** The tables after SaveChanges for a tracked audio with its Favorited
    * collection: the row is saved and the FavoriteAudios table follows the
    * collection. */
  function FavoritesSaved(data: Tables, row: AudioRow, now: int): Tables
  {
    SavedAudio(data, row).(favorites := FavoritesSynced(data, row, now))
  }

  /** The tables after Audios.Remove and SaveChanges: the audio's row goes,
    * and with it the audio's FavoriteAudios rows, because the relationship
    * through the non-nullable AudioId is required and so cascades on
    * delete. Nothing else changes. */
  function AudioRemoved(data: Tables, id: int): (r: Tables)
    ensures r.audios.Keys == data.audios.Keys - {id}
    ensures forall a :: a in r.audios ==> r.audios[a] == data.audios[a]
    ensures forall k :: k in r.favorites <==> k in data.favorites && k.audioId != id
    ensures forall k :: k in r.favorites ==> r.favorites[k] == data.favorites[k]
    ensures r.users == data.users && r.genres == data.genres && r.tags == data.tags && r.nextId == data.nextId
  {
    data.(audios := data.audios - {id},
          favorites := map k | k in data.favorites && k.audioId != id :: data.favorites[k])
  }

  /** The removal keeps the tables valid and keeps every remaining
    * favourite pointing at a stored audio; without the cascade, a favourite
    * of the removed audio would point at nothing. */
  lemma AudioRemovedKeepsReferences(data: Tables, id: int)
    ensures TablesValid(data) ==> TablesValid(AudioRemoved(data, id))
    ensures FavoritesReferToAudios(data) ==> FavoritesReferToAudios(AudioRemoved(data, id))
    ensures FavoritesLinked(data) ==> FavoritesLinked(AudioRemoved(data, id))
    ensures FavoritesReferToAudios(data.(audios := data.audios - {id})) <==>
              forall k :: k in data.favorites ==> k.audioId != id && k.audioId in data.audios
  {
  }

  /** The tables after Audios.Add and SaveChanges: the row is stored under
    * the next identity, and its tags the Tags table lacks are inserted. */
  function AudioAdded(data: Tables, row: AudioRow): Tables
  {
    data.(audios := data.audios[data.nextId := row.(id := data.nextId)], nextId := data.nextId + 1,
          tags := data.tags + Unstored(data.tags, row.tags))
  }

  /** Adding or removing a favourite keeps the identities valid. */
  lemma FavoriteWritesKeepValid(data: Tables, key: FavoriteAudio, now: int)
    requires TablesValid(data)
    ensures key.audioId in data.audios ==> TablesValid(FavoriteAdded(data, key, now))
    ensures TablesValid(FavoriteDropped(data, key))
  {
  }

  /** Adding a favourite the table lacks keeps the two stores linked; the
    * favourite is then the last of the audio's collection. */
  lemma FavoriteAddedKeepsLink(data: Tables, key: FavoriteAudio, now: int)
    requires key.audioId in data.audios
    ensures FavoritesLinked(data) && key !in data.favorites ==>
              && FavoriteAdded(data, key, now).audios[key.audioId].favorited == data.audios[key.audioId].favorited + [key]
              && FavoritesLinked(FavoriteAdded(data, key, now))
  {
    var r := FavoriteAdded(data, key, now);
    var row := data.audios[key.audioId];
    if FavoritesLinked(data) && key !in data.favorites {
      LinkedWithoutFavorite(data, key);
      assert r.audios[key.audioId].favorited == row.favorited + [key];
      AppendedFavoriteUnique(row.favorited, key);
      forall a | a in r.audios ensures UniqueFavorites(r.audios[a].favorited) {
      }
      forall k | k in r.favorites ensures k.audioId in r.audios && k in r.audios[k.audioId].favorited {
        if k != key {
          assert k in data.favorites;
        }
      }
      forall a, k | a in r.audios && k in r.audios[a].favorited ensures k.audioId == a && k in r.favorites {
        if a != key.audioId {
          assert k in data.audios[a].favorited;
        } else if k != key {
          assert k in row.favorited;
        }
      }
    }
  }

  /** Removing a favourite keeps the two stores linked; the user then has
    * no favourite in the audio's collection. */
  lemma FavoriteDroppedKeepsLink(data: Tables, key: FavoriteAudio)
    ensures FavoritesLinked(data) ==>
              && FavoritesLinked(FavoriteDropped(data, key))
              && (key.audioId in data.audios ==>
                    !HasFavorite(FavoriteDropped(data, key).audios[key.audioId].favorited, key.userId))
  {
    var r := FavoriteDropped(data, key);
    if FavoritesLinked(data) && key.audioId in data.audios {
      var row := data.audios[key.audioId];
      var kept := r.audios[key.audioId].favorited;
      assert kept == RemovedFavorite(row.favorited, key.userId);
      RemovedFavoriteMembers(row.favorited, key.userId);
      RemovedFavoriteUnique(row.favorited, key.userId);
      RemovedFavoriteClears(row.favorited, key.userId);
      forall k | k in r.favorites ensures k.audioId in r.audios && k in r.audios[k.audioId].favorited {
        assert k in data.favorites && k != key;
      }
      forall a, k | a in r.audios && k in r.audios[a].favorited ensures k.audioId == a && k in r.favorites {
        if a == key.audioId {
          assert k in row.favorited && k.userId != key.userId;
        } else {
          assert k in data.audios[a].favorited;
        }
      }
    }
  }

  /** Under the link, a user without a FavoriteAudios row for an audio has
    * no favourite in that audio's collection. */
  lemma LinkedWithoutFavorite(data: Tables, key: FavoriteAudio)
    requires FavoritesLinked(data) && key.audioId in data.audios && key !in data.favorites
    ensures !HasFavorite(data.audios[key.audioId].favorited, key.userId)
  {
    forall f | f in data.audios[key.audioId].favorited ensures f.userId != key.userId {
      assert f.audioId == key.audioId && f in data.favorites;
    }
  }

  /** Removing a favourite just added, for a user who had none on the
    * audio, restores the tables as they were. */
  lemma FavoriteDroppedUndoesAdded(data: Tables, key: FavoriteAudio, now: int)
    requires key.audioId in data.audios && key !in data.favorites
    requires !HasFavorite(data.audios[key.audioId].favorited, key.userId)
    ensures FavoriteDropped(FavoriteAdded(data, key, now), key) == data
  {
    var row := data.audios[key.audioId];
    RemovedFavoriteUndoesAdded(row.favorited, key.userId, key.audioId);
    var r := FavoriteDropped(FavoriteAdded(data, key, now), key);
    assert r.audios[key.audioId] == row;
    forall a | a in data.audios ensures a in r.audios && r.audios[a] == data.audios[a] {
    }
    assert r.audios == data.audios;
    assert r.favorites == data.favorites;
  }

  /** Saving an audio with its collection keeps the identities valid, and
    * keeps the two stores linked when the collection holds favourites of
    * that audio, one per user. */
  lemma FavoritesSavedKeepsLink(data: Tables, row: AudioRow, now: int)
    requires row.id in data.audios
    ensures TablesValid(data) && OwnerStored(data.users, row) ==> TablesValid(FavoritesSaved(data, row, now))
    ensures FavoritesLinked(data) && UniqueFavorites(row.favorited) && (forall k :: k in row.favorited ==> k.audioId == row.id)
            ==> FavoritesLinked(FavoritesSaved(data, row, now))
  {
  }

  /** With the collection unchanged, saving an audio with its collection is
    * saving the row alone: the FavoriteAudios table stays as it is. */
  lemma FavoritesSavedUnchanged(data: Tables, row: AudioRow, now: int)
    requires FavoritesLinked(data) && row.id in data.audios && row.favorited == data.audios[row.id].favorited
    ensures FavoritesSaved(data, row, now) == SavedAudio(data, row)
  {
    var synced := FavoritesSynced(data, row, now);
    assert forall k :: k in synced <==> k in data.favorites;
    assert synced == data.favorites;
  }

  /** Saving an audio whose collection is unchanged keeps the identities
    * valid and the two stores linked. */
  lemma SavedAudioKeepsLink(data: Tables, row: AudioRow)
    requires row.id in data.audios
    ensures TablesValid(data) && OwnerStored(data.users, row) ==> TablesValid(SavedAudio(data, row))
    ensures FavoritesLinked(data) && row.favorited == data.audios[row.id].favorited ==> FavoritesLinked(SavedAudio(data, row))
  {
  }

  /** Adding an audio without favourites keeps the identities valid and,
    * since no favourite refers to the fresh identity, the two stores
    * linked. */
  lemma AudioAddedKeepsLink(data: Tables, row: AudioRow)
    ensures TablesValid(data) ==> data.nextId !in data.audios
    ensures TablesValid(data) && OwnerStored(data.users, row) ==> TablesValid(AudioAdded(data, row))
    ensures TablesValid(data) && FavoritesLinked(data) && row.favorited == [] ==> FavoritesLinked(AudioAdded(data, row))
  {
  }

  /** Users.SingleOrDefault(u => u.Id == id): no user for a null id. */
  function FindUser(users: map<string, User>, id: Option<string>): (r: Option<User>)
    ensures r.Some? <==> id.Some? && id.value in users
    ensures r.Some? ==> r.value == users[id.value]
  {
    if id.Some? && id.value in users then Some(users[id.value]) else None
  }

  /** What the context records of the transaction calls made on it. */
  datatype TxEvent = Begun | HandlerRan | Committed | RolledBack

  class Database {
    var data: Tables
    /** The tables as they were when the open transaction began. */
    var snapshot: Option<Tables>
    var events: seq<TxEvent>

    predicate Valid()
      reads this
    {
      TablesValid(data) && (snapshot.Some? ==> TablesValid(snapshot.value))
    }

    constructor (initial: Tables)
      requires TablesValid(initial)
      ensures data == initial && snapshot == None && events == [] && Valid()
    {
      data := initial;
      snapshot := None;
      events := [];
    }

    /** BeginTransaction: remembers the tables; a failure opens nothing. */
    method BeginTransaction(failure: bool) returns (r: Result<(), Exception>)
      requires Valid()
      modifies this
      ensures Valid() && data == old(data)
      ensures failure ==> r == Err(DatabaseException) && snapshot == old(snapshot) && events == old(events)
      ensures !failure ==> r.Ok? && snapshot == Some(old(data)) && events == old(events) + [Begun]
    {
      if failure {
        return Err(DatabaseException);
      }
      snapshot := Some(data);
      events := events + [Begun];
      r := Ok(());
    }

    /** CommitTransaction: makes the changes permanent; a failure leaves the
      * transaction open. */
    method CommitTransaction(failure: bool) returns (r: Result<(), Exception>)
      requires Valid()
      modifies this
      ensures Valid() && data == old(data)
      ensures failure ==> r == Err(DatabaseException) && snapshot == old(snapshot) && events == old(events)
      ensures !failure ==> r.Ok? && snapshot == None && events == old(events) + [Committed]
    {
      if failure {
        return Err(DatabaseException);
      }
      snapshot := None;
      events := events + [Committed];
      r := Ok(());
    }

    /** RollbackTransaction: restores the tables of the open transaction;
      * with none open the tables stay as they are. */
    method RollbackTransaction()
      requires Valid()
      modifies this
      ensures Valid() && snapshot == None && events == old(events) + [RolledBack]
      ensures data == if old(snapshot).Some? then old(snapshot).value else old(data)
    {
      if snapshot.Some? {
        data := snapshot.value;
      }
      snapshot := None;
      events := events + [RolledBack];
    }

    /** SaveChanges for a tracked audio; a row the Audios table's
      * configuration refuses raises like a failing call. */
    method SaveAudio(row: AudioRow, failure: bool) returns (r: Result<(), Exception>)
      requires Valid() && row.id in data.audios
      modifies this
      ensures Valid() && snapshot == old(snapshot) && events == old(events)
      ensures failure || !Storable(old(data).users, row) ==> r == Err(DatabaseException) && data == old(data)
      ensures !failure && Storable(old(data).users, row) ==> r.Ok? && data == SavedAudio(old(data), row)
    {
      if failure || !Storable(data.users, row) {
        return Err(DatabaseException);
      }
      data := data.(audios := data.audios[row.id := row], tags := data.tags + Unstored(data.tags, row.tags));
      r := Ok(());
    }

    /** SaveChanges for a tracked audio whose Favorited collection changed:
      * the FavoriteAudios table follows the collection, and the rows it
      * inserts are created now. */
    method SaveAudioWithFavorites(row: AudioRow, now: int, failure: bool) returns (r: Result<(), Exception>)
      requires Valid() && row.id in data.audios
      modifies this
      ensures Valid() && snapshot == old(snapshot) && events == old(events)
      ensures failure || !Storable(old(data).users, row) ==> r == Err(DatabaseException) && data == old(data)
      ensures !failure && Storable(old(data).users, row) ==> r.Ok? && data == FavoritesSaved(old(data), row, now)
    {
      if failure || !Storable(data.users, row) {
        return Err(DatabaseException);
      }
      FavoritesSavedKeepsLink(data, row, now);
      data := FavoritesSaved(data, row, now);
      r := Ok(());
    }

    /** Audios.Add then SaveChanges: the row is stored under the next
      * identity, and its tags the Tags table lacks are inserted with it; a
      * row the configuration refuses raises like a failing call. */
    method AddAudio(row: AudioRow, failure: bool) returns (r: Result<AudioRow, Exception>)
      requires Valid()
      modifies this
      ensures Valid() && snapshot == old(snapshot) && events == old(events)
      ensures failure || !Storable(old(data).users, row) ==> r == Err(DatabaseException) && data == old(data)
      ensures !failure && Storable(old(data).users, row) ==>
                && r == Ok(row.(id := old(data).nextId))
                && old(data).nextId !in old(data).audios
                && data == old(data).(audios := old(data).audios[old(data).nextId := r.value], nextId := old(data).nextId + 1,
                                      tags := old(data).tags + Unstored(old(data).tags, row.tags))
    {
      if failure || !Storable(data.users, row) {
        return Err(DatabaseException);
      }
      var stored := row.(id := data.nextId);
      data := data.(audios := data.audios[stored.id := stored], nextId := data.nextId + 1,
                    tags := data.tags + Unstored(data.tags, row.tags));
      r := Ok(stored);
    }

    /** Audios.Remove then SaveChanges, which cascades to the audio's
      * favourites. */
    method RemoveAudio(id: int, failure: bool) returns (r: Result<(), Exception>)
      requires Valid()
      modifies this
      ensures Valid() && snapshot == old(snapshot) && events == old(events)
      ensures failure ==> r == Err(DatabaseException) && data == old(data)
      ensures !failure ==> r.Ok? && data == AudioRemoved(old(data), id)
    {
      if failure {
        return Err(DatabaseException);
      }
      AudioRemovedKeepsReferences(data, id);
      data := AudioRemoved(data, id);
      r := Ok(());
    }

    /** SaveChanges (or the user manager's UpdateAsync) for a tracked user. */
    method SaveUser(user: User, failure: bool) returns (r: Result<(), Exception>)
      requires Valid()
      modifies this
      ensures Valid() && snapshot == old(snapshot) && events == old(events)
      ensures failure ==> r == Err(DatabaseException) && data == old(data)
      ensures !failure ==> r.Ok? && data == old(data).(users := old(data).users[user.id := user])
    {
      if failure {
        return Err(DatabaseException);
      }
      data := data.(users := data.users[user.id := user]);
      r := Ok(());
    }

    /** FavoriteAudios.Add then SaveChanges; the row is created now and is
      * the audio's favourite from then on. The AudioId is a required foreign
      * key: a favourite of no stored audio raises. */
    method AddFavoriteRow(key: FavoriteAudio, now: int, failure: bool) returns (r: Result<(), Exception>)
      requires Valid()
      modifies this
      ensures Valid() && snapshot == old(snapshot) && events == old(events)
      ensures failure || key.audioId !in old(data).audios ==> r == Err(DatabaseException) && data == old(data)
      ensures !failure && key.audioId in old(data).audios ==> r.Ok? && data == FavoriteAdded(old(data), key, now)
    {
      if failure || key.audioId !in data.audios {
        return Err(DatabaseException);
      }
      FavoriteWritesKeepValid(data, key, now);
      data := FavoriteAdded(data, key, now);
      r := Ok(());
    }

    /** FavoriteAudios.Remove then SaveChanges; the favourite leaves the
      * audio's collection with its row. */
    method RemoveFavoriteRow(key: FavoriteAudio, failure: bool) returns (r: Result<(), Exception>)
      requires Valid()
      modifies this
      ensures Valid() && snapshot == old(snapshot) && events == old(events)
      ensures failure ==> r == Err(DatabaseException) && data == old(data)
      ensures !failure ==> r.Ok? && data == FavoriteDropped(old(data), key)
    {
      if failure {
        return Err(DatabaseException);
      }
      FavoriteWritesKeepValid(data, key, 0);
      data := FavoriteDropped(data, key);
      r := Ok(());
    }
  }

  // -----------------------------------------------------------------------
  // The transaction pipeline
  // -----------------------------------------------------------------------

  /** The calls the pipeline makes, in order, given which of them fail and
    * how the inner handler ends. */
  function PipelineEvents(beginFails: bool, handlerFails: bool, commitFails: bool): (e: seq<TxEvent>)
    ensures |e| >= 1 && (e[|e| - 1] == Committed || e[|e| - 1] == RolledBack)
    ensures Committed in e <==> !beginFails && !handlerFails && !commitFails
    ensures RolledBack in e <==> !(Committed in e)
    ensures HandlerRan in e <==> !beginFails
    ensures HandlerRan in e ==> e[0] == Begun && e[1] == HandlerRan
  {
    if beginFails then [RolledBack]
    else if handlerFails || commitFails then [Begun, HandlerRan, RolledBack]
    else [Begun, HandlerRan, Committed]
  }

  /** DbContextTransactionPipelineBehavior.Handle. The inner handler is given
    * by how it ends (its value or its exception) and by the tables it
    * leaves; it runs only once the transaction has begun. */
  method HandleInTransaction<T>(db: Database, beginFails: bool,
                                next: Result<T, Exception>, nextData: Tables, commitFails: bool)
    returns (r: Result<T, Exception>)
    requires db.Valid() && TablesValid(nextData)
    modifies db
    ensures db.Valid() && db.snapshot == None
    ensures db.events == old(db.events) + PipelineEvents(beginFails, next.Err?, commitFails)
    ensures beginFails ==> r == Err(DatabaseException)
                           && db.data == (if old(db.snapshot).Some? then old(db.snapshot).value else old(db.data))
    ensures !beginFails && next.Err? ==> r == next && db.data == old(db.data)
    ensures !beginFails && next.Ok? && commitFails ==> r == Err(DatabaseException) && db.data == old(db.data)
    ensures !beginFails && next.Ok? && !commitFails ==> r == next && db.data == nextData
  {
    var begun := db.BeginTransaction(beginFails);
    if begun.Err? {
      db.RollbackTransaction();
      return Err(begun.error);
    }
    // result = await next();
    db.data := nextData;
    db.events := db.events + [HandlerRan];
    if next.Err? {
      db.RollbackTransaction();
      return next;
    }
    var committed := db.CommitTransaction(commitFails);
    if committed.Err? {
      db.RollbackTransaction();
      return Err(committed.error);
    }
    r := next;
  }

  /** A request through the pipeline is all or nothing: it returns a value
    * and the handler's tables after exactly one commit, or an exception and
    * the tables as they were after exactly one rollback; the handler never
    * runs before the transaction begins. */
  lemma PipelineAtomic(beginFails: bool, handlerFails: bool, commitFails: bool)
    ensures var e := PipelineEvents(beginFails, handlerFails, commitFails);
            && (Committed in e <==> RolledBack !in e)
            && multiset(e)[Committed] + multiset(e)[RolledBack] == 1
            && (forall i :: 0 <= i < |e| && e[i] == HandlerRan ==> i > 0 && e[i - 1] == Begun)
  {
  }
}
