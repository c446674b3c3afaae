/** Favourites. FavoriteService (Features/Favorites/FavoriteService.cs)
  * keeps them in the FavoriteAudios table, keyed by the (user, audio) pair
  * and stamped with the time the row was created; SetFavoriteCommandHandler
  * (Features/Favorites/Audios/SetFavorite/SetFavoriteCommand.cs) keeps them
  * in the audio's own Favorited collection and goes through the entity's
  * AddFavorite and RemoveFavorite. The clock reading and the failure of
  * the save are parameters. */
module Favorites {
  import opened Wrappers
  import opened Text
  import opened Results
  import opened Entities
  import opened Accounts
  import opened Persistence

  /** The message of both "audio not found" refusals. */
  const AudioNotFoundMessage: string := "The audio you are trying to favorite was not found."

  // -----------------------------------------------------------------------
  // FavoriteService: the FavoriteAudios table
  // -----------------------------------------------------------------------

  /** CheckIfUserFavorited: a row exists for the pair. */
  predicate CheckIfUserFavorited(data: Tables, userId: string, audioId: int)
  {
    FavoriteAudio(userId, audioId) in data.favorites
  }

  /** FavoriteAudio: the result and the tables it leaves. */
  function FavoriteSpec(data: Tables, userId: string, audioId: int, now: int, saveFails: bool): (Outcome<()>, Tables)
  {
    if userId !in data.users then (Returned(Fail(Unauthorized)), data)
    else if audioId !in data.audios then (Returned(Fail(BadRequest, AudioNotFoundMessage)), data)
    else if data.audios[audioId].userId == Some(userId) then (Returned(Fail(Forbidden)), data)
    else if CheckIfUserFavorited(data, userId, audioId) then (Returned(Success(())), data)
    else if saveFails then (Raised(DatabaseException), data)
    else (Returned(Success(())), FavoriteAdded(data, FavoriteAudio(userId, audioId), now))
  }

  /** UnfavoriteAudio: the result and the tables it leaves. */
  function UnfavoriteSpec(data: Tables, userId: string, audioId: int, saveFails: bool): (Outcome<()>, Tables)
  {
    if userId !in data.users then (Returned(Fail(Unauthorized)), data)
    else if audioId !in data.audios then (Returned(Fail(NotFound, AudioNotFoundMessage)), data)
    else if !CheckIfUserFavorited(data, userId, audioId) then (Returned(Success(())), data)
    else if saveFails then (Raised(DatabaseException), data)
    else (Returned(Success(())), FavoriteDropped(data, FavoriteAudio(userId, audioId)))
  }

  /** FavoriteService.FavoriteAudio */
  method Favorite(db: Database, userId: string, audioId: int, now: int, saveFails: bool) returns (o: Outcome<()>)
    requires db.Valid()
    modifies db
    ensures db.Valid() && db.snapshot == old(db.snapshot) && db.events == old(db.events)
    ensures (o, db.data) == FavoriteSpec(old(db.data), userId, audioId, now, saveFails)
  {
    if userId !in db.data.users {
      return Returned(Fail(Unauthorized));
    }
    if audioId !in db.data.audios {
      return Returned(Fail(BadRequest, AudioNotFoundMessage));
    }
    if db.data.audios[audioId].userId == Some(userId) {
      return Returned(Fail(Forbidden));
    }
    var key := FavoriteAudio(userId, audioId);
    if key !in db.data.favorites {
      var saved := db.AddFavoriteRow(key, now, saveFails);
      if saved.Err? {
        return Raised(saved.error);
      }
    }
    o := Returned(Success(()));
  }

  /** FavoriteService.UnfavoriteAudio */
  method Unfavorite(db: Database, userId: string, audioId: int, saveFails: bool) returns (o: Outcome<()>)
    requires db.Valid()
    modifies db
    ensures db.Valid() && db.snapshot == old(db.snapshot) && db.events == old(db.events)
    ensures (o, db.data) == UnfavoriteSpec(old(db.data), userId, audioId, saveFails)
  {
    if userId !in db.data.users {
      return Returned(Fail(Unauthorized));
    }
    if audioId !in db.data.audios {
      return Returned(Fail(NotFound, AudioNotFoundMessage));
    }
    var key := FavoriteAudio(userId, audioId);
    if key in db.data.favorites {
      var saved := db.RemoveFavoriteRow(key, saveFails);
      if saved.Err? {
        return Raised(saved.error);
      }
    }
    o := Returned(Success(()));
  }

  /** The refusals of FavoriteAudio, in order: an unknown caller, a missing
    * audio (BadRequest), the caller's own audio; none changes a table. */
  lemma FavoriteRefusals(data: Tables, userId: string, audioId: int, now: int, saveFails: bool)
    ensures var outcome := FavoriteSpec(data, userId, audioId, now, saveFails);
            var o, after := outcome.0, outcome.1;
            && (o.IsFailure(Unauthorized) <==> userId !in data.users)
            && (o.IsFailure(BadRequest) <==> userId in data.users && audioId !in data.audios)
            && (o.IsFailure(Forbidden) <==>
                  userId in data.users && audioId in data.audios && data.audios[audioId].userId == Some(userId))
            && (o.Returned? && !o.result.isSuccess ==> after == data)
  {
    var o := FavoriteSpec(data, userId, audioId, now, saveFails).0;
    if userId !in data.users {
      assert o == Returned(Fail(Unauthorized));
    } else if audioId !in data.audios {
      assert o == Returned(Fail(BadRequest, AudioNotFoundMessage));
    } else if data.audios[audioId].userId == Some(userId) {
      assert o == Returned(Fail(Forbidden));
    } else {
      assert o.Raised? || o == Returned(Success(()));
    }
  }

  /** FavoriteAudio succeeds exactly when the checks pass and the pair is
    * already favourited or the save goes through. Afterwards the pair is
    * favourited, an existing row keeps its creation time, no other
    * favourite row changes, and only the audio's Favorited collection
    * changes besides. */
  lemma FavoriteSucceeds(data: Tables, userId: string, audioId: int, now: int, saveFails: bool)
    ensures var outcome := FavoriteSpec(data, userId, audioId, now, saveFails);
            var o, after := outcome.0, outcome.1;
            var key := FavoriteAudio(userId, audioId);
            && (o == Returned(Success(())) <==>
                  userId in data.users && audioId in data.audios && data.audios[audioId].userId != Some(userId)
                  && (key in data.favorites || !saveFails))
            && (o == Returned(Success(())) ==>
                  && CheckIfUserFavorited(after, userId, audioId)
                  && (key in data.favorites ==> after == data)
                  && (key !in data.favorites ==> after.favorites[key] == now)
                  && (forall k :: k != key ==> (k in after.favorites <==> k in data.favorites))
                  && (forall k :: k != key && k in data.favorites ==> after.favorites[k] == data.favorites[k])
                  && after.users == data.users && after.genres == data.genres && after.tags == data.tags
                  && after.nextId == data.nextId && after.audios.Keys == data.audios.Keys
                  && (forall a :: a in after.audios && a != audioId ==> after.audios[a] == data.audios[a])
                  && after.audios[audioId] == data.audios[audioId].(favorited := after.audios[audioId].favorited))
  {
  }

  /** With the two stores linked, a successful FavoriteAudio keeps them
    * linked: the caller is then among the audio's favourites, which grow by
    * one when the pair is new, and no other user's favourite changes. */
  lemma FavoriteKeepsLink(data: Tables, userId: string, audioId: int, now: int, saveFails: bool)
    requires FavoritesLinked(data)
    requires FavoriteSpec(data, userId, audioId, now, saveFails).0 == Returned(Success(()))
    ensures var after := FavoriteSpec(data, userId, audioId, now, saveFails).1;
            var before, current := data.audios[audioId].favorited, after.audios[audioId].favorited;
            && FavoritesLinked(after)
            && HasFavorite(current, userId)
            && |current| == |before| + (if CheckIfUserFavorited(data, userId, audioId) then 0 else 1)
            && (forall v :: v != userId ==> HasFavorite(current, v) == HasFavorite(before, v))
  {
    var key := FavoriteAudio(userId, audioId);
    var row := data.audios[audioId];
    if key in data.favorites {
      assert key in row.favorited;
    } else {
      FavoriteAddedKeepsLink(data, key, now);
      LinkedWithoutFavorite(data, key);
      AddedFavoriteProperties(row.favorited, userId, audioId);
    }
  }

  /** Favouriting twice is favouriting once: the second call succeeds and
    * changes nothing, whatever its clock reading or save failure. */
  lemma FavoriteIdempotent(data: Tables, userId: string, audioId: int, now: int, saveFails: bool,
                           later: int, laterFails: bool)
    requires FavoriteSpec(data, userId, audioId, now, saveFails).0 == Returned(Success(()))
    ensures var after := FavoriteSpec(data, userId, audioId, now, saveFails).1;
            FavoriteSpec(after, userId, audioId, later, laterFails) == (Returned(Success(())), after)
  {
    FavoriteSucceeds(data, userId, audioId, now, saveFails);
  }

  /** The refusals of UnfavoriteAudio: an unknown caller, a missing audio
    * (NotFound); the owner may unfavourite. None changes a table. */
  lemma UnfavoriteRefusals(data: Tables, userId: string, audioId: int, saveFails: bool)
    ensures var outcome := UnfavoriteSpec(data, userId, audioId, saveFails);
            var o, after := outcome.0, outcome.1;
            && (o.IsFailure(Unauthorized) <==> userId !in data.users)
            && (o.IsFailure(NotFound) <==> userId in data.users && audioId !in data.audios)
            && !o.IsFailure(Forbidden)
            && (o.Returned? && !o.result.isSuccess ==> after == data)
  {
  }

  /** UnfavoriteAudio succeeds whether or not the pair was favourited;
    * afterwards it is not, no other favourite row changes, and only the
    * audio's Favorited collection changes besides. */
  lemma UnfavoriteSucceeds(data: Tables, userId: string, audioId: int, saveFails: bool)
    ensures var outcome := UnfavoriteSpec(data, userId, audioId, saveFails);
            var o, after := outcome.0, outcome.1;
            var key := FavoriteAudio(userId, audioId);
            && (o == Returned(Success(())) <==>
                  userId in data.users && audioId in data.audios && (key !in data.favorites || !saveFails))
            && (o == Returned(Success(())) ==>
                  && !CheckIfUserFavorited(after, userId, audioId)
                  && (key !in data.favorites ==> after == data)
                  && (forall k :: k != key ==> (k in after.favorites <==> k in data.favorites))
                  && (forall k :: k != key && k in data.favorites ==> after.favorites[k] == data.favorites[k])
                  && after.users == data.users && after.genres == data.genres && after.tags == data.tags
                  && after.nextId == data.nextId && after.audios.Keys == data.audios.Keys
                  && (forall a :: a in after.audios && a != audioId ==> after.audios[a] == data.audios[a])
                  && after.audios[audioId] == data.audios[audioId].(favorited := after.audios[audioId].favorited))
  {
  }

  /** With the two stores linked, a successful UnfavoriteAudio keeps them
    * linked: the caller is then not among the audio's favourites, which
    * shrink by one when the pair was favourited, and no other user's
    * favourite changes. */
  lemma UnfavoriteKeepsLink(data: Tables, userId: string, audioId: int, saveFails: bool)
    requires FavoritesLinked(data)
    requires UnfavoriteSpec(data, userId, audioId, saveFails).0 == Returned(Success(()))
    ensures var after := UnfavoriteSpec(data, userId, audioId, saveFails).1;
            var before, current := data.audios[audioId].favorited, after.audios[audioId].favorited;
            && FavoritesLinked(after)
            && !HasFavorite(current, userId)
            && |current| == |before| - (if CheckIfUserFavorited(data, userId, audioId) then 1 else 0)
            && (forall v :: v != userId ==> HasFavorite(current, v) == HasFavorite(before, v))
  {
    var key := FavoriteAudio(userId, audioId);
    var row := data.audios[audioId];
    if key in data.favorites {
      FavoriteDroppedKeepsLink(data, key);
      assert key in row.favorited;
      var i := FirstFavorite(row.favorited, userId).value;
      DropAt(row.favorited, i);
      forall v | v != userId
        ensures HasFavorite(RemovedFavorite(row.favorited, userId), v) == HasFavorite(row.favorited, v)
      {
        RemovedFavoriteKeepsOthers(row.favorited, userId, v);
      }
    } else {
      LinkedWithoutFavorite(data, key);
    }
  }

  /** Unfavouriting a pair that FavoriteAudio has just added restores the
    * FavoriteAudios table as it was, and, with the two stores linked, every
    * table. */
  lemma UnfavoriteUndoesFavorite(data: Tables, userId: string, audioId: int, now: int, saveFails: bool)
    requires !CheckIfUserFavorited(data, userId, audioId)
    requires FavoriteSpec(data, userId, audioId, now, saveFails).0 == Returned(Success(()))
    ensures var after := FavoriteSpec(data, userId, audioId, now, saveFails).1;
            var undone := UnfavoriteSpec(after, userId, audioId, false);
            && undone.0 == Returned(Success(()))
            && undone.1.favorites == data.favorites
            && (FavoritesLinked(data) ==> undone.1 == data)
  {
    var key := FavoriteAudio(userId, audioId);
    var after := FavoriteSpec(data, userId, audioId, now, saveFails).1;
    assert after.favorites == data.favorites[key := now];
    assert data.favorites[key := now] - {key} == data.favorites;
    if FavoritesLinked(data) {
      LinkedWithoutFavorite(data, key);
      FavoriteDroppedUndoesAdded(data, key, now);
    }
  }

  // -----------------------------------------------------------------------
  // FavoriteService.GetUserFavorites
  // -----------------------------------------------------------------------

  /** A favourite with its creation time and its audio. */
  datatype FavoriteEntry = FavoriteEntry(favorite: FavoriteAudio, created: int, audio: AudioRow)

  /** The favourites whose user is named username.ToLower(), joined with
    * their user and their audio. */
  function FavoritesOfUser(data: Tables, username: string): (s: set<FavoriteAudio>)
    ensures forall k :: k in s ==> k in data.favorites && k.audioId in data.audios
  {
    set k | k in data.favorites && k.userId in data.users
            && data.users[k.userId].userName == ToLower(username) && k.audioId in data.audios
  }

  /** k is one of the most recent favourites of s. */
  predicate NewestAmong(data: Tables, s: set<FavoriteAudio>, k: FavoriteAudio)
    requires forall j :: j in s ==> j in data.favorites
  {
    k in s && forall j :: j in s ==> data.favorites[j] <= data.favorites[k]
  }

  /** A non-empty set of favourites has a most recent one. */
  lemma {:induction false} NewestExists(data: Tables, s: set<FavoriteAudio>)
    requires s != {} && forall j :: j in s ==> j in data.favorites
    ensures exists k :: NewestAmong(data, s, k)
    decreases |s|
  {
    var x :| x in s;
    if s == {x} {
      assert NewestAmong(data, s, x);
    } else {
      var rest := s - {x};
      NewestExists(data, rest);
      var k :| NewestAmong(data, rest, k);
      if data.favorites[x] > data.favorites[k] {
        assert NewestAmong(data, s, x);
      } else {
        assert NewestAmong(data, s, k);
      }
    }
  }

  /** OrderByDescending(fa => fa.Created) over the favourites s; which of
    * two equally recent favourites comes first is left open. */
  ghost function NewestFirst(data: Tables, s: set<FavoriteAudio>): seq<FavoriteEntry>
    requires forall k :: k in s ==> k in data.favorites && k.audioId in data.audios
    decreases |s|
  {
    if s == {} then []
    else
      NewestExists(data, s);
      var k :| NewestAmong(data, s, k);
      [FavoriteEntry(k, data.favorites[k], data.audios[k.audioId])] + NewestFirst(data, s - {k})
  }

  /** The first entry of the ordering is a most recent favourite of s, and
    * the rest orders the others. */
  lemma NewestFirstUnfolds(data: Tables, s: set<FavoriteAudio>)
    requires s != {} && forall k :: k in s ==> k in data.favorites && k.audioId in data.audios
    ensures var r := NewestFirst(data, s);
            var k := r[0].favorite;
            && NewestAmong(data, s, k)
            && r[0] == FavoriteEntry(k, data.favorites[k], data.audios[k.audioId])
            && r[1..] == NewestFirst(data, s - {k})
  {
  }

  /** Each entry is a favourite of s with its own creation time and audio,
    * and there is one entry per favourite. */
  lemma {:induction false} NewestFirstEntries(data: Tables, s: set<FavoriteAudio>)
    requires forall k :: k in s ==> k in data.favorites && k.audioId in data.audios
    ensures var r := NewestFirst(data, s);
            && |r| == |s|
            && forall i :: 0 <= i < |r| ==>
                 r[i].favorite in s && r[i].created == data.favorites[r[i].favorite]
                 && r[i].audio == data.audios[r[i].favorite.audioId]
    decreases |s|
  {
    if s != {} {
      NewestFirstUnfolds(data, s);
      var r := NewestFirst(data, s);
      NewestFirstEntries(data, s - {r[0].favorite});
      forall i | 1 <= i < |r| ensures r[i] == r[1..][i - 1] {
      }
    }
  }

  /** Every favourite of s has an entry. */
  lemma {:induction false} NewestFirstCovers(data: Tables, s: set<FavoriteAudio>)
    requires forall k :: k in s ==> k in data.favorites && k.audioId in data.audios
    ensures var r := NewestFirst(data, s);
            forall k :: k in s ==> exists i :: 0 <= i < |r| && r[i].favorite == k
    decreases |s|
  {
    if s != {} {
      NewestFirstUnfolds(data, s);
      var r := NewestFirst(data, s);
      var rest := r[1..];
      NewestFirstCovers(data, s - {r[0].favorite});
      forall k | k in s ensures exists i :: 0 <= i < |r| && r[i].favorite == k {
        if k != r[0].favorite {
          assert k in s - {r[0].favorite};
          var i :| 0 <= i < |rest| && rest[i].favorite == k;
          assert r[i + 1].favorite == k;
        }
      }
    }
  }

  /** No favourite has two entries, and the entries run from the most
    * recent to the oldest. */
  lemma {:induction false} NewestFirstOrdered(data: Tables, s: set<FavoriteAudio>)
    requires forall k :: k in s ==> k in data.favorites && k.audioId in data.audios
    ensures var r := NewestFirst(data, s);
            forall i, j :: 0 <= i < j < |r| ==> r[i].favorite != r[j].favorite && r[i].created >= r[j].created
    decreases |s|
  {
    if s != {} {
      NewestFirstUnfolds(data, s);
      var r := NewestFirst(data, s);
      var rest := r[1..];
      NewestFirstEntries(data, s - {r[0].favorite});
      NewestFirstOrdered(data, s - {r[0].favorite});
      forall i, j | 0 <= i < j < |r| ensures r[i].favorite != r[j].favorite && r[i].created >= r[j].created {
        assert r[j] == rest[j - 1];
        if i > 0 {
          assert r[i] == rest[i - 1];
        }
      }
    }
  }

  /** GetUserFavorites: the user's favourites, most recent first. */
  ghost function UserFavoriteEntries(data: Tables, username: string): seq<FavoriteEntry>
  {
    NewestFirst(data, FavoritesOfUser(data, username))
  }

  /** GetUserFavorites before the projection: the favourited audios. */
  ghost function GetUserFavorites(data: Tables, username: string): (r: seq<AudioRow>)
    ensures |r| == |UserFavoriteEntries(data, username)|
    ensures forall i :: 0 <= i < |r| ==> r[i] == UserFavoriteEntries(data, username)[i].audio
  {
    var e := UserFavoriteEntries(data, username);
    seq(|e|, i requires 0 <= i < |e| => e[i].audio)
  }

  /** The listed audios are those of the favourites of the user named
    * username.ToLower(), each favourite once, most recent favourite first. */
  lemma UserFavoritesNewestFirst(data: Tables, username: string)
    ensures var e := UserFavoriteEntries(data, username);
            var r := GetUserFavorites(data, username);
            && |r| == |e|
            && (forall i :: 0 <= i < |e| ==>
                  var k := e[i].favorite;
                  && k in data.favorites && k.userId in data.users
                  && data.users[k.userId].userName == ToLower(username)
                  && k.audioId in data.audios && r[i] == data.audios[k.audioId]
                  && e[i].created == data.favorites[k])
            && (forall k :: k in data.favorites && k.userId in data.users
                            && data.users[k.userId].userName == ToLower(username) && k.audioId in data.audios
                            ==> exists i :: 0 <= i < |e| && e[i].favorite == k)
            && (forall i, j :: 0 <= i < j < |e| ==> e[i].favorite != e[j].favorite && e[i].created >= e[j].created)
  {
    var s := FavoritesOfUser(data, username);
    NewestFirstEntries(data, s);
    NewestFirstCovers(data, s);
    NewestFirstOrdered(data, s);
  }

  // -----------------------------------------------------------------------
  // SetFavoriteCommandHandler: the audio's Favorited collection
  // -----------------------------------------------------------------------

  /** IsFavoriting ? audio.AddFavorite(user) : audio.RemoveFavorite(user) */
  function Toggled(row: AudioRow, userId: string, isFavoriting: bool): Result<(AudioRow, bool), Exception>
  {
    if isFavoriting then row.AddFavorite(userId) else row.RemoveFavorite(userId)
  }

  /** SetFavoriteCommandHandler.Handle: the result and the tables it
    * leaves. The repository's save writes the audio with its Favorited
    * collection, and the FavoriteAudios rows it inserts are created now. */
  function SetFavoriteSpec(data: Tables, userId: string, audioId: int, isFavoriting: bool, now: int, saveFails: bool)
    : (Outcome<bool>, Tables)
  {
    if userId !in data.users then (Returned(Fail(Unauthorized)), data)
    else if audioId !in data.audios then (Returned(Fail(NotFound)), data)
    else if data.audios[audioId].CanModify(userId) then (Returned(Fail(Forbidden)), data)
    else
      match Toggled(data.audios[audioId], userId, isFavoriting)
      case Err(e) => (Raised(e), data)
      case Ok((row, favorited)) =>
        if saveFails || !Storable(data.users, row) then (Raised(DatabaseException), data)
        else (Returned(Success(favorited)), FavoritesSaved(data, row, now))
  }

  /** SetFavoriteCommandHandler.Handle */
  method SetFavorite(db: Database, userId: string, audioId: int, isFavoriting: bool, now: int, saveFails: bool)
    returns (o: Outcome<bool>)
    requires db.Valid()
    modifies db
    ensures db.Valid() && db.snapshot == old(db.snapshot) && db.events == old(db.events)
    ensures (o, db.data) == SetFavoriteSpec(old(db.data), userId, audioId, isFavoriting, now, saveFails)
  {
    if userId !in db.data.users {
      return Returned(Fail(Unauthorized));
    }
    if audioId !in db.data.audios {
      return Returned(Fail(NotFound));
    }
    var audio := new Audio.Load(db.data.audios[audioId]);
    if audio.CanModify(userId) {
      return Returned(Fail(Forbidden));
    }
    var favorited;
    if isFavoriting {
      favorited := audio.AddFavorite(userId);
    } else {
      favorited := audio.RemoveFavorite(userId);
    }
    if favorited.Err? {
      return Raised(favorited.error);
    }
    var saved := db.SaveAudioWithFavorites(audio.Row(), now, saveFails);
    if saved.Err? {
      return Raised(saved.error);
    }
    o := Returned(Success(favorited.value));
  }

  /** The refusals, in order: an unknown caller, a missing audio, the
    * caller's own audio; none changes a table. */
  lemma SetFavoriteRefusals(data: Tables, userId: string, audioId: int, isFavoriting: bool, now: int, saveFails: bool)
    ensures var outcome := SetFavoriteSpec(data, userId, audioId, isFavoriting, now, saveFails);
            var o, after := outcome.0, outcome.1;
            && (o.IsFailure(Unauthorized) <==> userId !in data.users)
            && (o.IsFailure(NotFound) <==> userId in data.users && audioId !in data.audios)
            && (o.IsFailure(Forbidden) <==>
                  userId in data.users && audioId in data.audios && data.audios[audioId].userId == Some(userId))
            && (!(o == Returned(Success(isFavoriting))) ==> after == data)
  {
  }

  /** SetFavorite succeeds exactly when the checks pass, the caller id is
    * not blank, and the save goes through with a row the Audios table
    * accepts. On success the returned flag is IsFavoriting, and afterwards
    * the caller has a favourite on the stored audio exactly when it asked
    * for one; the audio keeps one favourite per user and no other user's
    * favourite changes. */
  lemma SetFavoriteSucceeds(data: Tables, userId: string, audioId: int, isFavoriting: bool, now: int, saveFails: bool)
    requires TablesValid(data)
    requires audioId in data.audios ==> UniqueFavorites(data.audios[audioId].favorited)
    ensures var outcome := SetFavoriteSpec(data, userId, audioId, isFavoriting, now, saveFails);
            var o, after := outcome.0, outcome.1;
            && (o.Returned? && o.result.isSuccess <==>
                  userId in data.users && audioId in data.audios && !data.audios[audioId].CanModify(userId)
                  && !IsBlank(userId) && !saveFails && Storable(data.users, data.audios[audioId]))
            && (o.Returned? && o.result.isSuccess ==>
                  && o == Returned(Success(isFavoriting))
                  && audioId in after.audios
                  && var before, current := data.audios[audioId].favorited, after.audios[audioId].favorited;
                  && (HasFavorite(current, userId) <==> isFavoriting)
                  && UniqueFavorites(current)
                  && (forall v :: v != userId ==> HasFavorite(current, v) == HasFavorite(before, v)))
  {
    if userId in data.users && audioId in data.audios && !data.audios[audioId].CanModify(userId) && !IsBlank(userId) {
      var row := data.audios[audioId];
      if isFavoriting {
        AddedFavoriteProperties(row.favorited, userId, row.id);
      } else {
        RemovedFavoriteClears(row.favorited, userId);
        RemovedFavoriteUnique(row.favorited, userId);
        forall v | v != userId ensures HasFavorite(RemovedFavorite(row.favorited, userId), v) == HasFavorite(row.favorited, v) {
          RemovedFavoriteKeepsOthers(row.favorited, userId, v);
        }
      }
    }
  }

  /** With the two stores linked, a successful SetFavorite keeps them
    * linked: the FavoriteAudios table then holds the caller's row for the
    * audio exactly when it asked for one, as FavoriteService's
    * CheckIfUserFavorited sees it; a new row is created now, and every other
    * row stays, with its creation time. */
  lemma SetFavoriteKeepsLink(data: Tables, userId: string, audioId: int, isFavoriting: bool, now: int, saveFails: bool)
    requires TablesValid(data) && FavoritesLinked(data)
    requires SetFavoriteSpec(data, userId, audioId, isFavoriting, now, saveFails).0 == Returned(Success(isFavoriting))
    ensures var after := SetFavoriteSpec(data, userId, audioId, isFavoriting, now, saveFails).1;
            var key := FavoriteAudio(userId, audioId);
            && FavoritesLinked(after)
            && (CheckIfUserFavorited(after, userId, audioId) <==> isFavoriting)
            && (isFavoriting && key !in data.favorites ==> after.favorites[key] == now)
            && (forall k :: k != key ==> (k in after.favorites <==> k in data.favorites))
            && (forall k :: k in after.favorites && k in data.favorites ==> after.favorites[k] == data.favorites[k])
  {
    var row := data.audios[audioId];
    var key := FavoriteAudio(userId, audioId);
    var toggled := Toggled(row, userId, isFavoriting).value.0;
    if isFavoriting {
      AddedFavoriteMembers(row.favorited, userId, audioId);
      AddedFavoriteProperties(row.favorited, userId, audioId);
    } else {
      RemovedFavoriteMembers(row.favorited, userId);
      RemovedFavoriteUnique(row.favorited, userId);
    }
    assert forall k :: k in toggled.favorited ==> k.audioId == audioId;
    FavoritesSavedKeepsLink(data, toggled, now);
  }

  /** A blank caller id that passes the existence check makes the entity
    * raise ArgumentNullException, and nothing is saved. */
  lemma SetFavoriteBlankCaller(data: Tables, userId: string, audioId: int, isFavoriting: bool, now: int, saveFails: bool)
    requires IsBlank(userId) && userId in data.users && audioId in data.audios
    requires !data.audios[audioId].CanModify(userId)
    ensures SetFavoriteSpec(data, userId, audioId, isFavoriting, now, saveFails)
            == (Raised(ArgumentNullException("userId")), data)
  {
  }
}
