/** The Audio entity (Entities/Audio.cs) with its tags and favourites.
  *
  * AudioRow is the entity's value, the record the database stores; its
  * member functions say what each of the entity's methods does to it.
  * The class Audio is the tracked entity itself: handlers load a row into
  * it, call its methods, which update its fields in place, and save
  * Row() back. */
module Entities {
  import opened Wrappers
  import opened Text
  import opened Guids
  import opened Results

  datatype Tag = Tag(id: string)

  datatype Genre = Genre(id: int, name: string, slug: string)

  /** FavoriteAudio. Its AudioId is declared a Guid while Audio.Id is a
    * number; the key the handlers and the context actually use is the
    * audio's identity, so it is modelled as that number. */
  datatype FavoriteAudio = FavoriteAudio(userId: string, audioId: int)

  // -----------------------------------------------------------------------
  // Tag collections
  // -----------------------------------------------------------------------

  function TagIds(tags: seq<Tag>): set<string>
  {
    set t | t in tags :: t.id
  }

  lemma TagIdsAppend(a: seq<Tag>, b: seq<Tag>)
    ensures TagIds(a + b) == TagIds(a) + TagIds(b)
  {
    assert forall t :: t in a + b <==> t in a || t in b;
  }

  /** No two tags share an id. */
  predicate UniqueTagIds(tags: seq<Tag>)
  {
    forall i, j :: 0 <= i < j < |tags| ==> tags[i].id != tags[j].id
  }

  /** The first loop of UpdateTags: the current tags whose id is requested,
    * in their current order. */
  function KeepRequested(current: seq<Tag>, requested: seq<Tag>): seq<Tag>
  {
    if current == [] then []
    else
      var last := current[|current| - 1];
      KeepRequested(current[..|current| - 1], requested) + (if last.id in TagIds(requested) then [last] else [])
  }

  /** The first loop keeps exactly the current tags whose id is requested. */
  lemma {:induction false} KeepRequestedMembers(current: seq<Tag>, requested: seq<Tag>)
    ensures forall t :: t in KeepRequested(current, requested) <==> t in current && t.id in TagIds(requested)
  {
    if current != [] {
      var init, last := current[..|current| - 1], current[|current| - 1];
      KeepRequestedMembers(init, requested);
      assert current == init + [last];
    }
  }

  lemma {:induction false} KeepRequestedUnique(current: seq<Tag>, requested: seq<Tag>)
    requires UniqueTagIds(current)
    ensures UniqueTagIds(KeepRequested(current, requested))
  {
    if current != [] {
      var init, last := current[..|current| - 1], current[|current| - 1];
      KeepRequestedUnique(init, requested);
      KeepRequestedMembers(init, requested);
      var k := KeepRequested(init, requested);
      forall t | t in k ensures t.id != last.id {
        assert t in init;
        var i :| 0 <= i < |init| && init[i] == t;
        assert current[i] == t;
      }
    }
  }

  /** The second loop of UpdateTags: append, in order, each requested tag
    * whose id is not yet present. */
  function AddMissing(acc: seq<Tag>, requested: seq<Tag>): seq<Tag>
    decreases |requested|
  {
    if requested == [] then acc
    else
      var next := if requested[0].id in TagIds(acc) then acc else acc + [requested[0]];
      AddMissing(next, requested[1..])
  }

  /** The second loop ends with the ids present before plus the requested ids. */
  lemma {:induction false} AddMissingIds(acc: seq<Tag>, requested: seq<Tag>)
    ensures TagIds(AddMissing(acc, requested)) == TagIds(acc) + TagIds(requested)
    decreases |requested|
  {
    if requested != [] {
      var next := if requested[0].id in TagIds(acc) then acc else acc + [requested[0]];
      TagIdsAppend(acc, [requested[0]]);
      TagIdsAppend([requested[0]], requested[1..]);
      assert requested == [requested[0]] + requested[1..];
      AddMissingIds(next, requested[1..]);
    }
  }

  /** The second loop only appends: the tags it starts with stay in place. */
  lemma {:induction false} AddMissingPrefix(acc: seq<Tag>, requested: seq<Tag>)
    ensures |acc| <= |AddMissing(acc, requested)| && AddMissing(acc, requested)[..|acc|] == acc
    decreases |requested|
  {
    if requested != [] {
      var next := if requested[0].id in TagIds(acc) then acc else acc + [requested[0]];
      AddMissingPrefix(next, requested[1..]);
      assert AddMissing(acc, requested)[..|acc|] == next[..|acc|];
    }
  }

  lemma {:induction false} AddMissingUnique(acc: seq<Tag>, requested: seq<Tag>)
    requires UniqueTagIds(acc)
    ensures UniqueTagIds(AddMissing(acc, requested))
    decreases |requested|
  {
    if requested != [] {
      var x := requested[0];
      if x.id !in TagIds(acc) {
        forall i | 0 <= i < |acc| ensures acc[i].id != x.id {
          assert acc[i] in acc;
        }
        AddMissingUnique(acc + [x], requested[1..]);
      } else {
        AddMissingUnique(acc, requested[1..]);
      }
    }
  }

  /** What UpdateTags does to the tag collection: when the audio already has
    * tags, drop the ones not requested and add the missing ones; otherwise
    * add every requested tag. */
  function SyncTags(current: seq<Tag>, requested: seq<Tag>): seq<Tag>
  {
    if |current| > 0 then AddMissing(KeepRequested(current, requested), requested) else requested
  }

  /** After UpdateTags the tag ids are exactly the requested ids. */
  lemma SyncTagsIds(current: seq<Tag>, requested: seq<Tag>)
    ensures TagIds(SyncTags(current, requested)) == TagIds(requested)
  {
    if |current| > 0 {
      var k := KeepRequested(current, requested);
      KeepRequestedMembers(current, requested);
      AddMissingIds(k, requested);
      assert TagIds(k) <= TagIds(requested);
    }
  }

  /** An id is never added twice: with unique ids before (or, on an audio
    * without tags, unique requested ids) the ids stay unique. */
  lemma SyncTagsUnique(current: seq<Tag>, requested: seq<Tag>)
    requires if |current| > 0 then UniqueTagIds(current) else UniqueTagIds(requested)
    ensures UniqueTagIds(SyncTags(current, requested))
  {
    if |current| > 0 {
      KeepRequestedUnique(current, requested);
      AddMissingUnique(KeepRequested(current, requested), requested);
    }
  }

  /** A current tag whose id is still requested is kept, not replaced. */
  lemma SyncTagsReuses(current: seq<Tag>, requested: seq<Tag>, t: Tag)
    requires t in current && t.id in TagIds(requested)
    ensures t in SyncTags(current, requested)
  {
    var k := KeepRequested(current, requested);
    KeepRequestedMembers(current, requested);
    AddMissingPrefix(k, requested);
    var r := AddMissing(k, requested);
    var i :| 0 <= i < |k| && k[i] == t;
    assert r[..|k|][i] == t;
  }

  /** Requested tags whose ids are all new (and distinct) are appended in
    * request order. */
  lemma {:induction false} AddMissingAppendsNew(acc: seq<Tag>, rest: seq<Tag>)
    requires forall t :: t in rest ==> t.id !in TagIds(acc)
    requires UniqueTagIds(rest)
    ensures AddMissing(acc, rest) == acc + rest
    decreases |rest|
  {
    if rest != [] {
      var t := rest[0];
      TagIdsAppend(acc, [t]);
      assert TagIds([t]) == {t.id} by { assert t in [t]; }
      forall u | u in rest[1..] ensures u.id !in TagIds(acc + [t]) {
        var k :| 0 <= k < |rest[1..]| && rest[1..][k] == u;
        assert rest[k + 1] == u;
      }
      AddMissingAppendsNew(acc + [t], rest[1..]);
      assert acc + [t] + rest[1..] == acc + rest;
    }
  }

  /** The unit-test scenario, for any three distinct tags: an audio tagged
    * x re-tagged with x, y, z ends with x, y, z, x once and first. */
  lemma SyncTagsExample(x: Tag, y: Tag, z: Tag)
    requires x.id != y.id && x.id != z.id && y.id != z.id
    ensures SyncTags([x], [x, y, z]) == [x, y, z]
  {
    assert x.id in TagIds([x, y, z]) by { assert x in [x, y, z]; }
    assert KeepRequested([x], [x, y, z]) == [x] by {
      assert [x][..0] == [];
    }
    assert x.id in TagIds([x]) by { assert x in [x]; }
    assert [x, y, z][1..] == [y, z];
    assert AddMissing([x], [x, y, z]) == AddMissing([x], [y, z]);
    assert TagIds([x]) == {x.id} by { assert x in [x]; }
    AddMissingAppendsNew([x], [y, z]);
  }

  // -----------------------------------------------------------------------
  // Favourites
  // -----------------------------------------------------------------------

  predicate HasFavorite(favorites: seq<FavoriteAudio>, userId: string)
  {
    exists f :: f in favorites && f.userId == userId
  }

  /** At most one favourite per user. */
  predicate UniqueFavorites(favorites: seq<FavoriteAudio>)
  {
    forall i, j :: 0 <= i < j < |favorites| ==> favorites[i].userId != favorites[j].userId
  }

  /** GetFavorite (FirstOrDefault): the position of the first favourite of userId. */
  function FirstFavorite(favorites: seq<FavoriteAudio>, userId: string): (r: Option<nat>)
    ensures r.Some? ==> r.value < |favorites| && favorites[r.value].userId == userId
    ensures r.Some? ==> forall j :: 0 <= j < r.value ==> favorites[j].userId != userId
    ensures r.None? <==> !HasFavorite(favorites, userId)
  {
    if favorites == [] then None
    else if favorites[0].userId == userId then Some(0)
    else
      match FirstFavorite(favorites[1..], userId)
      case None => None
      case Some(i) => Some(i + 1)
  }

  /** The favourites after AddFavorite(userId) on the audio audioId. */
  function AddedFavorite(favorites: seq<FavoriteAudio>, userId: string, audioId: int): seq<FavoriteAudio>
  {
    if FirstFavorite(favorites, userId).None? then favorites + [FavoriteAudio(userId, audioId)] else favorites
  }

  /** The favourites after RemoveFavorite(userId). */
  function RemovedFavorite(favorites: seq<FavoriteAudio>, userId: string): seq<FavoriteAudio>
  {
    match FirstFavorite(favorites, userId)
    case None => favorites
    case Some(i) => favorites[..i] + favorites[i + 1..]
  }

  /** AddFavorite leaves the user with a favourite, keeps one per user, and
    * repeating it changes nothing. */
  lemma AddedFavoriteProperties(favorites: seq<FavoriteAudio>, userId: string, audioId: int)
    requires UniqueFavorites(favorites)
    ensures HasFavorite(AddedFavorite(favorites, userId, audioId), userId)
    ensures UniqueFavorites(AddedFavorite(favorites, userId, audioId))
    ensures AddedFavorite(AddedFavorite(favorites, userId, audioId), userId, audioId)
            == AddedFavorite(favorites, userId, audioId)
    ensures forall v :: v != userId ==>
              HasFavorite(AddedFavorite(favorites, userId, audioId), v) == HasFavorite(favorites, v)
  {
    var r := AddedFavorite(favorites, userId, audioId);
    if FirstFavorite(favorites, userId).None? {
      var f := FavoriteAudio(userId, audioId);
      assert r[|favorites|] == f;
      forall i | 0 <= i < |favorites| ensures favorites[i].userId != userId {
        assert favorites[i] in favorites;
      }
      assert forall v :: HasFavorite(r, v) <==> HasFavorite(favorites, v) || v == userId by {
        assert forall g :: g in r <==> g in favorites || g == f;
      }
    }
  }

  /** RemoveFavorite leaves the user without a favourite. */
  lemma RemovedFavoriteClears(favorites: seq<FavoriteAudio>, userId: string)
    requires UniqueFavorites(favorites)
    ensures !HasFavorite(RemovedFavorite(favorites, userId), userId)
  {
    if FirstFavorite(favorites, userId).Some? {
      var i := FirstFavorite(favorites, userId).value;
      var r := favorites[..i] + favorites[i + 1..];
      DropAt(favorites, i);
      forall g | g in r ensures g.userId != userId {
        var k :| 0 <= k < |r| && r[k] == g;
      }
    }
  }

  /** RemoveFavorite keeps at most one favourite per user. */
  lemma RemovedFavoriteUnique(favorites: seq<FavoriteAudio>, userId: string)
    requires UniqueFavorites(favorites)
    ensures UniqueFavorites(RemovedFavorite(favorites, userId))
  {
    if FirstFavorite(favorites, userId).Some? {
      var i := FirstFavorite(favorites, userId).value;
      var r := favorites[..i] + favorites[i + 1..];
      DropAt(favorites, i);
      forall a, b | 0 <= a < b < |r| ensures r[a].userId != r[b].userId {
        var a', b' := if a < i then a else a + 1, if b < i then b else b + 1;
        assert r[a] == favorites[a'] && r[b] == favorites[b'] && a' < b';
      }
    }
  }

  /** RemoveFavorite touches no other user's favourite. */
  lemma RemovedFavoriteKeepsOthers(favorites: seq<FavoriteAudio>, userId: string, other: string)
    requires other != userId
    ensures HasFavorite(RemovedFavorite(favorites, userId), other) == HasFavorite(favorites, other)
  {
    if FirstFavorite(favorites, userId).Some? {
      var i := FirstFavorite(favorites, userId).value;
      var r := favorites[..i] + favorites[i + 1..];
      DropAt(favorites, i);
      if HasFavorite(favorites, other) {
        var g :| g in favorites && g.userId == other;
        var k :| 0 <= k < |favorites| && favorites[k] == g;
        assert k != i;
        assert g == r[if k < i then k else k - 1];
      }
      if HasFavorite(r, other) {
        var g :| g in r && g.userId == other;
        var k :| 0 <= k < |r| && r[k] == g;
        assert g in favorites;
      }
    }
  }

  /** The favourites after AddFavorite: the old ones, and the user's new
    * favourite when the user had none. */
  lemma AddedFavoriteMembers(favorites: seq<FavoriteAudio>, userId: string, audioId: int)
    ensures forall k :: k in AddedFavorite(favorites, userId, audioId) <==>
              k in favorites || (k == FavoriteAudio(userId, audioId) && !HasFavorite(favorites, userId))
  {
  }

  /** The favourites after RemoveFavorite: the old ones but the user's. */
  lemma RemovedFavoriteMembers(favorites: seq<FavoriteAudio>, userId: string)
    requires UniqueFavorites(favorites)
    ensures forall k :: k in RemovedFavorite(favorites, userId) <==> k in favorites && k.userId != userId
  {
    if FirstFavorite(favorites, userId).Some? {
      var i := FirstFavorite(favorites, userId).value;
      var r := favorites[..i] + favorites[i + 1..];
      DropAt(favorites, i);
      forall k | k in favorites && k.userId != userId ensures k in r {
        var j :| 0 <= j < |favorites| && favorites[j] == k;
        assert k == r[if j < i then j else j - 1];
      }
      forall k | k in r ensures k in favorites && k.userId != userId {
        var j :| 0 <= j < |r| && r[j] == k;
        assert k == favorites[if j < i then j else j + 1];
      }
    }
  }

  /** A favourite appended for a user without one is that user's first. */
  lemma FirstFavoriteOfAppended(favorites: seq<FavoriteAudio>, f: FavoriteAudio)
    requires !HasFavorite(favorites, f.userId)
    ensures FirstFavorite(favorites + [f], f.userId) == Some(|favorites|)
  {
    var added := favorites + [f];
    assert added[|favorites|] == f;
    forall j | 0 <= j < |favorites| ensures added[j].userId != f.userId {
      assert added[j] == favorites[j] && favorites[j] in favorites;
    }
  }

  /** Appending a favourite for a user without one keeps one per user. */
  lemma AppendedFavoriteUnique(favorites: seq<FavoriteAudio>, f: FavoriteAudio)
    requires UniqueFavorites(favorites) && !HasFavorite(favorites, f.userId)
    ensures UniqueFavorites(favorites + [f])
  {
    var added := favorites + [f];
    forall i, j | 0 <= i < j < |added| ensures added[i].userId != added[j].userId {
      assert added[i] == favorites[i] && favorites[i] in favorites;
    }
  }

  /** RemoveFavorite undoes an AddFavorite that added. */
  lemma RemovedFavoriteUndoesAdded(favorites: seq<FavoriteAudio>, userId: string, audioId: int)
    requires !HasFavorite(favorites, userId)
    ensures RemovedFavorite(AddedFavorite(favorites, userId, audioId), userId) == favorites
  {
    var added := favorites + [FavoriteAudio(userId, audioId)];
    FirstFavoriteOfAppended(favorites, FavoriteAudio(userId, audioId));
    assert added[..|favorites|] == favorites;
  }

  /** The positions of a sequence with one element taken out. */
  lemma DropAt<T>(s: seq<T>, i: nat)
    requires i < |s|
    ensures |s[..i] + s[i + 1..]| == |s| - 1
    ensures forall k :: 0 <= k < |s| - 1 ==> (s[..i] + s[i + 1..])[k] == if k < i then s[k] else s[k + 1]
  {
  }

  // -----------------------------------------------------------------------
  // The entity's value
  // -----------------------------------------------------------------------

  /** The stored fields of an Audio; C# nulls are None. */
  datatype AudioRow = AudioRow(
    id: int,
    title: Option<string>,
    description: Option<string>,
    duration: int,
    uploadId: Guid,
    fileSize: int,
    fileExt: Option<string>,
    picture: Option<string>,
    isPublic: bool,
    isLoop: bool,
    userId: Option<string>,
    genreId: Option<int>,
    genre: Option<Genre>,
    // Tags and Favorited are hash sets in the entity: the order of these
    // sequences carries no meaning for it.
    tags: seq<Tag>,
    favorited: seq<FavoriteAudio>,
    created: int,
    lastModified: Option<int>)
  {
    /** UpdateTitle: as written, it assigns only a null or blank title. */
    function UpdateTitle(newTitle: Option<string>): AudioRow
    {
      if IsNullOrWhiteSpace(newTitle) then this.(title := newTitle) else this
    }

    /** UpdateDescription: any non-null description. */
    function UpdateDescription(newDescription: Option<string>): AudioRow
    {
      if newDescription.Some? then this.(description := newDescription) else this
    }

    /** UpdatePublicStatus */
    function UpdatePublicStatus(status: Option<bool>): AudioRow
    {
      if status.Some? then this.(isPublic := status.value) else this
    }

    /** UpdateLoop */
    function UpdateLoop(loop: Option<bool>): AudioRow
    {
      if loop.Some? then this.(isLoop := loop.value) else this
    }

    /** UpdateGenre: the foreign key follows the navigation, null included. */
    function UpdateGenre(newGenre: Option<Genre>): AudioRow
    {
      this.(genreId := if newGenre.Some? then Some(newGenre.value.id) else None, genre := newGenre)
    }

    /** UpdateTags */
    function UpdateTags(requested: seq<Tag>): AudioRow
    {
      this.(tags := SyncTags(tags, requested))
    }

    /** UpdatePicture: only a non-blank path is assigned. */
    function UpdatePicture(path: Option<string>): AudioRow
    {
      if !IsNullOrWhiteSpace(path) then this.(picture := path) else this
    }

    /** CanModify: the caller is the owner. */
    predicate CanModify(caller: string)
    {
      userId == Some(caller)
    }

    /** AddFavorite: rejects a blank user id, otherwise adds a favourite unless
      * one exists; the returned flag is always true. */
    function AddFavorite(user: string): Result<(AudioRow, bool), Exception>
    {
      if IsBlank(user) then Err(ArgumentNullException("userId"))
      else Ok((this.(favorited := AddedFavorite(favorited, user, id)), true))
    }

    /** RemoveFavorite: rejects a blank user id, otherwise removes the user's
      * favourite if there is one; the returned flag is always false. */
    function RemoveFavorite(user: string): Result<(AudioRow, bool), Exception>
    {
      if IsBlank(user) then Err(ArgumentNullException("userId"))
      else Ok((this.(favorited := RemovedFavorite(favorited, user)), false))
    }
  }

  /** The fields of new Audio(): empty tag and favourite collections. */
  const DefaultRow: AudioRow :=
    AudioRow(0, None, None, 0, Empty, 0, None, None, false, false, None, None, None, [], [], 0, None)

  /** new Audio(uploadId, fileName, fileSize, duration, user), with the
    * exception it raises; the user is given by its id. */
  function NewAudio(uploadId: Guid, fileName: Option<string>, fileSize: int, duration: int, user: Option<string>)
    : (r: Result<AudioRow, Exception>)
    ensures r.Ok? <==> uploadId != Empty && !IsNullOrWhiteSpace(fileName) && HasExtension(fileName.value) && user.Some?
    ensures uploadId == Empty ==> r == Err(ArgumentException("uploadId"))
    ensures uploadId != Empty && IsNullOrWhiteSpace(fileName) ==> r == Err(ArgumentNullException("fileName"))
    ensures (uploadId != Empty && !IsNullOrWhiteSpace(fileName) && !HasExtension(fileName.value))
              ==> r == Err(ArgumentException("fileName"))
    ensures r.Ok? ==> r.value.uploadId == uploadId && r.value.userId == user && r.value.isPublic
                      && r.value.tags == [] && r.value.favorited == []
                      && r.value.fileSize == fileSize && r.value.duration == duration
    ensures r.Ok? ==> r.value.fileExt == Some(GetExtension(fileName.value))
                      && r.value.title == Some(GetFileNameWithoutExtension(fileName.value))
  {
    if uploadId == Empty then Err(ArgumentException("uploadId"))
    else if IsNullOrWhiteSpace(fileName) then Err(ArgumentNullException("fileName"))
    else
      var extension := GetExtension(fileName.value);
      HasExtensionIff(fileName.value);
      if IsNullOrEmpty(Some(extension)) then Err(ArgumentException("fileName"))
      else if user.None? then Err(ArgumentNullException("user"))
      else
        Ok(DefaultRow.(uploadId := uploadId, fileExt := Some(extension), fileSize := fileSize,
                       duration := duration, title := Some(GetFileNameWithoutExtension(fileName.value)),
                       userId := user, isPublic := true))
  }

  /** For a bare file name, the title and the extension of the new audio
    * put back together give the file name. */
  lemma NewAudioKeepsFileName(uploadId: Guid, fileName: string, fileSize: int, duration: int, user: Option<string>)
    requires NewAudio(uploadId, Some(fileName), fileSize, duration, user).Ok?
    requires DirectorySeparator !in fileName
    ensures var a := NewAudio(uploadId, Some(fileName), fileSize, duration, user).value;
            a.title.value + a.fileExt.value == fileName && a.fileExt.value[0] == '.'
  {
    HasExtensionIff(fileName);
    FileNameSplitsIntoTitleAndExtension(fileName);
  }

  /** A valid file name gives an audio titled by the name without its extension. */
  lemma NewAudioTitle(uploadId: Guid, name: string, user: string)
    requires uploadId != Empty && !IsBlank(name) && HasExtension(name)
    ensures NewAudio(uploadId, Some(name), 0, 0, Some(user)).Ok?
    ensures NewAudio(uploadId, Some(name), 0, 0, Some(user)).value.title == Some(GetFileNameWithoutExtension(name))
    ensures NewAudio(uploadId, Some(name), 0, 0, Some(user)).value.fileExt == Some(GetExtension(name))
  {
  }

  /** The path functions on the file names of the unit tests. */
  lemma AudioMp3Name()
    ensures !IsBlank("audio.mp3") && HasExtension("audio.mp3")
    ensures GetExtension("audio.mp3") == ".mp3" && GetFileNameWithoutExtension("audio.mp3") == "audio"
  {
    var name := "audio.mp3";
    assert !IsWhiteSpace(name[0]);
    BareFileNameParts(name, 5);
    assert name[5..] == ".mp3" && name[..5] == "audio";
  }

  lemma TestAudioName()
    ensures !IsBlank("testaudio.mp3") && HasExtension("testaudio.mp3")
    ensures GetFileNameWithoutExtension("testaudio.mp3") == "testaudio"
  {
    var name := "testaudio.mp3";
    assert !IsWhiteSpace(name[0]);
    BareFileNameParts(name, 9);
    assert name[..9] == "testaudio";
  }

  lemma ShouldFailName()
    ensures !IsBlank("shouldfail") && !HasExtension("shouldfail")
    ensures IsBlank("  ") && IsBlank("")
  {
    var name := "shouldfail";
    assert !IsWhiteSpace(name[0]);
    assert IsWhiteSpace(' ');
    NoDotNoExtension(name);
  }

  /** The unit-test expectation: "audio.mp3" gives title "audio" and
    * extension ".mp3". */
  lemma NewAudioAcceptsFileName(uploadId: Guid, user: string)
    requires uploadId != Empty
    ensures NewAudio(uploadId, Some("audio.mp3"), 0, 0, Some(user)).Ok?
    ensures NewAudio(uploadId, Some("audio.mp3"), 0, 0, Some(user)).value.title == Some("audio")
    ensures NewAudio(uploadId, Some("audio.mp3"), 0, 0, Some(user)).value.fileExt == Some(".mp3")
  {
    AudioMp3Name();
    NewAudioTitle(uploadId, "audio.mp3", user);
  }

  /** The unit-test expectations: "shouldfail" (no extension) and a null,
    * empty or blank name are rejected. */
  lemma NewAudioRejectsFileNames(uploadId: Guid, user: string)
    requires uploadId != Empty
    ensures NewAudio(uploadId, Some("shouldfail"), 0, 0, Some(user)) == Err(ArgumentException("fileName"))
    ensures NewAudio(uploadId, Some("  "), 0, 0, Some(user)) == Err(ArgumentNullException("fileName"))
    ensures NewAudio(uploadId, Some(""), 0, 0, Some(user)) == Err(ArgumentNullException("fileName"))
    ensures NewAudio(uploadId, None, 0, 0, Some(user)) == Err(ArgumentNullException("fileName"))
  {
    ShouldFailName();
  }

  /** The guarded setters: a null argument changes nothing, UpdatePicture("")
    * is a no-op, and UpdateTitle, as written, ignores every non-blank title. */
  lemma SettersIgnoreMissingValues(a: AudioRow, title: string)
    ensures a.UpdateDescription(None) == a
    ensures a.UpdatePublicStatus(None) == a && a.UpdateLoop(None) == a
    ensures a.UpdatePicture(Some("")) == a && a.UpdatePicture(None) == a
    ensures !IsBlank(title) ==> a.UpdateTitle(Some(title)) == a
    ensures IsBlank(title) ==> a.UpdateTitle(Some(title)).title == Some(title)
  {
  }

  /** A blank request title overwrites the title derived from the file name:
    * "testaudio.mp3" created with title "" ends up with title "", and with
    * title "Test Audio" keeps "testaudio", where the integration test expects
    * "Test Audio". */
  lemma UpdateTitleInvertedGuard(uploadId: Guid, user: string)
    requires uploadId != Empty
    ensures NewAudio(uploadId, Some("testaudio.mp3"), 0, 0, Some(user)).Ok?
    ensures NewAudio(uploadId, Some("testaudio.mp3"), 0, 0, Some(user)).value.UpdateTitle(Some("")).title == Some("")
    ensures NewAudio(uploadId, Some("testaudio.mp3"), 0, 0, Some(user)).value.UpdateTitle(Some("Test Audio")).title
            == Some("testaudio")
  {
    TestAudioName();
    NewAudioTitle(uploadId, "testaudio.mp3", user);
    var created := NewAudio(uploadId, Some("testaudio.mp3"), 0, 0, Some(user)).value;
    SettersIgnoreMissingValues(created, "Test Audio");
    SettersIgnoreMissingValues(created, "");
    var requested := "Test Audio";
    assert !IsWhiteSpace(requested[0]);
  }

  /** UpdateGenre keeps GenreId and Genre in agreement. */
  lemma UpdateGenreAgrees(a: AudioRow, g: Option<Genre>)
    ensures a.UpdateGenre(g).genre == g
    ensures a.UpdateGenre(g).genreId.Some? <==> g.Some?
    ensures g.Some? ==> a.UpdateGenre(g).genreId == Some(g.value.id)
  {
  }

  /** CanModify holds exactly for the owner. */
  lemma CanModifyOwnerOnly(a: AudioRow, caller: string)
    ensures a.CanModify(caller) <==> a.userId.Some? && a.userId.value == caller
  {
  }

  /** AddFavorite always answers true and RemoveFavorite false; both reject a blank id. */
  lemma FavoriteFlags(a: AudioRow, user: string)
    ensures IsBlank(user) ==> a.AddFavorite(user).Err? && a.RemoveFavorite(user).Err?
    ensures !IsBlank(user) ==> a.AddFavorite(user).Ok? && a.AddFavorite(user).value.1
    ensures !IsBlank(user) ==> a.RemoveFavorite(user).Ok? && !a.RemoveFavorite(user).value.1
  {
  }

  // -----------------------------------------------------------------------
  // The tracked entity
  // -----------------------------------------------------------------------

  class Audio {
    var id: int
    var title: Option<string>
    var description: Option<string>
    var duration: int
    var uploadId: Guid
    var fileSize: int
    var fileExt: Option<string>
    var picture: Option<string>
    var isPublic: bool
    var isLoop: bool
    var userId: Option<string>
    var genreId: Option<int>
    var genre: Option<Genre>
    /** The Tags and Favorited hash sets; the order of the sequences carries
      * no meaning. */
    var tags: seq<Tag>
    var favorited: seq<FavoriteAudio>
    var created: int
    var lastModified: Option<int>

    /** The entity's current value. */
    function Row(): AudioRow
      reads this
    {
      AudioRow(id, title, description, duration, uploadId, fileSize, fileExt, picture,
               isPublic, isLoop, userId, genreId, genre, tags, favorited, created, lastModified)
    }

    /** new Audio() */
    constructor ()
      ensures Row() == DefaultRow
    {
      id, title, description, duration, uploadId := 0, None, None, 0, Empty;
      fileSize, fileExt, picture, isPublic, isLoop := 0, None, None, false, false;
      userId, genreId, genre, tags, favorited, created, lastModified := None, None, None, [], [], 0, None;
    }

    /** An entity materialised from a stored row. */
    constructor Load(row: AudioRow)
      ensures Row() == row
    {
      id, title, description, duration, uploadId := row.id, row.title, row.description, row.duration, row.uploadId;
      fileSize, fileExt, picture, isPublic, isLoop := row.fileSize, row.fileExt, row.picture, row.isPublic, row.isLoop;
      userId, genreId, genre := row.userId, row.genreId, row.genre;
      tags, favorited, created, lastModified := row.tags, row.favorited, row.created, row.lastModified;
    }

    /** new Audio(uploadId, fileName, fileSize, duration, user): the checks in
      * source order, then the entity with the derived fields. */
    static method New(uploadId: Guid, fileName: Option<string>, fileSize: int, duration: int, user: Option<string>)
      returns (r: Result<Audio, Exception>)
      ensures r.Err? ==> NewAudio(uploadId, fileName, fileSize, duration, user) == Err(r.error)
      ensures r.Ok? ==> fresh(r.value) && NewAudio(uploadId, fileName, fileSize, duration, user) == Ok(r.value.Row())
    {
      if uploadId == Empty {
        return Err(ArgumentException("uploadId"));
      }
      if IsNullOrWhiteSpace(fileName) {
        return Err(ArgumentNullException("fileName"));
      }
      var extension := GetExtension(fileName.value);
      HasExtensionIff(fileName.value);
      if IsNullOrEmpty(Some(extension)) {
        return Err(ArgumentException("fileName"));
      }
      var title := GetFileNameWithoutExtension(fileName.value);
      if user.None? {
        return Err(ArgumentNullException("user"));
      }
      var a := new Audio.Load(DefaultRow.(uploadId := uploadId, fileExt := Some(extension), fileSize := fileSize,
                                          duration := duration, title := Some(title), userId := user, isPublic := true));
      r := Ok(a);
    }

    method UpdateTitle(newTitle: Option<string>)
      modifies this
      ensures Row() == old(Row()).UpdateTitle(newTitle)
    {
      if IsNullOrWhiteSpace(newTitle) {
        title := newTitle;
      }
    }

    method UpdateDescription(newDescription: Option<string>)
      modifies this
      ensures Row() == old(Row()).UpdateDescription(newDescription)
    {
      if newDescription.Some? {
        description := newDescription;
      }
    }

    method UpdatePublicStatus(status: Option<bool>)
      modifies this
      ensures Row() == old(Row()).UpdatePublicStatus(status)
    {
      if status.Some? {
        isPublic := status.value;
      }
    }

    method UpdateLoop(loop: Option<bool>)
      modifies this
      ensures Row() == old(Row()).UpdateLoop(loop)
    {
      if loop.Some? {
        isLoop := loop.value;
      }
    }

    method UpdateGenre(newGenre: Option<Genre>)
      modifies this
      ensures Row() == old(Row()).UpdateGenre(newGenre)
    {
      genreId := if newGenre.Some? then Some(newGenre.value.id) else None;
      genre := newGenre;
    }

    /** The two loops of UpdateTags, one tag at a time. */
    method UpdateTags(requested: seq<Tag>)
      modifies this
      ensures Row() == old(Row()).UpdateTags(requested)
      ensures TagIds(tags) == TagIds(requested)
    {
      SyncTagsIds(tags, requested);
      if |tags| > 0 {
        ghost var current := tags;
        var kept: seq<Tag> := [];
        var i := 0;
        while i < |tags|
          invariant 0 <= i <= |tags| && tags == current
          invariant kept == KeepRequested(tags[..i], requested)
        {
          if tags[i].id in TagIds(requested) {
            kept := kept + [tags[i]];
          }
          assert tags[..i + 1][..i] == tags[..i];
          i := i + 1;
        }
        assert tags[..i] == tags;
        var j := 0;
        while j < |requested|
          invariant 0 <= j <= |requested|
          invariant AddMissing(kept, requested[j..]) == SyncTags(current, requested)
        {
          assert requested[j..][1..] == requested[j + 1..];
          if requested[j].id !in TagIds(kept) {
            kept := kept + [requested[j]];
          }
          j := j + 1;
        }
        tags := kept;
      } else {
        var added := tags;
        var j := 0;
        while j < |requested|
          invariant 0 <= j <= |requested|
          invariant added == requested[..j]
        {
          added := added + [requested[j]];
          assert requested[..j + 1] == requested[..j] + [requested[j]];
          j := j + 1;
        }
        assert requested[..j] == requested;
        tags := added;
      }
    }

    method UpdatePicture(path: Option<string>)
      modifies this
      ensures Row() == old(Row()).UpdatePicture(path)
    {
      if !IsNullOrWhiteSpace(path) {
        picture := path;
      }
    }

    predicate CanModify(caller: string)
      reads this
    {
      Row().CanModify(caller)
    }

    method AddFavorite(user: string) returns (r: Result<bool, Exception>)
      modifies this
      ensures old(Row()).AddFavorite(user).Err? ==> r == Err(old(Row()).AddFavorite(user).error) && Row() == old(Row())
      ensures old(Row()).AddFavorite(user).Ok? ==> r == Ok(true) && Row() == old(Row()).AddFavorite(user).value.0
    {
      if IsBlank(user) {
        return Err(ArgumentNullException("userId"));
      }
      var found := FirstFavorite(favorited, user);
      if found.None? {
        favorited := favorited + [FavoriteAudio(user, id)];
      }
      r := Ok(true);
    }

    method RemoveFavorite(user: string) returns (r: Result<bool, Exception>)
      modifies this
      ensures old(Row()).RemoveFavorite(user).Err? ==> r == Err(old(Row()).RemoveFavorite(user).error) && Row() == old(Row())
      ensures old(Row()).RemoveFavorite(user).Ok? ==> r == Ok(false) && Row() == old(Row()).RemoveFavorite(user).value.0
    {
      if IsBlank(user) {
        return Err(ArgumentNullException("userId"));
      }
      var found := FirstFavorite(favorited, user);
      if found.Some? {
        favorited := favorited[..found.value] + favorited[found.value + 1..];
      }
      r := Ok(false);
    }
  }
}
