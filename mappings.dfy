/** The audio view models: the projection shared by Common/Mappings/
  * AudioMappings.cs and Features/Audio/MappingProfile.cs (identical bodies),
  * and the two projections of the Audios revision
  * (Features/Audios/Mappings/AudioViewModelMapping.cs and
  * AudioDetailMapping.cs). The audio's owner is passed alongside the row,
  * which holds only the owner's id. */
module AudioViews {
  import opened Wrappers
  import opened Text
  import opened Guids
  import opened Results
  import opened Entities
  import opened Accounts

  datatype GenreDto = GenreDto(id: int, name: string, slug: string)

  datatype UserDto = UserDto(id: string, username: string, picture: Option<string>, isFollowing: bool)

  datatype AudioViewModel = AudioViewModel(
    id: int,
    title: Option<string>,
    description: Option<string>,
    isPublic: bool,
    isLoop: bool,
    duration: int,
    fileSize: int,
    fileExt: Option<string>,
    picture: Option<string>,
    tags: seq<string>,
    favoriteCount: nat,
    isFavorited: bool,
    created: int,
    updated: Option<int>,
    genre: Option<GenreDto>,
    user: UserDto,
    uploadId: Guid)

  /** The favourite rule every projection shares: a non-empty caller id
    * with a favourite on the audio. */
  predicate IsFavorited(favorited: seq<FavoriteAudio>, currentUserId: Option<string>)
  {
    !IsNullOrEmpty(currentUserId) && HasFavorite(favorited, currentUserId.value)
  }

  function TagIdList(tags: seq<Tag>): (ids: seq<string>)
    ensures |ids| == |tags|
  {
    seq(|tags|, i requires 0 <= i < |tags| => tags[i].id)
  }

  function GenreView(genre: Option<Genre>): Option<GenreDto>
  {
    if genre.Some? then Some(GenreDto(genre.value.id, genre.value.name, genre.value.slug)) else None
  }

  /** audio.Favorited.Any(x => x.UserId == currentUserId): no favourite
    * has a null user, so a null caller has favourited nothing. */
  predicate FavoritedBy(favorited: seq<FavoriteAudio>, currentUserId: Option<string>)
  {
    exists f :: f in favorited && Some(f.userId) == currentUserId
  }

  /** The two favourite rules differ only for an empty caller id. */
  lemma FavoritedByAgrees(favorited: seq<FavoriteAudio>, currentUserId: Option<string>)
    ensures IsFavorited(favorited, currentUserId) ==> FavoritedBy(favorited, currentUserId)
    ensures FavoritedBy(favorited, currentUserId) && currentUserId != Some("") ==> IsFavorited(favorited, currentUserId)
  {
    if IsFavorited(favorited, currentUserId) {
      var i :| 0 <= i < |favorited| && favorited[i].userId == currentUserId.value;
      assert favorited[i] in favorited;
    }
    if FavoritedBy(favorited, currentUserId) && currentUserId != Some("") {
      var f :| f in favorited && Some(f.userId) == currentUserId;
      var i :| 0 <= i < |favorited| && favorited[i] == f;
    }
  }

  /** AudioMappings.Map(currentUserId) applied to an audio and its owner. */
  function Map(audio: AudioRow, owner: User, currentUserId: Option<string>): AudioViewModel
  {
    AudioViewModel(audio.id, audio.title, audio.description, audio.isPublic, audio.isLoop,
                   audio.duration, audio.fileSize, audio.fileExt, audio.picture,
                   TagIdList(audio.tags), |audio.favorited|,
                   IsFavorited(audio.favorited, currentUserId),
                   audio.created, audio.lastModified, GenreView(audio.genre),
                   UserDto(owner.id, owner.userName, owner.picture,
                           currentUserId.Some? && HasFollower(owner, currentUserId.value)),
                   audio.uploadId)
  }

  /** MapToDetail: the compiled projection; an audio whose owner is not
    * loaded is dereferenced and raises. */
  function MapToDetail(audio: AudioRow, owner: Option<User>, currentUserId: Option<string>)
    : (r: Result<AudioViewModel, Exception>)
    ensures owner.None? <==> r == Err(NullReferenceException)
    ensures owner.Some? ==> r == Ok(Map(audio, owner.value, currentUserId))
  {
    if owner.None? then Err(NullReferenceException) else Ok(Map(audio, owner.value, currentUserId))
  }

  /** The favourite flag: set exactly for a non-empty caller id among the
    * favourites, which then number at least one. */
  lemma MapFavorited(audio: AudioRow, owner: User, currentUserId: Option<string>)
    ensures var v := Map(audio, owner, currentUserId);
            && (v.isFavorited <==> currentUserId.Some? && currentUserId.value != ""
                                   && exists f :: f in audio.favorited && f.userId == currentUserId.value)
            && (v.isFavorited ==> v.favoriteCount >= 1)
            && v.favoriteCount == |audio.favorited|
  {
  }

  /** The copied fields: the scalars and the upload id unchanged, the tag
    * ids in order, the genre present exactly when the audio has one, and
    * the owner's follow flag for the caller. */
  lemma MapCopies(audio: AudioRow, owner: User, currentUserId: Option<string>)
    ensures var v := Map(audio, owner, currentUserId);
            && v.id == audio.id && v.title == audio.title && v.description == audio.description
            && v.isPublic == audio.isPublic && v.isLoop == audio.isLoop && v.duration == audio.duration
            && v.fileSize == audio.fileSize && v.fileExt == audio.fileExt && v.picture == audio.picture
            && v.uploadId == audio.uploadId && v.created == audio.created && v.updated == audio.lastModified
            && (set id | id in v.tags) == TagIds(audio.tags)
            && |v.tags| == |audio.tags|
            && (v.genre.None? <==> audio.genre.None?)
            && (audio.genre.Some? ==> v.genre.value.id == audio.genre.value.id
                                      && v.genre.value.name == audio.genre.value.name
                                      && v.genre.value.slug == audio.genre.value.slug)
            && v.user.id == owner.id
            && (v.user.isFollowing <==> exists f :: f in owner.followers && Some(f.observerId) == currentUserId)
  {
    var v := Map(audio, owner, currentUserId);
    forall id | id in TagIds(audio.tags) ensures id in v.tags {
      var t :| t in audio.tags && t.id == id;
      var i :| 0 <= i < |audio.tags| && audio.tags[i] == t;
      assert v.tags[i] == id;
    }
    if v.user.isFollowing {
      var i :| 0 <= i < |owner.followers| && owner.followers[i].observerId == currentUserId.value;
      assert owner.followers[i] in owner.followers;
    }
  }

  // -----------------------------------------------------------------------
  // The Audios revision
  // -----------------------------------------------------------------------

  datatype UserViewModel = UserViewModel(id: string, username: string)

  /** The view model's Id: the list projection assigns the long itself,
    * the detail projection its printed text. */
  datatype ViewId = NumericId(value: int) | PrintedId(text: string)

  datatype AudioItem = AudioItem(
    id: ViewId,
    title: Option<string>,
    description: Option<string>,
    isPublic: bool,
    isLoop: bool,
    duration: int,
    fileSize: int,
    fileExt: Option<string>,
    picture: Option<string>,
    tags: string,
    favoriteCount: nat,
    isFavorited: bool,
    created: int,
    updated: Option<int>,
    genre: Option<GenreDto>,
    user: UserViewModel,
    uploadId: Option<Guid>)

  /** string.Join(' ', ids) */
  function JoinedTags(tags: seq<Tag>): string
  {
    Join([' '], TagIdList(tags))
  }

  /** Tag ids without spaces are recovered by splitting the joined text. */
  lemma JoinedTagsSplit(tags: seq<Tag>)
    requires |tags| >= 1
    requires forall t :: t in tags ==> ' ' !in t.id
    ensures Split(JoinedTags(tags), ' ') == TagIdList(tags)
  {
    var ids := TagIdList(tags);
    forall k | 0 <= k < |ids| ensures ' ' !in ids[k] {
      assert tags[k] in tags;
    }
    SplitJoin(ids, ' ');
  }

  /** AudioViewModelMapping.Map: the tags joined by spaces, the owner reduced
    * to id and name; the id is the audio's number. */
  function ItemMap(audio: AudioRow, owner: User, currentUserId: Option<string>): AudioItem
  {
    AudioItem(NumericId(audio.id), audio.title, audio.description, audio.isPublic, audio.isLoop,
              audio.duration, audio.fileSize, audio.fileExt, audio.picture,
              JoinedTags(audio.tags), |audio.favorited|,
              IsFavorited(audio.favorited, currentUserId),
              audio.created, audio.lastModified, GenreView(audio.genre),
              UserViewModel(owner.id, owner.userName), Some(audio.uploadId))
  }

  /** AudioViewModelMapping.MapToDetail */
  function ItemMapToDetail(audio: AudioRow, owner: Option<User>, currentUserId: Option<string>)
    : (r: Result<AudioItem, Exception>)
    ensures owner.None? <==> r == Err(NullReferenceException)
    ensures owner.Some? ==> r == Ok(ItemMap(audio, owner.value, currentUserId))
  {
    if owner.None? then Err(NullReferenceException) else Ok(ItemMap(audio, owner.value, currentUserId))
  }

  /** The id is the audio's own number, the flag follows the shared rule, a
    * missing genre gives none, and the tag text splits back into the tag
    * ids. */
  lemma ItemMapProperties(audio: AudioRow, owner: User, currentUserId: Option<string>)
    requires |audio.tags| >= 1 && forall t :: t in audio.tags ==> ' ' !in t.id
    ensures var v := ItemMap(audio, owner, currentUserId);
            && v.id == NumericId(audio.id)
            && (v.isFavorited <==> IsFavorited(audio.favorited, currentUserId))
            && (v.isFavorited ==> v.favoriteCount >= 1)
            && (v.genre.None? <==> audio.genre.None?)
            && Split(v.tags, ' ') == TagIdList(audio.tags)
            && v.uploadId == Some(audio.uploadId)
            && v.created == audio.created && v.updated == audio.lastModified
  {
    JoinedTagsSplit(audio.tags);
  }

  /** AudioDetailMapping.Map: the genre is dereferenced unconditionally, so
    * an audio without a genre raises, and so does one whose owner is not
    * loaded. The mapping reads a PictureUrl property that the Audio entity
    * of this revision does not declare; the view's picture is taken from
    * the stored Picture path instead. */
  function DetailMap(audio: AudioRow, owner: Option<User>, currentUserId: Option<string>)
    : (r: Result<AudioItem, Exception>)
    ensures r.Err? <==> audio.genre.None? || owner.None?
    ensures r.Err? ==> r.error == NullReferenceException
  {
    if audio.genre.None? || owner.None? then Err(NullReferenceException)
    else
      Ok(AudioItem(PrintedId(Int64ToString(audio.id)), audio.title, audio.description, audio.isPublic, audio.isLoop,
                   audio.duration, audio.fileSize, audio.fileExt, audio.picture,
                   JoinedTags(audio.tags), |audio.favorited|,
                   IsFavorited(audio.favorited, currentUserId),
                   audio.created, audio.lastModified, GenreView(audio.genre),
                   UserViewModel(owner.value.id, owner.value.userName), None))
  }

  /** A detail view's id is the list view's number printed, and reads back
    * as that number; the view carries the genre and the shared favourite
    * flag, and agrees with the list view in every other field except the
    * upload id, which it leaves out. */
  lemma DetailMapProperties(audio: AudioRow, owner: User, currentUserId: Option<string>)
    requires audio.genre.Some? && Int64Min <= audio.id <= Int64Max
    ensures var r := DetailMap(audio, Some(owner), currentUserId);
            var item := ItemMap(audio, owner, currentUserId);
            && r.Ok? && r.value.id.PrintedId?
            && r.value.id.text == Int64ToString(item.id.value)
            && TryParseInt64(r.value.id.text) == Some(item.id.value)
            && r.value.genre == Some(GenreDto(audio.genre.value.id, audio.genre.value.name, audio.genre.value.slug))
            && (r.value.isFavorited <==> IsFavorited(audio.favorited, currentUserId))
            && r.value == item.(id := r.value.id, uploadId := None)
            && item.uploadId.Some?
  {
    ParsePrintedInt64(audio.id);
  }
}
