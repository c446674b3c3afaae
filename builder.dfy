/** The fluent audio builder (Features/Audios/Builders/AudioBuilder.cs).
  * It belongs to a revision of the Audio entity whose id is a Guid and
  * whose picture is a URL; the draft below has those fields. */
module Builders {
  import opened Wrappers
  import opened Text
  import opened Guids
  import opened Results
  import opened Entities
  import opened Accounts

  /** A stored blob; only its URL is read. */
  datatype BlobDto = BlobDto(url: Option<string>)

  /** The fields of the Audio under construction. */
  datatype AudioDraft = AudioDraft(
    id: Guid,
    title: Option<string>,
    description: Option<string>,
    duration: int,
    fileExt: Option<string>,
    genreId: Option<int>,
    genre: Option<Genre>,
    tags: seq<Tag>,
    userId: Option<string>,
    user: Option<User>,
    pictureUrl: Option<string>,
    isPublic: bool,
    isLoop: bool)

  /** new Audio(): every field at its default. */
  const EmptyDraft: AudioDraft :=
    AudioDraft(Empty, None, None, 0, None, None, None, [], None, None, None, false, false)

  /** The foreign keys agree with their navigation objects. */
  predicate Consistent(d: AudioDraft)
  {
    (d.genre.Some? ==> d.genreId == Some(d.genre.value.id))
    && (d.user.Some? ==> d.userId == Some(d.user.value.id))
  }

  /** The checks of Build, in source order: a title, then a user, then a
    * genre id other than 0. */
  function Checked(d: AudioDraft): (r: Result<AudioDraft, Exception>)
    ensures r.Ok? <==> !IsNullOrWhiteSpace(d.title) && !IsNullOrWhiteSpace(d.userId) && d.genreId != Some(0)
    ensures r.Ok? ==> r.value == d
    ensures r.Err? ==> r.error.BuilderException?
  {
    if IsNullOrWhiteSpace(d.title) then Err(BuilderException("Title is required."))
    else if IsNullOrWhiteSpace(d.userId) then Err(BuilderException("User is required."))
    else if d.genreId == Some(0) then Err(BuilderException("Genre is required."))
    else Ok(d)
  }

  /** The first failing check decides the message. */
  lemma CheckedOrder(d: AudioDraft)
    ensures IsNullOrWhiteSpace(d.title) ==> Checked(d) == Err(BuilderException("Title is required."))
    ensures !IsNullOrWhiteSpace(d.title) && IsNullOrWhiteSpace(d.userId) ==>
              Checked(d) == Err(BuilderException("User is required."))
    ensures !IsNullOrWhiteSpace(d.title) && !IsNullOrWhiteSpace(d.userId) && d.genreId == Some(0) ==>
              Checked(d) == Err(BuilderException("Genre is required."))
  {
  }

  /** The genre check compares a nullable id with 0: a draft whose genre was
    * never set passes it. */
  lemma GenreNeverSetPasses(title: string, user: User)
    requires !IsBlank(title) && !IsBlank(user.id)
    ensures var d := EmptyDraft.(title := Some(title), userId := Some(user.id), user := Some(user));
            Consistent(d) && d.genreId.None? && d.genre.None? && Checked(d).Ok?
  {
  }

  class AudioBuilder {
    var draft: AudioDraft

    predicate Valid()
      reads this
    {
      Consistent(draft)
    }

    constructor ()
      ensures draft == EmptyDraft && Valid()
    {
      draft := EmptyDraft;
    }

    /** The empty Guid is ignored. */
    method AddId(id: Guid)
      requires Valid()
      modifies this
      ensures draft == if id != Empty then old(draft).(id := id) else old(draft)
      ensures Valid()
    {
      if id != Empty {
        draft := draft.(id := id);
      }
    }

    /** A blank title is ignored. */
    method AddTitle(title: Option<string>)
      requires Valid()
      modifies this
      ensures draft == if !IsNullOrWhiteSpace(title) then old(draft).(title := title) else old(draft)
      ensures Valid()
    {
      if !IsNullOrWhiteSpace(title) {
        draft := draft.(title := title);
      }
    }

    method AddDescription(description: Option<string>)
      requires Valid()
      modifies this
      ensures draft == old(draft).(description := description) && Valid()
    {
      draft := draft.(description := description);
    }

    method AddDuration(duration: int)
      requires Valid()
      modifies this
      ensures draft == old(draft).(duration := duration) && Valid()
    {
      draft := draft.(duration := duration);
    }

    method AddFileExtension(extension: Option<string>)
      requires Valid()
      modifies this
      ensures draft == old(draft).(fileExt := extension) && Valid()
    {
      draft := draft.(fileExt := extension);
    }

    /** Sets the id and the navigation together; a null genre is
      * dereferenced and raises. */
    method AddGenre(genre: Option<Genre>) returns (r: Result<(), Exception>)
      requires Valid()
      modifies this
      ensures genre.None? ==> r == Err(NullReferenceException) && draft == old(draft)
      ensures genre.Some? ==> r.Ok? && draft == old(draft).(genreId := Some(genre.value.id), genre := genre)
      ensures Valid()
    {
      if genre.None? {
        return Err(NullReferenceException);
      }
      draft := draft.(genreId := Some(genre.value.id));
      draft := draft.(genre := genre);
      r := Ok(());
    }

    method AddTags(tags: seq<Tag>)
      requires Valid()
      modifies this
      ensures draft == old(draft).(tags := tags) && Valid()
    {
      draft := draft.(tags := tags);
    }

    /** Sets the user id and the navigation together; a null user raises. */
    method AddUser(user: Option<User>) returns (r: Result<(), Exception>)
      requires Valid()
      modifies this
      ensures user.None? ==> r == Err(NullReferenceException) && draft == old(draft)
      ensures user.Some? ==> r.Ok? && draft == old(draft).(userId := Some(user.value.id), user := user)
      ensures Valid()
    {
      if user.None? {
        return Err(NullReferenceException);
      }
      draft := draft.(userId := Some(user.value.id));
      draft := draft.(user := user);
      r := Ok(());
    }

    /** A missing blob or URL gives the empty URL. */
    method AddImage(blob: Option<BlobDto>)
      requires Valid()
      modifies this
      ensures draft == old(draft).(pictureUrl := Some(if blob.Some? && blob.value.url.Some? then blob.value.url.value else ""))
      ensures Valid()
    {
      var url := if blob.Some? then blob.value.url else None;
      draft := draft.(pictureUrl := Some(url.GetOr("")));
    }

    /** An unset flag makes the audio public. */
    method SetToPublic(isPublic: Option<bool>)
      requires Valid()
      modifies this
      ensures draft == old(draft).(isPublic := isPublic.GetOr(true)) && Valid()
    {
      draft := draft.(isPublic := isPublic.GetOr(true));
    }

    /** An unset flag makes the audio loop. */
    method SetToLoop(isLoop: Option<bool>)
      requires Valid()
      modifies this
      ensures draft == old(draft).(isLoop := isLoop.GetOr(true)) && Valid()
    {
      draft := draft.(isLoop := isLoop.GetOr(true));
    }

    /** Build: the draft itself once it passes the checks; its foreign keys
      * agree with its navigation objects. */
    method Build() returns (r: Result<AudioDraft, Exception>)
      requires Valid()
      ensures r == Checked(draft)
      ensures r.Ok? ==> Consistent(r.value)
    {
      if IsNullOrWhiteSpace(draft.title) {
        return Err(BuilderException("Title is required."));
      }
      if IsNullOrWhiteSpace(draft.userId) {
        return Err(BuilderException("User is required."));
      }
      if draft.genreId == Some(0) {
        return Err(BuilderException("Genre is required."));
      }
      return Ok(draft);
    }
  }
}
