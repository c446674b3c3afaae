/** The request validators: AudioCommandValidator
  * (Common/Validators/AudioCommandValidator.cs) and the
  * CreateAudioCommandValidator of both create revisions, which include it.
  * A validator gives the failures of the rules that fail, in the order the
  * rules are declared; every rule of a chain runs, whether or not an
  * earlier one failed. An empty list means the request is valid. */
module Validation {
  import opened Wrappers
  import opened Text
  import opened Results
  import opened Guids

  /** The failures the validators report. */
  datatype Failure =
    | TitleTooLong | DescriptionTooLong | TooManyTags
    | UploadIdRequired | DurationRequired | FileSizeRequired
    | FileNameRequired | FileNameWithoutExtension | FileNameInvalid

  /** The message each failure carries. */
  function Message(f: Failure): (m: string)
    ensures m != []
  {
    match f
    case TitleTooLong => "Title cannot be no more than 30 characters long."
    case DescriptionTooLong => "Description cannot be more than 500 characters long."
    case TooManyTags => "Can only have up to 10 tags per audio upload."
    case UploadIdRequired => "UploadId is required."
    case DurationRequired => "Duration is required."
    case FileSizeRequired => "FileSize is required."
    case FileNameRequired => "Filename is required."
    case FileNameWithoutExtension => "Filename must have a file extension."
    case FileNameInvalid => "Filename is invalid."
  }

  const MaxTitleLength := 30
  const MaxDescriptionLength := 500
  const MaxTags := 10

  /** The fields of AudioCommand the validator reads; a null tag list is
    * None. */
  datatype AudioCommand = AudioCommand(title: Option<string>, description: Option<string>, tags: Option<seq<string>>)

  /** MaximumLength(n): a null string passes. */
  predicate WithinLength(s: Option<string>, n: int)
  {
    s.None? || |s.value| <= n
  }

  /** The failure when the check fails, nothing otherwise. */
  function Check(ok: bool, message: Failure): (r: seq<Failure>)
    ensures r == [] <==> ok
    ensures forall m :: m in r <==> !ok && m == message
  {
    if ok then [] else [message]
  }

  /** AudioCommandValidator: the title rule, applied only to a title that
    * is not blank, the description rule and the tag-count rule, whose
    * Count on a null list raises. */
  function ValidateAudioCommand(c: AudioCommand): (r: Result<seq<Failure>, Exception>)
    ensures r.Err? <==> c.tags.None?
    ensures r.Err? ==> r.error == NullReferenceException
  {
    match c.tags
    case None => Err(NullReferenceException)
    case Some(tags) =>
      Ok(Check(IsNullOrWhiteSpace(c.title) || WithinLength(c.title, MaxTitleLength), TitleTooLong)
         + Check(WithinLength(c.description, MaxDescriptionLength), DescriptionTooLong)
         + Check(|tags| <= MaxTags, TooManyTags))
  }

  /** Each message is reported exactly when its rule fails, and a command
    * with a tag list is valid exactly when its non-blank title has at most
    * 30 characters, its description at most 500 and it has at most 10
    * tags. */
  lemma AudioCommandRules(c: AudioCommand)
    requires c.tags.Some?
    ensures var r := ValidateAudioCommand(c).value;
            && (TitleTooLong in r <==> !IsNullOrWhiteSpace(c.title) && |c.title.value| > 30)
            && (DescriptionTooLong in r <==> c.description.Some? && |c.description.value| > 500)
            && (TooManyTags in r <==> |c.tags.value| > 10)
            && |r| <= 3
            && (r == [] <==>
                  (IsNullOrWhiteSpace(c.title) || |c.title.value| <= 30)
                  && (c.description.None? || |c.description.value| <= 500)
                  && |c.tags.value| <= 10)
  {
  }

  /** The limits are inclusive: a 30-character title, a 500-character
    * description and 10 tags pass, one more fails; a blank title passes
    * whatever its length. */
  lemma AudioCommandBoundaries(title: string, blank: string, description: string, tags: seq<string>, tag: string)
    requires |title| == 30 && |description| == 500 && |tags| == 10 && IsBlank(blank)
    ensures ValidateAudioCommand(AudioCommand(Some(title), Some(description), Some(tags))) == Ok([])
    ensures ValidateAudioCommand(AudioCommand(Some(blank), None, Some([]))) == Ok([])
    ensures !IsBlank(title) ==>
              ValidateAudioCommand(AudioCommand(Some(title + "x"), None, Some([]))) == Ok([TitleTooLong])
    ensures ValidateAudioCommand(AudioCommand(None, Some(description + "x"), Some([]))) == Ok([DescriptionTooLong])
    ensures ValidateAudioCommand(AudioCommand(None, None, Some(tags + [tag]))) == Ok([TooManyTags])
  {
    var nothing: seq<Failure> := [];
    assert Check(true, TitleTooLong) + Check(true, DescriptionTooLong) + Check(true, TooManyTags) == nothing;
    assert Check(true, TitleTooLong) + Check(false, DescriptionTooLong) + Check(true, TooManyTags) == [DescriptionTooLong];
    assert Check(true, TitleTooLong) + Check(true, DescriptionTooLong) + Check(false, TooManyTags) == [TooManyTags];
    if !IsBlank(title) {
      var i :| 0 <= i < |title| && !IsWhiteSpace(title[i]);
      assert (title + "x")[i] == title[i];
      assert Check(false, TitleTooLong) + Check(true, DescriptionTooLong) + Check(true, TooManyTags) == [TitleTooLong];
    }
  }

  // -----------------------------------------------------------------------
  // CreateAudioCommandValidator
  // -----------------------------------------------------------------------

  /** NotEmpty on the Guid upload id of Features/Audio. */
  predicate GuidUploadIdPresent(uploadId: Guid)
  {
    uploadId != Empty
  }

  /** NotEmpty on the string upload id of Features/Audios: not null, not
    * empty, not only white space. */
  predicate TextUploadIdPresent(uploadId: Option<string>)
  {
    !IsNullOrWhiteSpace(uploadId)
  }

  /** Path.HasExtension, false on a null name. */
  predicate NameHasExtension(fileName: Option<string>)
  {
    fileName.Some? && HasExtension(fileName.value)
  }

  /** Whether the configured content types contain the content type of the
    * name's extension; the content-type provider and the options are not
    * part of this model. */
  type ContentTypeAllowed = Option<string> -> bool

  /** The fields the create validator reads besides the included command. */
  datatype CreateFields = CreateFields(
    uploadIdPresent: bool, duration: int, fileSize: int, fileName: Option<string>)

  /** The rules on the upload id, the duration and the file size. */
  function RequiredFieldRules(f: CreateFields): (r: seq<Failure>)
    ensures r == [] <==> f.uploadIdPresent && f.duration != 0 && f.fileSize != 0
    ensures forall m :: m in r <==>
              (m == UploadIdRequired && !f.uploadIdPresent) || (m == DurationRequired && f.duration == 0)
              || (m == FileSizeRequired && f.fileSize == 0)
  {
    Check(f.uploadIdPresent, UploadIdRequired) + Check(f.duration != 0, DurationRequired)
    + Check(f.fileSize != 0, FileSizeRequired)
  }

  /** The three rules on the file name. */
  function FileNameRules(fileName: Option<string>, allowed: ContentTypeAllowed): (r: seq<Failure>)
    ensures r == [] <==> !IsNullOrWhiteSpace(fileName) && NameHasExtension(fileName) && allowed(fileName)
    ensures forall m :: m in r <==>
              (m == FileNameRequired && IsNullOrWhiteSpace(fileName))
              || (m == FileNameWithoutExtension && !NameHasExtension(fileName))
              || (m == FileNameInvalid && !allowed(fileName))
  {
    Check(!IsNullOrWhiteSpace(fileName), FileNameRequired) + Check(NameHasExtension(fileName), FileNameWithoutExtension)
    + Check(allowed(fileName), FileNameInvalid)
  }

  /** CreateAudioCommandValidator (both revisions): the rules on the
    * required fields and on the file name, then the included
    * AudioCommandValidator. */
  function ValidateCreateAudio(f: CreateFields, command: AudioCommand, allowed: ContentTypeAllowed)
    : (r: Result<seq<Failure>, Exception>)
    ensures r.Err? <==> command.tags.None?
  {
    match ValidateAudioCommand(command)
    case Err(e) => Err(e)
    case Ok(included) => Ok(RequiredFieldRules(f) + FileNameRules(f.fileName, allowed) + included)
  }

  /** A create request with a tag list is valid exactly when its upload id
    * is present, its duration and size are not zero, its file name is not
    * blank, has an extension and an allowed content type, and the included
    * command rules hold; every failure of the three rule groups is
    * reported; an empty name fails both the presence and the extension
    * rule. */
  lemma CreateAudioRules(f: CreateFields, command: AudioCommand, allowed: ContentTypeAllowed)
    requires command.tags.Some?
    ensures var r := ValidateCreateAudio(f, command, allowed).value;
            && (r == [] <==>
                  f.uploadIdPresent && f.duration != 0 && f.fileSize != 0
                  && f.fileName.Some? && !IsBlank(f.fileName.value) && HasExtension(f.fileName.value)
                  && allowed(f.fileName)
                  && ValidateAudioCommand(command) == Ok([]))
            && (forall m :: m in r <==>
                  m in RequiredFieldRules(f) || m in FileNameRules(f.fileName, allowed)
                  || m in ValidateAudioCommand(command).value)
            && (f.fileName == Some("") ==> FileNameRequired in r && FileNameWithoutExtension in r)
  {
    if f.fileName == Some("") {
      assert !HasExtension("");
    }
  }
}
