# Audiochan audio lifecycle, in Dafny

A model of the core of Audiochan, an audio-sharing web API: the `Audio`
entity, the naming of the blobs that hold audio files and pictures in the
S3 bucket, the handlers that create, update, remove and re-picture audios
(and user pictures), favourite and follow toggling, the transaction
pipeline, tag merge, genre lookup, the audio listings, the view-model
projections, the request validators, the `Result` type and the refresh
token rules.

The model follows the program's structure:

- `wrappers.dfy`, `text.dfy`, `guids.dfy`: `Option`/`Result`, the .NET
  string and path functions the code relies on (`Trim`, `ToLower`, `Split`,
  `Path.GetExtension`, `long.TryParse`, ...), `Guid` and its two text
  formats, and the `yyyyMMddHHmmss` clock stamp.
- `results.dfy` (`Result`, `ResultExtensions`), `entities.dfy` (the
  `Audio` entity as a class with its `Tags` and `Favorited` collections),
  `builder.dfy` (`AudioBuilder`), `users.dfy` (the user fields the core
  reads; a user's audios and followings are read from the tables).
- `blobs.dfy` (container names, `BlobHelpers`, `GetBlobPath`),
  `storage.dfy` (`AmazonS3Service` over a bucket that maps keys to
  objects), `images.dfy` (`ImageService`, `UploadService`).
- `database.dfy`: the database context as a class holding the tables and
  the state of its transaction, and the transaction pipeline behaviour.
- `create.dfy`, `update.dfy`, `remove.dfy`, `pictures.dfy`, `service.dfy`,
  `favorites.dfy`, `profiles.dfy`: the command handlers and
  `AudioService`. Each handler is a method that takes the context and the bucket;
  its `ensures` ties its outcome and the new state to a specification
  function of the old state; the lemmas about the handler (which checks
  come first, that nothing changes on a failure, which key a compensating
  delete removes, that an exception is rethrown) are stated about that
  function.
- `tags.dfy`, `genres.dfy`, `queries.dfy`, `mappings.dfy`: tag merge, genre
  lookup and listing, the audio listings (visibility, filters, sort orders,
  feeds) and the view-model projections.
- `validators.dfy`, `tokens.dfy`: the FluentValidation rules and the
  refresh-token arithmetic.

Strings are `seq<char>`, and a nullable string or collection is an
`Option` (`None` is `null`). Integers are unbounded; where the code relies
on the `Int64` range (`long.TryParse`) the range is written out. Calls
into collaborators that can fail (the S3 client, the database, the image
encoder) take the failure as a parameter, and every exception the code
raises or rethrows is a value of the outcome.

The Audios table accepts a row only as its configuration
(`AudioConfiguration`) allows: a title, required and of at most 100
characters, a file extension of at most 10, and an owner id naming a
stored user (the required `User` relationship). A save of any other row
raises and changes nothing, and every stored audio has a stored owner.

Where the code and its documentation disagree, the model follows the
code. When the delete in a `catch` block itself throws, the delete's
exception replaces the one being handled (C# semantics), so the handler
raises the storage failure rather than the original exception.

## Model

| member | source | states |
|---|---|---|
| Results.DefaultMessage | src/Audiochan.Core/Common/Models/Result.cs:49-62 | the caller's message when it is not blank; the result is never blank |
| Results.Fail | src/Audiochan.Core/Common/Models/Result.cs:23-32 | a failure carries its status and errors, no data, and the caller's message or the status's fixed text when that message is blank |
| Results.Success | src/Audiochan.Core/Common/Models/Result.cs:34-42 | a success carries the data, the message "Success" and no status or errors |
| Results.AsBoolOfConstructors | src/Audiochan.Core/Common/Models/Result.cs:44-47 | the conversion to bool is true for Success and false for Fail |
| Results.StatusTextStartsWithCapital | src/Audiochan.Core/Common/Models/Result.cs:53-61 | every fixed status text is non-blank and starts with a capital |
| Results.StatusTextsDistinct | src/Audiochan.Core/Common/Models/Result.cs:53-61 | the five named statuses have different fixed texts |
| Results.ToErrorCode | src/Audiochan.Web/Extensions/ResultExtensions.cs:18-29 | the HTTP code is one of 400, 401, 403, 404, 422, 500, and 500 exactly when there is no named status |
| Results.ToErrorCodeOfFail | src/Audiochan.Web/Extensions/ResultExtensions.cs:18-29 | each named status of a failure maps to its own HTTP code |
| Results.ToErrorCodeInjective | src/Audiochan.Web/Extensions/ResultExtensions.cs:18-29 | two named statuses never share an HTTP code |
| Results.ReturnErrorResponse | src/Audiochan.Web/Extensions/ResultExtensions.cs:12-16 | the response body and the response status both carry the mapped code, with the result's message and errors |
| Entities.TagIdsAppend | src/Audiochan.Core/Entities/Audio.cs:89-114 | the ids of two tag lists together are the ids of each |
| Entities.KeepRequestedMembers | src/Audiochan.Core/Entities/Audio.cs:91-99 | the first loop of UpdateTags keeps exactly the current tags whose id is requested |
| Entities.KeepRequestedUnique | src/Audiochan.Core/Entities/Audio.cs:91-99 | dropping tags keeps the ids unique |
| Entities.AddMissingIds | src/Audiochan.Core/Entities/Audio.cs:101-105 | the second loop ends with the ids present before plus the requested ids |
| Entities.AddMissingPrefix | src/Audiochan.Core/Entities/Audio.cs:101-105 | the second loop only appends: the tags it starts from stay in place |
| Entities.AddMissingUnique | src/Audiochan.Core/Entities/Audio.cs:101-105 | the second loop never adds an id that is already present |
| Entities.SyncTagsIds | src/Audiochan.Core/Entities/Audio.cs:89-114 | after UpdateTags the tag ids are exactly the requested ids |
| Entities.SyncTagsUnique | src/Audiochan.Core/Entities/Audio.cs:89-114 | with unique ids before (or unique requested ids on an untagged audio) the ids stay unique |
| Entities.SyncTagsReuses | src/Audiochan.Core/Entities/Audio.cs:91-105 | a current tag whose id is still requested is kept, not replaced |
| Entities.AddMissingAppendsNew | src/Audiochan.Core/Entities/Audio.cs:101-105 | requested tags whose ids are all new are appended in their order |
| Entities.SyncTagsExample | src/Audiochan.Core/Entities/Audio.cs:89-114 | an audio tagged x asked for x, y and z ends tagged x, y, z |
| Entities.FirstFavorite | src/Audiochan.Core/Entities/Audio.cs:156-162 | the position of the first favourite of the user, none exactly when the user has none |
| Entities.AddedFavoriteProperties | src/Audiochan.Core/Entities/Audio.cs:127-141 | AddFavorite leaves the user with one favourite, keeps one per user, is idempotent and changes no other user's favourite |
| Entities.RemovedFavoriteClears | src/Audiochan.Core/Entities/Audio.cs:143-154 | RemoveFavorite leaves the user without a favourite |
| Entities.RemovedFavoriteUnique | src/Audiochan.Core/Entities/Audio.cs:143-154 | RemoveFavorite keeps at most one favourite per user |
| Entities.RemovedFavoriteKeepsOthers | src/Audiochan.Core/Entities/Audio.cs:143-154 | RemoveFavorite does not touch any other user's favourite |
| Entities.NewAudio | src/Audiochan.Core/Entities/Audio.cs:17-38 | an empty upload id, a blank file name, a name without an extension and a null user raise, in that order; otherwise a public audio of the user with the upload id, the name's extension, size and duration |
| Entities.NewAudioKeepsFileName | src/Audiochan.Core/Entities/Audio.cs:25-34 | for a name without directories the title followed by the extension is the file name, and the extension starts with a dot |
| Entities.NewAudioTitle | src/Audiochan.Core/Entities/Audio.cs:25-34 | a valid file name gives an audio titled by the name without its extension |
| Entities.NewAudioAcceptsFileName | src/Audiochan.Core/Entities/Audio.cs:17-38 | "audio.mp3" gives title "audio" and extension ".mp3" |
| Entities.NewAudioRejectsFileNames | src/Audiochan.Core/Entities/Audio.cs:19-28 | "shouldfail" raises ArgumentException, and a blank, empty or null name raises ArgumentNullException |
| Entities.SettersIgnoreMissingValues | src/Audiochan.Core/Entities/Audio.cs:57-81 | a null argument changes nothing, a blank picture changes nothing, and UpdateTitle assigns only a blank title |
| Entities.UpdateTitleInvertedGuard | src/Audiochan.Core/Entities/Audio.cs:57-63 | a blank request title overwrites the title derived from the file name, while a real title is ignored |
| Entities.UpdateGenreAgrees | src/Audiochan.Core/Entities/Audio.cs:83-87 | the genre id follows the genre, null included |
| Entities.CanModifyOwnerOnly | src/Audiochan.Core/Entities/Audio.cs:122-125 | only the owner may modify the audio |
| Entities.FavoriteFlags | src/Audiochan.Core/Entities/Audio.cs:127-154 | both reject a blank user id; AddFavorite answers true and RemoveFavorite false |
| Entities.Audio.constructor | src/Audiochan.Core/Entities/Audio.cs:11-15 | a new entity has empty tag and favourite collections |
| Entities.Audio.Load | src/Audiochan.Core/Entities/Audio.cs:9-55 | the entity holds the stored row |
| Entities.Audio.New | src/Audiochan.Core/Entities/Audio.cs:17-38 | raises as NewAudio does, or gives a fresh entity holding NewAudio's row |
| Entities.Audio.UpdateTitle | src/Audiochan.Core/Entities/Audio.cs:57-63 | the new row is the old row with UpdateTitle applied |
| Entities.Audio.UpdateDescription | src/Audiochan.Core/Entities/Audio.cs:65-69 | the new row is the old row with UpdateDescription applied |
| Entities.Audio.UpdatePublicStatus | src/Audiochan.Core/Entities/Audio.cs:71-75 | the new row is the old row with UpdatePublicStatus applied |
| Entities.Audio.UpdateLoop | src/Audiochan.Core/Entities/Audio.cs:77-81 | the new row is the old row with UpdateLoop applied |
| Entities.Audio.UpdateGenre | src/Audiochan.Core/Entities/Audio.cs:83-87 | the new row is the old row with UpdateGenre applied |
| Entities.Audio.UpdateTags | src/Audiochan.Core/Entities/Audio.cs:89-114 | the two loops, tag by tag, give SyncTags of the old tags, whose ids are the requested ids |
| Entities.Audio.UpdatePicture | src/Audiochan.Core/Entities/Audio.cs:116-120 | the new row is the old row with UpdatePicture applied |
| Entities.Audio.AddFavorite | src/Audiochan.Core/Entities/Audio.cs:127-141 | raises on a blank id and changes nothing; otherwise answers true with the user's favourite added |
| Entities.Audio.RemoveFavorite | src/Audiochan.Core/Entities/Audio.cs:143-154 | raises on a blank id and changes nothing; otherwise answers false with the user's favourite removed |
| Builders.Checked | src/Audiochan.Core/Features/Audios/Builders/AudioBuilder.cs:90-99 | Build succeeds exactly when the title and the user id are not blank and the genre id is not 0, returning the audio unchanged; otherwise a BuilderException |
| Builders.CheckedOrder | src/Audiochan.Core/Features/Audios/Builders/AudioBuilder.cs:92-97 | the first failing check decides the message: title, then user, then genre |
| Builders.GenreNeverSetPasses | src/Audiochan.Core/Features/Audios/Builders/AudioBuilder.cs:96-97 | an audio whose genre was never set passes the genre check, since a null id is not 0 |
| Builders.AudioBuilder.constructor | src/Audiochan.Core/Features/Audios/Builders/AudioBuilder.cs:15-18 | the builder starts from a new Audio with every field at its default |
| Builders.AudioBuilder.AddId | src/Audiochan.Core/Features/Audios/Builders/AudioBuilder.cs:20-25 | sets the id unless it is the empty Guid |
| Builders.AudioBuilder.AddTitle | src/Audiochan.Core/Features/Audios/Builders/AudioBuilder.cs:27-32 | sets the title unless it is blank |
| Builders.AudioBuilder.AddDescription | src/Audiochan.Core/Features/Audios/Builders/AudioBuilder.cs:34-38 | sets the description, null included |
| Builders.AudioBuilder.AddDuration | src/Audiochan.Core/Features/Audios/Builders/AudioBuilder.cs:40-44 | sets the duration |
| Builders.AudioBuilder.AddFileExtension | src/Audiochan.Core/Features/Audios/Builders/AudioBuilder.cs:46-50 | sets the extension |
| Builders.AudioBuilder.AddGenre | src/Audiochan.Core/Features/Audios/Builders/AudioBuilder.cs:52-57 | a null genre raises and changes nothing; otherwise sets the genre id and the genre together |
| Builders.AudioBuilder.AddTags | src/Audiochan.Core/Features/Audios/Builders/AudioBuilder.cs:59-63 | replaces the tags |
| Builders.AudioBuilder.AddUser | src/Audiochan.Core/Features/Audios/Builders/AudioBuilder.cs:65-70 | a null user raises and changes nothing; otherwise sets the user id and the user together |
| Builders.AudioBuilder.AddImage | src/Audiochan.Core/Features/Audios/Builders/AudioBuilder.cs:72-76 | sets the picture to the blob's URL, or to the empty string when there is no blob or URL |
| Builders.AudioBuilder.SetToPublic | src/Audiochan.Core/Features/Audios/Builders/AudioBuilder.cs:78-82 | an unset flag makes the audio public |
| Builders.AudioBuilder.SetToLoop | src/Audiochan.Core/Features/Audios/Builders/AudioBuilder.cs:84-88 | an unset flag makes the audio loop |
| Builders.AudioBuilder.Build | src/Audiochan.Core/Features/Audios/Builders/AudioBuilder.cs:90-99 | the result is Checked of the draft, and a built audio's foreign keys agree with its navigation objects |
| BlobHelpers.GetAudioBlobName | src/Audiochan.Core/Common/Helpers/BlobHelpers.cs:11-14 | the name is the upload id's 36-character text followed by the file extension |
| BlobHelpers.AudioBlobNameInjective | src/Audiochan.Core/Common/Helpers/BlobHelpers.cs:11-14 | two audios share a blob name exactly when they share upload id and extension |
| BlobHelpers.AudioBlobNameIsBare | src/Audiochan.Core/Common/Helpers/BlobHelpers.cs:11-14 | the name has no directory separator when the extension has none |
| BlobHelpers.GetPictureBlobName | src/Audiochan.Core/Common/Helpers/BlobHelpers.cs:16-19 | 32 hex digits, '_', 14 decimal digits of the time stamp, then ".jpg": 51 characters |
| BlobHelpers.PictureBlobNameProperties | src/Audiochan.Core/Common/Helpers/BlobHelpers.cs:16-19 | the picture name is bare, its extension is ".jpg", and different guids give different names |
| BlobPaths.ParseBlobPath | src/Audiochan.Infrastructure/Storage/Extensions/StorageExtensions.cs:23-26 | the parsed name never contains '/' |
| BlobPaths.GetBlobPath | src/Audiochan.Infrastructure/Storage/Extensions/StorageExtensions.cs:21-27 | the blob name taken from a URL never contains '/' |
| BlobPaths.ParseBlobPathFlat | src/Audiochan.Infrastructure/Storage/Extensions/StorageExtensions.cs:23-26 | a path with no inner '/' is a name in the empty container |
| BlobPaths.ParseBlobPathRoundTrip | src/Audiochan.Infrastructure/Storage/Extensions/StorageExtensions.cs:23-26 | "/container/name" parses back into container and name |
| BlobPaths.ParseBlobPathRoundTripEmpty | src/Audiochan.Infrastructure/Storage/Extensions/StorageExtensions.cs:23-26 | "//name" parses into the empty container and name |
| BlobPaths.StorageUrlPrefix | src/Audiochan.Infrastructure/Storage/Extensions/StorageExtensions.cs:23 | splitting on the storage URL leaves the path as the last piece when the URL occurs only at the front |
| BlobPaths.GetBlobPathRoundTrip | src/Audiochan.Infrastructure/Storage/Extensions/StorageExtensions.cs:21-27 | the URL of a blob parses back into its container and name |
| Guids.FormatN | src/Audiochan.Core/Common/Helpers/BlobHelpers.cs:18 | the "N" text of a guid is 32 hexadecimal digits |
| Guids.FormatNInjective | src/Audiochan.Core/Common/Helpers/BlobHelpers.cs:18 | different guids give different "N" texts |
| Guids.FormatD | src/Audiochan.Core/Common/Helpers/BlobHelpers.cs:13 | the default text of a guid is 36 characters, hyphens at positions 8, 13, 18 and 23 |
| Guids.FormatDInjective | src/Audiochan.Core/Common/Helpers/BlobHelpers.cs:13 | different guids give different default texts |
| Guids.FormatsHaveNoSeparator | src/Audiochan.Core/Common/Helpers/BlobHelpers.cs:13-18 | neither guid text holds a path separator or a dot |
| Clock.Stamp | src/Audiochan.Core/Common/Helpers/BlobHelpers.cs:18 | the "yyyyMMddHHmmss" stamp is 14 decimal digits |
| Text.GetExtension | src/Audiochan.Core/Entities/Audio.cs:25 | the extension is empty, or a suffix of the path made of a '.' and at least one character with no further '.' and no directory separator |
| Text.GetFileNameWithoutExtension | src/Audiochan.Core/Entities/Audio.cs:34 | the name without extension holds no directory separator |
| Text.FileNameSplitsIntoTitleAndExtension | src/Audiochan.Core/Entities/Audio.cs:25-34 | a bare file name is its name without extension followed by its extension |
| Text.Split | src/Audiochan.Core/Features/Audio/QueryableExtensions.cs:48 | a split gives at least one piece, empty pieces included |
| Text.JoinSplit | src/Audiochan.Core/Features/Audio/QueryableExtensions.cs:48 | joining the pieces of a split with the separator gives back the text |
| Text.SplitJoin | src/Audiochan.Core/Features/Audio/QueryableExtensions.cs:48 | splitting a join of separator-free pieces gives back the pieces |
| Text.TryParseInt64 | src/Audiochan.Core/Features/Audio/QueryableExtensions.cs:35-36 | a parsed number lies within the Int64 range |
| Text.ParsePrintedInt64 | src/Audiochan.Core/Features/Audio/QueryableExtensions.cs:35-36 | parsing the printed form of an Int64 gives the number back |
| Text.NoDigitNoNumber | src/Audiochan.Core/Features/Audio/QueryableExtensions.cs:35-36 | a text without a digit never parses, so such a genre input matches id 0 |
| Text.TrimToLower | src/Audiochan.Core/Features/Audio/QueryableExtensions.cs:38 | trimming and lower-casing commute |
| Entities.AudioMp3Name | tests/Audiochan.Core.UnitTests/Entities/AudioTests.cs:33-56 | "audio.mp3" is a non-blank name with extension ".mp3" and title "audio" |
| Entities.ShouldFailName | tests/Audiochan.Core.UnitTests/Entities/AudioTests.cs:42-47 | "shouldfail" has no extension, and the empty and the blank names are blank |
| Entities.TestAudioName | tests/Audiochan.Core.IntegrationTests/Features/Audios/CreateAudioTests.cs:36 | "testaudio.mp3" is a non-blank name with an extension and title "testaudio" |
| Storage.GetKeyName | src/Audiochan.Infrastructure/Storage/AmazonS3Service.cs:201-205 | container and name are joined by one '/'; an empty name gives the container and an empty container the name |
| Storage.GetKeyNameInjective | src/Audiochan.Infrastructure/Storage/AmazonS3Service.cs:201-205 | within one container, the key determines the blob name |
| Storage.Threshold | src/Audiochan.Infrastructure/Storage/AmazonS3Service.cs:76 | the multipart threshold is the smaller of the configured threshold and the single-put limit |
| Storage.MultipartChoice | src/Audiochan.Infrastructure/Storage/AmazonS3Service.cs:72-81 | a known length at or above either limit goes by multipart transfer, one below both does not, and an unknown length never does |
| Storage.CopyMetadata | src/Audiochan.Infrastructure/Storage/AmazonS3Service.cs:96-102 | a null dictionary copies nothing and any other is copied entry for entry |
| Storage.AmazonS3Service.Open | src/Audiochan.Infrastructure/Storage/AmazonS3Service.cs:28-47 | the service keeps the bucket and threshold and its URL is https://<bucket>.s3.amazonaws.com |
| Storage.AmazonS3Service.Connect | src/Audiochan.Infrastructure/Storage/AmazonS3Service.cs:28-31 | a configured URL without "amazonaws.com" is refused with a StorageException |
| Storage.AmazonS3Service.RemoveKey | src/Audiochan.Infrastructure/Storage/AmazonS3Service.cs:56-68 | the key is deleted, or a client failure becomes a StorageException and nothing changes |
| Storage.AmazonS3Service.Remove | src/Audiochan.Infrastructure/Storage/AmazonS3Service.cs:49-54 | deletes the key GetKeyName gives for the container and name |
| Storage.AmazonS3Service.Save | src/Audiochan.Infrastructure/Storage/AmazonS3Service.cs:70-150 | the object is written under the request's key with its metadata and transfer mode, and the response carries the key and its URL; a client failure writes nothing |
| Storage.AmazonS3Service.ExistsKey | src/Audiochan.Infrastructure/Storage/AmazonS3Service.cs:159-173 | true exactly when the key is stored, false on NotFound, a StorageException on any other client error |
| Storage.AmazonS3Service.Exists | src/Audiochan.Infrastructure/Storage/AmazonS3Service.cs:152-157 | the existence of the key GetKeyName gives |
| Storage.AmazonS3Service.GetPresignedRequest | src/Audiochan.Infrastructure/Storage/AmazonS3Service.cs:175-199 | a PUT request for the request's key, expiring five minutes after now, with every metadata entry |
| Images.PictureContainerNames | src/Audiochan.Infrastructure/Image/ImageService.cs:65-66 | the two picture containers are "pictures/audios" and "pictures/users" |
| Images.GetContainer | src/Audiochan.Infrastructure/Image/ImageService.cs:61-69 | audio pictures go to "pictures/audios", user pictures to "pictures/users", and any other type raises ArgumentOutOfRangeException |
| Images.PictureContainersDistinct | src/Audiochan.Infrastructure/Image/ImageService.cs:61-69 | an audio picture and a user picture with the same name never share a key |
| Images.StripBase64 | src/Audiochan.Infrastructure/Image/ImageService.cs:44-45 | input without "base64" is left as it is |
| Images.DataUrlPieces | src/Audiochan.Infrastructure/Image/ImageService.cs:44-45 | a data URL splits on "base64" into its media type and the comma-prefixed payload |
| Images.StripBase64OfDataUrl | src/Audiochan.Infrastructure/Image/ImageService.cs:44-45 | a data URL "<media type>base64,<payload>" gives back exactly its payload |
| Images.ImageService.UploadImage | src/Audiochan.Infrastructure/Image/ImageService.cs:24-34 | a picture that does not decode raises before anything is written; otherwise it is saved in the type's container under the caller's name with no metadata |
| Images.ImageService.RemoveImage | src/Audiochan.Infrastructure/Image/ImageService.cs:36-39 | deletes exactly the key UploadImage wrote for the same type and name |
| Images.SavedUrlParsesBack | src/Audiochan.Infrastructure/Image/ImageService.cs:24-39 | the URL SaveAsync reports for a key parses back into the container and name |
| Images.PictureUrlParsesBack | src/Audiochan.Infrastructure/Image/ImageService.cs:24-39 | an uploaded picture's URL parses back into its picture container and blob name |
| Uploads.GetUploadUrl | src/Audiochan.Infrastructure/Upload/UploadService.cs:21-29 | the link names a fresh upload id followed by the file's extension in the audios container, with the caller's id and the original file name as metadata |
| Uploads.UploadIdInBlobName | src/Audiochan.Infrastructure/Upload/UploadService.cs:24-25 | the upload id and extension can be read back from the link's blob name |
| Uploads.UploadBlobIsAudioBlob | src/Audiochan.Infrastructure/Upload/UploadService.cs:24-25 | the client uploads to the very blob name an audio with the same upload id and file name is stored under |
| Uploads.PresignUpload | src/Audiochan.Infrastructure/Upload/UploadService.cs:27 | the signing request uses the audios container, the ticket's blob name and both metadata entries, expiring five minutes after now |
| Images.ImageService.constructor | src/Audiochan.Infrastructure/Image/ImageService.cs:19-22 | the service keeps the storage service it is given |
| Persistence.Unstored | src/Audiochan.Core/Interfaces/IApplicationDbContext.cs:19 | saving inserts exactly the audio's tags that the Tags table lacks |
| Persistence.FindUser | src/Audiochan.Core/Features/Audios/AudioService.cs:139-140 | the stored user with the id, and none for a null or unknown id |
| Persistence.Database.constructor | src/Audiochan.Core/Interfaces/IApplicationDbContext.cs:8-20 | a context over the given tables with no open transaction |
| Persistence.Database.BeginTransaction | src/Audiochan.Core/Interfaces/IApplicationDbContext.cs:16 | a failure raises and opens nothing; otherwise remembers the tables as they are |
| Persistence.Database.CommitTransaction | src/Audiochan.Core/Interfaces/IApplicationDbContext.cs:17 | a failure raises and leaves the transaction open; otherwise closes it keeping the tables |
| Persistence.Database.RollbackTransaction | src/Audiochan.Core/Interfaces/IApplicationDbContext.cs:18 | restores the tables of the open transaction and closes it |
| Persistence.Database.SaveAudio | src/Audiochan.Infrastructure/Persistence/Configurations/AudioConfiguration.cs:11-35 | a failure, or a row the Audios configuration refuses (no title, a title over 100 characters, a file extension over 10, or an owner id that names no stored user), raises and changes nothing; otherwise the audio's row replaces the stored one and its new tags are inserted |
| Persistence.Database.AddAudio | src/Audiochan.Core/Features/Audio/CreateAudio/CreateAudioCommand.cs:113-114 | a failure, or a row the Audios configuration refuses (no title, a title over 100 characters, a file extension over 10, or an owner id that names no stored user), raises and changes nothing; otherwise the row is stored under the next identity, which no audio had, with its new tags |
| Persistence.Database.RemoveAudio | src/Audiochan.Core/Features/Audio/RemoveAudio/RemoveAudioCommand.cs:44-46 | a failure raises and changes nothing; otherwise the audio's row and, by the delete cascade, its favourites are gone, and nothing else changes |
| Persistence.AudioRemoved | src/Audiochan.Core/Entities/FavoriteAudio.cs:10-11 | removing an audio drops its row and exactly the favourites of that audio (the required AudioId relationship cascades), keeping every other row |
| Persistence.AudioRemovedKeepsReferences | src/Audiochan.Core/Entities/FavoriteAudio.cs:10-11 | the removal keeps the tables valid and every remaining favourite pointing at a stored audio, which removing the row alone would not |
| Persistence.Database.SaveUser | src/Audiochan.Core/Features/Users/UpdateUser/UpdateUserCommand.cs:47 | a failure raises and changes nothing; otherwise only the user's row is replaced |
| Persistence.Database.AddFavoriteRow | src/Audiochan.Core/Features/Favorites/FavoriteService.cs:71-73 | a failure or an audio id no stored audio has raises and changes nothing; otherwise the favourite row is added, created now, and the same favourite joins that audio's Favorited collection |
| Persistence.Database.RemoveFavoriteRow | src/Audiochan.Core/Features/Favorites/FavoriteService.cs:95-96 | a failure raises and changes nothing; otherwise the favourite row is gone and the user's favourite leaves the audio's Favorited collection |
| Persistence.Database.SaveAudioWithFavorites | src/Audiochan.Core/Features/Favorites/Audios/SetFavorite/SetFavoriteCommand.cs:47-51 | a failure, or a row the Audios configuration refuses (including one whose owner is not a stored user), raises and changes nothing; otherwise the row replaces the stored one and the FavoriteAudios table follows its Favorited collection |
| Persistence.FavoriteWritesKeepValid | src/Audiochan.Core/Features/Favorites/FavoriteService.cs:71-73 | adding a favourite of a stored audio, and dropping any favourite, keep every audio under its own key below the next identity |
| Persistence.FavoriteAddedKeepsLink | src/Audiochan.Core/Entities/FavoriteAudio.cs:10-11 | adding a new favourite appends it to exactly its audio's collection and keeps the table and the collections in step |
| Persistence.FavoriteDroppedKeepsLink | src/Audiochan.Core/Entities/FavoriteAudio.cs:10-11 | dropping a favourite keeps the table and the collections in step, and the user then has no favourite in that audio's collection |
| Persistence.FavoriteDroppedUndoesAdded | src/Audiochan.Core/Features/Favorites/FavoriteService.cs:71-96 | dropping a favourite just added to an audio without one of that user restores the tables |
| Persistence.FavoritesSavedKeepsLink | src/Audiochan.Core/Features/Favorites/Audios/SetFavorite/SetFavoriteCommand.cs:47-51 | saving an audio owned by a stored user whose collection holds one favourite per user, all of that audio, keeps the tables valid (every audio owned by a stored user) and the table and collections in step |
| Persistence.FavoritesSavedUnchanged | src/Audiochan.Core/Features/Favorites/Audios/SetFavorite/SetFavoriteCommand.cs:51 | saving an audio whose collection is the stored one is the plain save of the row |
| Persistence.SavedAudioKeepsLink | src/Audiochan.Core/Interfaces/IApplicationDbContext.cs:19 | saving a row owned by a stored user over a stored one keeps the tables valid, and keeps table and collections in step when the collection is unchanged |
| Persistence.AudioAddedKeepsLink | src/Audiochan.Core/Features/Audio/CreateAudio/CreateAudioCommand.cs:113-114 | the next identity is free; inserting a row owned by a stored user and without favourites under it keeps the tables valid and the table and collections in step |
| Persistence.PipelineEvents | src/Audiochan.Core/Common/Behaviors/DbContextTransactionPipelineBehavior.cs:27-37 | the handler runs only after the transaction begins, and the request ends in exactly one commit when nothing fails and in a rollback otherwise |
| Persistence.HandleInTransaction | src/Audiochan.Core/Common/Behaviors/DbContextTransactionPipelineBehavior.cs:23-40 | a request returns the handler's value with its tables committed, or rethrows with the tables as they were before the transaction |
| Persistence.PipelineAtomic | src/Audiochan.Infrastructure/Persistence/Pipelines/DbContextTransactionPipelineBehavior.cs:22-40 | a request is all or nothing: exactly one of commit and rollback, and the handler never runs before the transaction begins |
| CreateAudio.Prepare | src/Audiochan.Core/Features/Audio/CreateAudio/CreateAudioCommand.cs:93-98 | raises as the entity constructor does, or gives a fresh entity with the request's title, description, loop flag (first revision only) and public flag applied |
| CreateAudio.Compensate | src/Audiochan.Core/Features/Audio/CreateAudio/CreateAudioCommand.cs:124-128 | deletes the audio blob and rethrows the exception, or raises the storage failure of the delete |
| CreateAudio.Attach | src/Audiochan.Core/Features/Audio/CreateAudio/CreateAudioCommand.cs:105-111 | the entity gets the genre found for the request and the merged tags of the normalised request tags, none when the request has none |
| CreateAudio.Insert | src/Audiochan.Core/Features/Audio/CreateAudio/CreateAudioCommand.cs:103-128 | outcome, tables and bucket are those of the try block's specification, in which a row without a title, with an over-long title or extension, or whose owner is not a stored user makes the save raise |
| CreateAudio.Store | src/Audiochan.Core/Features/Audio/CreateAudio/CreateAudioCommand.cs:113-128 | outcome, tables and bucket are those of the insert-and-view specification, in which a row the Audios configuration refuses, an unknown owner included, makes the save raise and the blob be deleted |
| CreateAudio.Respond | src/Audiochan.Core/Features/Audio/CreateAudio/CreateAudioCommand.cs:116-128 | the view of the inserted audio for a stored caller; a caller who is not stored raises NullReferenceException and the catch deletes the audio blob (after a save, which needs a stored owner, this branch is not reached: `CreateAudio.InsertSpecTables`) |
| CreateAudio.Handle | src/Audiochan.Core/Features/Audio/CreateAudio/CreateAudioCommand.cs:85-129 | outcome, tables and bucket are those of the handler's specification, including the save that raises for a row the Audios configuration refuses, an unknown owner included |
| CreateAudio.PreparedKey | src/Audiochan.Core/Features/Audio/CreateAudio/CreateAudioCommand.cs:131-137 | the blob checked is named by the request's upload id and file extension in the audios container |
| CreateAudio.CreateSucceeds | src/Audiochan.Core/Features/Audio/CreateAudio/CreateAudioCommand.cs:85-129 | a success needs a caller in the users table, the blob in the bucket and a row the Audios configuration accepts; it keeps the bucket, inserts the created audio under the next id with its new tags, and returns its view |
| CreateAudio.CreateWithoutTitleRaises | src/Audiochan.Core/Features/Audio/CreateAudio/CreateAudioCommand.cs:93-128 | a request whose title is null and whose blob is found reaches the save, which raises; the tables are unchanged and the blob is deleted unless the delete fails |
| CreateAudio.SucceedsChecked | src/Audiochan.Core/Features/Audio/CreateAudio/CreateAudioCommand.cs:100-101 | a success means the blob check found the blob and the bucket is unchanged |
| CreateAudio.SucceedsInserted | src/Audiochan.Core/Features/Audio/CreateAudio/CreateAudioCommand.cs:113-122 | a success inserts the created audio under the next id with its new tags and returns its view for the caller |
| CreateAudio.CreatedRowFields | src/Audiochan.Core/Features/Audio/CreateAudio/CreateAudioCommand.cs:93-111 | the inserted audio is the caller's, public unless the request says otherwise, looping only when the first revision is asked to, titled from the file name unless the request title is blank, with exactly the normalised tag ids, the genre found and no favourites |
| CreateAudio.CreatedViewFields | src/Audiochan.Core/Features/Audio/CreateAudio/CreateAudioCommand.cs:116-120 | the view shows the audio with the caller as its user, not followed and with no favourites |
| CreateAudio.CreateBlobEffects | src/Audiochan.Core/Features/Audio/CreateAudio/CreateAudioCommand.cs:100-128 | the bucket loses at most the checked blob, and only when the try block raises and the delete succeeds |
| CreateAudio.CreateRefusesMissingBlob | src/Audiochan.Core/Features/Audio/CreateAudio/CreateAudioCommand.cs:100-101 | "Cannot find audio in storage." is answered exactly when the entity is valid and the blob is not found, and then nothing changes |
| CreateAudio.InsertSpecBlob | src/Audiochan.Core/Features/Audio/CreateAudio/CreateAudioCommand.cs:103-128 | the try block deletes the blob exactly when it raises, unless the delete fails, and never returns a failure result |
| CreateAudio.CreateFailureEffects | src/Audiochan.Core/Features/Audio/CreateAudio/CreateAudioCommand.cs:103-128 | every call that raises leaves the tables as they were, and a call that changes them succeeds; for a caller who is not a stored user, once the blob is found, the save raises, nothing is stored and the blob is deleted unless the delete fails |
| CreateAudio.InsertSpecTables | src/Audiochan.Core/Features/Audio/CreateAudio/CreateAudioCommand.cs:111-128 | the tables are untouched when the insert fails, and otherwise hold the audio under the next identity; for an audio owned by the caller the try block raises exactly when the insert fails, which it always does for a caller who is not a stored user |
| CreateAudio.CreateRevisionsAgree | src/Audiochan.Core/Features/Audios/CreateAudio/CreateAudioCommand.cs:87-129 | when the request's loop flag is unset or false the two revisions behave alike |
| CreateAudio.CreateRejectsInvalidInput | src/Audiochan.Core/Features/Audios/CreateAudio/CreateAudioCommand.cs:92 | an empty upload id, a blank file name or a missing caller raises before storage or tables are touched |
| UpdateAudio.Edited | src/Audiochan.Core/Features/Audio/UpdateAudio/UpdateAudioCommand.cs:66-102 | the first revision's edit never changes the audio's id or owner |
| UpdateAudio.ReplaceTags | src/Audiochan.Core/Features/Audio/UpdateAudio/UpdateAudioCommand.cs:91-101 | the two loops, tag by tag, drop the tags not among the new ones and append the new ones not yet present |
| UpdateAudio.AssignFields | src/Audiochan.Core/Features/Audio/UpdateAudio/UpdateAudioCommand.cs:66-85 | the new row is the assignments followed by the genre found |
| UpdateAudio.AssignDirect | src/Audiochan.Core/Features/Audio/UpdateAudio/UpdateAudioCommand.cs:66-74 | a non-blank title, and any non-null description and flags, are assigned |
| UpdateAudio.EditLoaded | src/Audiochan.Core/Features/Audio/UpdateAudio/UpdateAudioCommand.cs:53-102 | a fresh entity loaded from the row holds the first revision's edit |
| UpdateAudio.HandleInContext | src/Audiochan.Core/Features/Audio/UpdateAudio/UpdateAudioCommand.cs:46-114 | a failing begin raises and changes nothing; otherwise outcome, tables and transaction calls are those of the first revision's specification |
| UpdateAudio.InTransaction | src/Audiochan.Core/Features/Audio/UpdateAudio/UpdateAudioCommand.cs:49-113 | outcome, tables and transaction calls are those of the first revision's specification once the transaction is open |
| UpdateAudio.SaveInContext | src/Audiochan.Core/Features/Audio/UpdateAudio/UpdateAudioCommand.cs:104-107 | outcome, tables and transaction calls are those of the save, commit and projection specification |
| UpdateAudio.Updated | src/Audiochan.Core/Features/Audios/UpdateAudio/UpdateAudioCommand.cs:63-82 | the second revision's edit never changes the audio's id or owner |
| UpdateAudio.HandleWithRepositories | src/Audiochan.Core/Features/Audios/UpdateAudio/UpdateAudioCommand.cs:49-92 | outcome and tables are those of the second revision's specification, in which an edited row the Audios configuration refuses makes the save raise |
| UpdateAudio.UpdateLoaded | src/Audiochan.Core/Features/Audios/UpdateAudio/UpdateAudioCommand.cs:63-82 | a fresh entity loaded from the row holds the second revision's edit |
| UpdateAudio.SaveWithRepository | src/Audiochan.Core/Features/Audios/UpdateAudio/UpdateAudioCommand.cs:84-91 | outcome and tables are those of the update and projection specification, in which an edited row the Audios configuration refuses makes the save raise |
| UpdateAudio.HandlerTagsProperties | src/Audiochan.Core/Features/Audio/UpdateAudio/UpdateAudioCommand.cs:91-101 | the loops leave exactly the new tags' ids, each once when the audio's ids were unique, and on a tagged audio they do what Audio.UpdateTags does |
| UpdateAudio.NewTagsIds | src/Audiochan.Core/Features/Audio/UpdateAudio/UpdateAudioCommand.cs:89 | the request's tags resolve to tags whose ids are its normalised ids |
| UpdateAudio.EditedFields | src/Audiochan.Core/Features/Audio/UpdateAudio/UpdateAudioCommand.cs:66-102 | a non-blank title replaces the old one; description and flags keep their values when null; the genre changes only to the stored genre a change request names; the tags become the normalised request tags; nothing else changes |
| UpdateAudio.AssignedFields | src/Audiochan.Core/Features/Audio/UpdateAudio/UpdateAudioCommand.cs:66-85 | the assignments and the genre step of the first revision, field by field |
| UpdateAudio.UpdatedFields | src/Audiochan.Core/Features/Audios/UpdateAudio/UpdateAudioCommand.cs:63-82 | a null or blank title is assigned and any other title ignored; the loop flag never changes; genre and tags as in the first revision |
| UpdateAudio.SettersFields | src/Audiochan.Core/Features/Audios/UpdateAudio/UpdateAudioCommand.cs:80-82 | UpdateTitle, UpdateDescription and UpdatePublicStatus in a row, field by field |
| UpdateAudio.RevisionsDisagree | src/Audiochan.Core/Features/Audios/UpdateAudio/UpdateAudioCommand.cs:80-82 | the revisions disagree on the title exactly when the request's title differs from the stored one, and on the loop flag exactly when the request sets a new value; they agree on the rest |
| UpdateAudio.ContextRefusals | src/Audiochan.Core/Features/Audio/UpdateAudio/UpdateAudioCommand.cs:60-85 | a missing audio is NotFound, another owner's audio Forbidden and an unknown genre BadRequest, each leaving the tables as they were; success exactly when the checks pass, the edited row is one the Audios configuration accepts (owner included), and the save and the commit go through |
| UpdateAudio.ContextAtomic | src/Audiochan.Core/Features/Audio/UpdateAudio/UpdateAudioCommand.cs:48-113 | the tables change only through a commit, and then only in the edited audio and its new tags; every exception leaves them as they were, and a committed call returns its view |
| UpdateAudio.ContextSaveAtomic | src/Audiochan.Core/Features/Audio/UpdateAudio/UpdateAudioCommand.cs:104-113 | the save step commits exactly when the edited row is storable and the save and the commit succeed, and then changes only the edited audio and returns its view; otherwise it rolls back with the tables as they were |
| UpdateAudio.RepositoryRefusals | src/Audiochan.Core/Features/Audios/UpdateAudio/UpdateAudioCommand.cs:57-68 | the same refusals with nothing changed; success exactly when the checks pass, the edited row is one the Audios configuration accepts (owner included) and the save goes through |
| UpdateAudio.RepositoryChanges | src/Audiochan.Core/Features/Audios/UpdateAudio/UpdateAudioCommand.cs:84-91 | the tables change only in the updated audio and its tags, and only by a call that succeeds; every exception leaves them as they were |
| UpdateAudio.RepositorySaveChanges | src/Audiochan.Core/Features/Audios/UpdateAudio/UpdateAudioCommand.cs:84-91 | a failed save, or an edited row the Audios configuration refuses, raises and changes nothing; otherwise only the updated audio and its tags change and the call returns its view |
| UpdateAudio.RepositoryWithoutTitleRaises | src/Audiochan.Core/Features/Audios/UpdateAudio/UpdateAudioCommand.cs:80-91 | a permitted request with a null title makes UpdateTitle store a null title, so the save raises and the tables are unchanged |
| RemoveAudio.Handle | src/Audiochan.Core/Features/Audio/RemoveAudio/RemoveAudioCommand.cs:31-56 | outcome, tables and bucket are those of the handler's specification, whose removal cascades to the audio's favourites |
| RemoveAudio.DeleteBlobs | src/Audiochan.Core/Features/Audio/RemoveAudio/RemoveAudioCommand.cs:48-54 | the audio blob's delete and, for a non-empty path, the picture's are both attempted; either failure raises |
| RemoveAudio.RemoveRefusals | src/Audiochan.Core/Features/Audios/RemoveAudio/RemoveAudioCommand.cs:38-42 | a missing audio is NotFound and another owner's audio Forbidden; a refusal, like a failed save, touches neither the row nor any blob |
| RemoveAudio.RemoveEffects | src/Audiochan.Core/Features/Audio/RemoveAudio/RemoveAudioCommand.cs:44-55 | once the owner's save succeeds the row and exactly the favourites of that audio are gone whatever the deletes do, and the remaining favourites still point at stored audios; the audio blob's delete is always issued, the picture's only for a non-empty path, and no other row or blob changes |
| RemoveAudio.RemoveWithoutPicture | src/Audiochan.Core/Features/Audios/RemoveAudio/RemoveAudioCommand.cs:50-51 | without a picture, only the audio blob can disappear |
| Pictures.GuidNameInjective | src/Audiochan.Core/Features/Audio/UpdatePicture/UpdateAudioPictureCommand.cs:34 | a name made of a fixed prefix, a guid's digits and a fixed suffix determines the guid |
| Pictures.AudioPictureKeySplits | src/Audiochan.Core/Features/Audio/UpdatePicture/UpdateAudioPictureCommand.cs:34 | the audio picture's key is its blob name in the audio pictures container |
| Pictures.AudioPictureKeyJoins | src/Audiochan.Core/Features/Audio/UpdatePicture/UpdateAudioPictureCommand.cs:34 | the audio picture's key is "pictures/audios/<id>_<guid>.jpg" |
| Pictures.AudioPictureKeyShape | src/Audiochan.Core/Features/Audio/UpdatePicture/UpdateAudioPictureCommand.cs:34 | the key has that shape, and two guids give two keys for the same audio |
| Pictures.UserPictureKeyJoins | src/Audiochan.Core/Features/Users/UpdatePicture/UpdateUserPictureCommand.cs:36 | for a user id without a separator at either end, the key is "pictures/users/<user id>/<guid>.jpg" |
| Pictures.UserPictureKeySplits | src/Audiochan.Core/Features/Users/UpdatePicture/UpdateUserPictureCommand.cs:36 | Path.Combine gives "<user id>/<guid>.jpg", and the key is that name in the user pictures container |
| Pictures.UserPictureKeyShape | src/Audiochan.Core/Features/Users/UpdatePicture/UpdateUserPictureCommand.cs:36 | the key has that shape, and two guids give two keys for the same user |
| Pictures.Replace | src/Audiochan.Core/Features/Audio/UpdatePicture/UpdateAudioPictureCommand.cs:44-50 | the old picture's delete and the upload leave the response and the bucket of the replacement specification |
| Pictures.ReplacedOutcome | src/Audiochan.Core/Features/Audios/UpdatePicture/UpdateAudioPictureCommand.cs:49-57 | the replacement succeeds exactly when no external call fails, giving the new key's URL; the old picture is gone, the new key written, and no other blob changes |
| Pictures.UpdateAudioPicture | src/Audiochan.Core/Features/Audio/UpdatePicture/UpdateAudioPictureCommand.cs:32-60 | outcome, tables and bucket are those of the handler's specification |
| Pictures.TryUpdateAudioPicture | src/Audiochan.Core/Features/Audio/UpdatePicture/UpdateAudioPictureCommand.cs:37-53 | outcome, tables and bucket are those of the try block's specification |
| Pictures.ReplaceOwnAudioPicture | src/Audiochan.Core/Features/Audio/UpdatePicture/UpdateAudioPictureCommand.cs:44-53 | outcome, tables and bucket are those of the owner's try block |
| Pictures.SavePicture | src/Audiochan.Core/Features/Audio/UpdatePicture/UpdateAudioPictureCommand.cs:51-53 | the upload's exception is rethrown; otherwise the path is recorded and saved and the URL returned |
| Pictures.AudioPictureRefusals | src/Audiochan.Core/Features/Audio/UpdatePicture/UpdateAudioPictureCommand.cs:42-43 | a missing audio is NotFound and another owner's audio Forbidden, touching neither the tables nor the bucket |
| Pictures.AudioPictureSucceeds | src/Audiochan.Core/Features/Audios/UpdatePicture/UpdateAudioPictureCommand.cs:32-66 | the picture is replaced exactly when the caller owns the audio, its row is one the Audios configuration accepts and no external call fails |
| Pictures.CaughtSucceeds | src/Audiochan.Core/Features/Audio/UpdatePicture/UpdateAudioPictureCommand.cs:55-59 | the catch block only rethrows: a handler succeeds exactly when its try block does |
| Pictures.OwnAudioPictureSucceeds | src/Audiochan.Core/Features/Audio/UpdatePicture/UpdateAudioPictureCommand.cs:44-53 | the owner's try block succeeds exactly when the audio's row is storable and no call fails |
| Pictures.AudioPictureReplaced | src/Audiochan.Core/Features/Audio/UpdatePicture/UpdateAudioPictureCommand.cs:44-53 | on success the saved picture is the new key and the result its URL; the old blob is gone, the new one written, and no other audio or blob changes |
| Pictures.AudioPictureFailureCleansUp | src/Audiochan.Core/Features/Audio/UpdatePicture/UpdateAudioPictureCommand.cs:55-59 | any exception leaves the tables as they were and raises the failing call's exception or the delete's; when the delete succeeds the new key is absent |
| Pictures.CaughtCleansUp | src/Audiochan.Core/Features/Audio/UpdatePicture/UpdateAudioPictureCommand.cs:55-59 | after a try block that added no blob but the new key, the catch block removes it or raises the delete's StorageException |
| Pictures.AudioPictureDanglingAfterFailure | src/Audiochan.Core/Features/Audio/UpdatePicture/UpdateAudioPictureCommand.cs:44-52 | the old picture is deleted before the upload and the save: when either then fails, the stored audio keeps the path of a blob that no longer exists |
| Pictures.UpdateUserPicture | src/Audiochan.Core/Features/Users/UpdatePicture/UpdateUserPictureCommand.cs:34-57 | outcome, tables and bucket are those of the handler's specification |
| Pictures.TryUpdateUserPicture | src/Audiochan.Core/Features/Users/UpdatePicture/UpdateUserPictureCommand.cs:39-49 | outcome, tables and bucket are those of the try block's specification |
| Pictures.UpdateUser | src/Audiochan.Core/Features/Users/UpdatePicture/UpdateUserPictureCommand.cs:48 | a rejected update saves nothing and is not an error; an accepted one replaces the user's row |
| Pictures.UserPictureRefusals | src/Audiochan.Core/Features/Users/UpdatePicture/UpdateUserPictureCommand.cs:36-40 | a null user id raises ArgumentNullException and an unknown one is Unauthorized, touching neither the tables nor the bucket |
| Pictures.KnownUserPictureOutcome | src/Audiochan.Core/Features/Users/UpdatePicture/UpdateUserPictureCommand.cs:39-56 | for a stored user the handler neither raises ArgumentNullException nor reports Unauthorized, whatever the later calls do |
| Pictures.UserPictureSucceeds | src/Audiochan.Core/Features/Users/UpdatePicture/UpdateUserPictureCommand.cs:34-57 | the handler succeeds exactly when the user exists and no call throws, even when the update is rejected |
| Pictures.TryUserPictureSucceeds | src/Audiochan.Core/Features/Users/UpdatePicture/UpdateUserPictureCommand.cs:39-49 | the try block succeeds exactly when the user exists and no call throws |
| Pictures.UserPictureReplaced | src/Audiochan.Core/Features/Users/UpdatePicture/UpdateUserPictureCommand.cs:41-49 | on success the new blob is written, the old one deleted and the new key's URL returned, but only an accepted update records the new path |
| Pictures.UserPictureFailureCleansUp | src/Audiochan.Core/Features/Users/UpdatePicture/UpdateUserPictureCommand.cs:51-56 | any exception leaves the tables as they were; when the delete succeeds the new key is absent, otherwise the delete's StorageException is raised |
| AudioService.CreateNewTags | src/Audiochan.Core/Features/Audios/AudioService.cs:305-320 | the stored tags for the normalised ids, then a new tag for each id with none; every normalised id is covered and no other |
| AudioService.Create | src/Audiochan.Core/Features/Audios/AudioService.cs:109-175 | outcome, tables, bucket and transaction calls are those of Create's specification, in which an audio without a stored owner makes the insert raise |
| AudioService.CreateBegun | src/Audiochan.Core/Features/Audios/AudioService.cs:112-174 | once the transaction is open, outcome, tables, bucket and transaction calls follow the specification, in which the insert of an audio without a stored owner raises and is rolled back |
| AudioService.CreateInTransaction | src/Audiochan.Core/Features/Audios/AudioService.cs:137-174 | the try and catch blocks leave the state of their specification |
| AudioService.RollBackCreate | src/Audiochan.Core/Features/Audios/AudioService.cs:168-174 | the rollback, then the delete of the source key, whose failure replaces the exception being rethrown |
| AudioService.Draft | src/Audiochan.Core/Features/Audios/AudioService.cs:113-135 | the object initialiser and the file branch give the drafted audio |
| AudioService.ApplyFile | src/Audiochan.Core/Features/Audios/AudioService.cs:127-135 | an attached file sets the size, the extension, the duration and, when the title is blank, the title |
| AudioService.Attach | src/Audiochan.Core/Features/Audios/AudioService.cs:139-144 | the caller, the genre found and the merged tags are assigned, and no tags for a request without any |
| AudioService.TryStore | src/Audiochan.Core/Features/Audios/AudioService.cs:146-166 | the insert, the file branch, the commit and the projection leave the state of their specification, in which the insert raises for an audio the Audios configuration refuses, an unknown owner included |
| AudioService.UploadFile | src/Audiochan.Core/Features/Audios/AudioService.cs:149-163 | the new upload id, the metadata entry that dereferences the caller, the upload and the second save |
| AudioService.Conclude | src/Audiochan.Core/Features/Audios/AudioService.cs:165-166 | the commit, then the projection, which dereferences the caller |
| AudioService.CreatedRowFields | src/Audiochan.Core/Features/Audios/AudioService.cs:113-144 | the title is the request's when not blank, else the file name without extension, else the attached file's; public and not looping by default; size, extension and duration from the attached file when there is one; exactly the normalised tag ids |
| AudioService.TryCreateOutcomes | src/Audiochan.Core/Features/Audios/AudioService.cs:137-167 | the try block completes exactly when the drafted row is one the Audios configuration accepts, the insert, the file branch and the commit succeed and the caller exists |
| AudioService.TryCreateStores | src/Audiochan.Core/Features/Audios/AudioService.cs:146-163 | a completed try block, for a storable row, stores the audio under the next identity and writes the attached file with the caller's id as metadata |
| AudioService.TryCreateUploadFails | src/Audiochan.Core/Features/Audios/AudioService.cs:161-165 | when the upload succeeded and the second save or the commit fails, the uploaded blob is in the bucket |
| AudioService.ClosedBeforeCommit | src/Audiochan.Core/Features/Audios/AudioService.cs:168-174 | after a failure before the commit the tables are restored and the only blob deleted is the source key |
| AudioService.ClosedKeepsUpload | src/Audiochan.Core/Features/Audios/AudioService.cs:161-174 | after an upload whose second save or commit fails, the tables are restored and the uploaded blob remains |
| AudioService.ClosedReturns | src/Audiochan.Core/Features/Audios/AudioService.cs:168-174 | the catch block always rethrows: Create returns exactly when its try block completes |
| AudioService.ClosedAfterCommit | src/Audiochan.Core/Features/Audios/AudioService.cs:165-172 | after a failure past the commit the rollback has nothing to undo |
| AudioService.CreateSucceeds | src/Audiochan.Core/Features/Audios/AudioService.cs:109-175 | given valid tables, Create succeeds exactly when the caller is a stored user, the drafted columns fit the Audios configuration (a title of at most 100 characters, an extension of at most 10) and no call fails |
| AudioService.AttachedStorable | src/Audiochan.Infrastructure/Persistence/Configurations/AudioConfiguration.cs:11-35 | given valid tables, the attached audio is one the Audios configuration accepts exactly when the drafted columns fit and the caller is a stored user |
| AudioService.CreateStores | src/Audiochan.Core/Features/Audios/AudioService.cs:146-166 | given valid tables, on success the audio is stored under the next identity and returned with its owner, the transaction is committed, and the attached file is the only blob written |
| AudioService.SourceKeyIsNotWrittenKey | src/Audiochan.Core/Features/Audios/AudioService.cs:157 | the catch block's key audios/<upload id>/source<ext> is never the written key audios/<upload id><ext> |
| AudioService.CreateOrphansUpload | src/Audiochan.Core/Features/Audios/AudioService.cs:161-174 | given valid tables, when the upload succeeded and a later save or the commit fails, the tables are rolled back but the uploaded blob stays |
| AudioService.CreateRefusesOwnerless | src/Audiochan.Core/Features/Audios/AudioService.cs:112-174 | without a caller who is a stored user the insert raises: the tables are rolled back to what they were, the source key is deleted unless the delete fails, and nothing is committed |
| AudioService.CreateAtomic | src/Audiochan.Core/Features/Audios/AudioService.cs:112-174 | every call that raises does so before any commit and leaves the tables as they were |
| AudioService.Edited | src/Audiochan.Core/Features/Audios/AudioService.cs:196-224 | Update's edit never changes the audio's id or owner |
| AudioService.Update | src/Audiochan.Core/Features/Audios/AudioService.cs:177-236 | outcome, tables and transaction calls are those of Update's specification |
| AudioService.UpdateInTransaction | src/Audiochan.Core/Features/Audios/AudioService.cs:181-235 | once the transaction is open, outcome, tables and transaction calls follow the specification |
| AudioService.EditInTransaction | src/Audiochan.Core/Features/Audios/AudioService.cs:196-235 | the try block of an owner's call leaves the state of its specification |
| AudioService.AssignChanges | src/Audiochan.Core/Features/Audios/AudioService.cs:198-201 | the null-coalescing assignments |
| AudioService.SaveUpdated | src/Audiochan.Core/Features/Audios/AudioService.cs:226-229 | the save, the commit and the projection |
| AudioService.UpdateRefusals | src/Audiochan.Core/Features/Audios/AudioService.cs:192-209 | NotFound for a missing audio, Forbidden for another owner, BadRequest for an unknown genre; each refusal rolls back and changes nothing |
| AudioService.UpdateSucceeds | src/Audiochan.Core/Features/Audios/AudioService.cs:177-236 | Update succeeds exactly when the caller owns the audio, the genre is known, the edited row is one the Audios configuration accepts (owner included) and neither the save nor the commit fails; the edited audio is then saved and returned |
| AudioService.EditedFields | src/Audiochan.Core/Features/Audios/AudioService.cs:198-201 | a non-null title replaces the stored one even when blank; null description and flags keep their values; picture, upload id and favourites are untouched |
| AudioService.EditedTags | src/Audiochan.Core/Features/Audios/AudioService.cs:196-224 | the tag ids become exactly the normalised request ids, so a request without tags clears them |
| AudioService.UpdateRevisionsDisagreeOnBlankTitle | src/Audiochan.Core/Features/Audios/AudioService.cs:198 | a blank non-null title is stored by Update, while the command handler keeps the old title |
| AudioService.UpdateAtomic | src/Audiochan.Core/Features/Audios/AudioService.cs:180-235 | every call that raises does so before its commit and leaves the tables as they were; a committed call returns the saved audio |
| AudioService.Remove | src/Audiochan.Core/Features/Audios/AudioService.cs:238-258 | the row removal and both deletes are issued before the first failure is rethrown; the state is that of Remove's specification, whose removal cascades to the audio's favourites |
| AudioService.RemoveOutcomes | src/Audiochan.Core/Features/Audios/AudioService.cs:245-257 | NotFound for a missing audio and Forbidden for another owner with nothing removed; otherwise success exactly when no task fails, and then the row, exactly the favourites of that audio, its audio blob and its picture blob are gone and nothing else changes |
| AudioService.RemoveDeletesMissingPicture | src/Audiochan.Core/Features/Audios/AudioService.cs:255 | the picture delete is issued even for an audio without a picture, so its failure makes Remove raise |
| AudioService.RemoveSaveFailureKeepsRow | src/Audiochan.Core/Features/Audios/AudioService.cs:251-256 | a failing save leaves the row in place after the blob deletes were issued |
| AudioService.AddPicture | src/Audiochan.Core/Features/Audios/AudioService.cs:260-291 | outcome, tables, bucket and transaction calls are those of AddPicture's specification |
| AudioService.AddPictureBegun | src/Audiochan.Core/Features/Audios/AudioService.cs:263-290 | once the transaction is open, the state follows the specification |
| AudioService.TryAddPictureInTransaction | src/Audiochan.Core/Features/Audios/AudioService.cs:264-283 | the try block, where a refusal disposes the transaction |
| AudioService.SavePicture | src/Audiochan.Core/Features/Audios/AudioService.cs:279-282 | a failing save, a row the Audios configuration refuses or a failing commit raises with the transaction still open; otherwise the row with the new picture path is saved, committed and the picture's URL returned |
| AudioService.AddPictureRefusals | src/Audiochan.Core/Features/Audios/AudioService.cs:275-277 | NotFound for a missing audio and Forbidden for another owner, before any storage call, changing nothing |
| AudioService.AddPictureSucceeds | src/Audiochan.Core/Features/Audios/AudioService.cs:260-291 | AddPicture succeeds exactly when the caller owns the audio, its row is one the Audios configuration accepts and no call fails |
| AudioService.TryAddPictureSucceeds | src/Audiochan.Core/Features/Audios/AudioService.cs:264-283 | the try block succeeds exactly when the caller owns the audio, its row is storable and no call fails |
| AudioService.AddPictureKeepsOldBlob | src/Audiochan.Core/Features/Audios/AudioService.cs:278-282 | on success the picture is the new key and the result its URL; the old picture's blob is not deleted |
| AudioService.AddPictureFailureCleansUp | src/Audiochan.Core/Features/Audios/AudioService.cs:284-290 | any exception leaves the tables as they were and, when the delete succeeds, removes the new key |
| Favorites.Favorite | src/Audiochan.Core/Features/Favorites/FavoriteService.cs:46-77 | result and tables are those of FavoriteAudio's specification |
| Favorites.Unfavorite | src/Audiochan.Core/Features/Favorites/FavoriteService.cs:79-100 | result and tables are those of UnfavoriteAudio's specification |
| Favorites.FavoriteRefusals | src/Audiochan.Core/Features/Favorites/FavoriteService.cs:49-62 | an unknown caller is Unauthorized, a missing audio BadRequest and the caller's own audio Forbidden, in that order; none changes a table |
| Favorites.FavoriteSucceeds | src/Audiochan.Core/Features/Favorites/FavoriteService.cs:64-76 | success exactly when the checks pass and the pair is already favourited or the save goes through; afterwards the pair is favourited, an existing row keeps its creation time, only that audio's Favorited collection changes among the audios, and nothing else changes |
| Favorites.FavoriteKeepsLink | src/Audiochan.Core/Features/Favorites/FavoriteService.cs:64-76 | a successful FavoriteAudio keeps the table and the collections in step, the caller then has a favourite in the audio's collection, which grows by one exactly when the pair was new, and no other user's favourite changes |
| Favorites.FavoriteIdempotent | src/Audiochan.Core/Features/Favorites/FavoriteService.cs:64-74 | favouriting twice is favouriting once: the second call succeeds and changes nothing |
| Favorites.UnfavoriteRefusals | src/Audiochan.Core/Features/Favorites/FavoriteService.cs:82-86 | an unknown caller is Unauthorized and a missing audio NotFound; the owner may unfavourite; none changes a table |
| Favorites.UnfavoriteSucceeds | src/Audiochan.Core/Features/Favorites/FavoriteService.cs:88-99 | UnfavoriteAudio succeeds whether or not the pair was favourited; afterwards it is not, only that audio's Favorited collection changes among the audios, and nothing else changed |
| Favorites.UnfavoriteKeepsLink | src/Audiochan.Core/Features/Favorites/FavoriteService.cs:88-99 | a successful UnfavoriteAudio keeps the table and the collections in step, the caller then has no favourite in the collection, which shrinks by one exactly when the pair was favourited, and no other user's favourite changes |
| Favorites.UnfavoriteUndoesFavorite | src/Audiochan.Core/Features/Favorites/FavoriteService.cs:46-100 | unfavouriting a pair FavoriteAudio has just added restores the tables |
| Favorites.FavoritesOfUser | src/Audiochan.Core/Features/Favorites/FavoriteService.cs:39 | exactly the favourites whose user is named username.ToLower() |
| Favorites.NewestExists | src/Audiochan.Core/Features/Favorites/FavoriteService.cs:40 | a non-empty set of favourites has a most recent one |
| Favorites.NewestFirstUnfolds | src/Audiochan.Core/Features/Favorites/FavoriteService.cs:40 | the first entry of the ordering is a most recent favourite, and the rest orders the others |
| Favorites.NewestFirstEntries | src/Audiochan.Core/Features/Favorites/FavoriteService.cs:40 | each entry is a favourite with its own creation time and audio, one entry per favourite |
| Favorites.NewestFirstCovers | src/Audiochan.Core/Features/Favorites/FavoriteService.cs:40 | every favourite has an entry |
| Favorites.NewestFirstOrdered | src/Audiochan.Core/Features/Favorites/FavoriteService.cs:40 | no favourite has two entries, and the entries run from the most recent to the oldest |
| Favorites.GetUserFavorites | src/Audiochan.Core/Features/Favorites/FavoriteService.cs:27-44 | the listed audios are those of the user's favourites, in the order of the favourites |
| Favorites.UserFavoritesNewestFirst | src/Audiochan.Core/Features/Favorites/FavoriteService.cs:39-41 | the listed audios are those of the favourites of the user named username.ToLower(), each favourite once, most recent first |
| Favorites.SetFavorite | src/Audiochan.Core/Features/Favorites/Audios/SetFavorite/SetFavoriteCommand.cs:32-54 | result and tables are those of the handler's specification |
| Favorites.SetFavoriteRefusals | src/Audiochan.Core/Features/Favorites/Audios/SetFavorite/SetFavoriteCommand.cs:34-45 | an unknown caller, a missing audio and the caller's own audio are refused in that order; none changes a table |
| Favorites.SetFavoriteSucceeds | src/Audiochan.Core/Features/Favorites/Audios/SetFavorite/SetFavoriteCommand.cs:47-53 | success exactly when the caller exists, the audio exists and is not the caller's, the caller id is not blank, and the save of a storable row goes through; the flag is then IsFavoriting, the caller has a favourite on the audio exactly when asked for one, one favourite per user is kept and no other user's changes |
| Favorites.SetFavoriteKeepsLink | src/Audiochan.Core/Features/Favorites/Audios/SetFavorite/SetFavoriteCommand.cs:47-53 | a success keeps the FavoriteAudios table in step with the collections: the pair is a table row exactly when IsFavoriting, a new row is created now, and no other row changes |
| Favorites.SetFavoriteBlankCaller | src/Audiochan.Core/Features/Favorites/Audios/SetFavorite/SetFavoriteCommand.cs:47-49 | a blank caller id that passes the existence check makes the entity raise ArgumentNullException, and nothing is saved |
| Profiles.UsersNamed | src/Audiochan.Core/Features/Followers/SetFollow/SetFollowCommand.cs:33-34 | exactly the ids of the users with the name |
| Profiles.FindByUserName | src/Audiochan.Core/Features/Followers/SetFollow/SetFollowCommand.cs:33-34 | null when no user has the name, that user when one has, InvalidOperationException when several have |
| Profiles.SetFollow | src/Audiochan.Core/Features/Followers/SetFollow/SetFollowCommand.cs:28-49 | result and tables are those of the handler's specification |
| Profiles.SetFollowRefusals | src/Audiochan.Core/Features/Followers/SetFollow/SetFollowCommand.cs:30-40 | an unknown caller, no user with the trimmed lower-cased name, and that user being the caller are refused in that order; none changes a table |
| Profiles.SetFollowSucceeds | src/Audiochan.Core/Features/Followers/SetFollow/SetFollowCommand.cs:42-48 | on success the target is the one user with the name, not the caller, its followers are those the follower operation gives, the flag is the operation's, and no other user changes |
| Profiles.SetFollowFollowings | src/Audiochan.Core/Features/Followers/SetFollow/SetFollowCommand.cs:42-46 | on success the caller's following rows outside the target are unchanged, and in the target they are exactly the caller's places among the target's updated followers |
| Profiles.SetFollowAmbiguousName | src/Audiochan.Core/Features/Followers/SetFollow/SetFollowCommand.cs:33-34 | several users with the looked-up name make the lookup raise |
| Profiles.UpdateUser | src/Audiochan.Core/Features/Users/UpdateUser/UpdateUserCommand.cs:30-49 | result and tables are those of the handler's specification |
| Profiles.UpdateUserOutcomes | src/Audiochan.Core/Features/Users/UpdateUser/UpdateUserCommand.cs:32-48 | an unknown user is Unauthorized and changes nothing; otherwise Success(true) unless the user manager throws, whether or not the display name was accepted; a saved user follows the display-name rule and keeps About and Website when they are null |
| Accounts.ProfileFollowing | src/Audiochan.Core/Common/Mappings/UserMappings.cs:11-27 | the follow flag is unset exactly for an anonymous caller and otherwise says whether the caller follows the user; the follower count is the size of the followers collection |
| Accounts.ProfileCounts | src/Audiochan.Core/Common/Mappings/UserMappings.cs:20-22 | the following count is positive exactly when some stored user has the user as a follower, and the audio count exactly when some stored audio is the user's |
| Accounts.OwnedAudiosAdded | src/Audiochan.Core/Common/Mappings/UserMappings.cs:20 | inserting an audio under a new key raises the owner's audio count by one and leaves every other user's |
| Accounts.OwnedAudiosRemoved | src/Audiochan.Core/Common/Mappings/UserMappings.cs:20 | removing an audio lowers its owner's audio count by one and leaves every other user's |
| Accounts.UserProfileFollowing | src/Audiochan.Core/Features/Users/Mappings/UserProfileMapping.cs:11-25 | the follow flag is always set, true exactly when the caller is among the followers |
| Accounts.ProfileMappingsAgree | src/Audiochan.Core/Features/Users/Mappings/UserProfileMapping.cs:11-25 | the two profile projections agree except on the flag of an anonymous caller |
| Accounts.UpdatedUserRules | src/Audiochan.Core/Features/Users/UpdateUser/UpdateUserCommand.cs:35-46 | the display name changes only to a value equal to the user name up to case and trimming; About and Website keep their values when the request leaves them null; nothing else changes |
| Accounts.DisplayNameLowerCaseAccepted | src/Audiochan.Core/Features/Users/UpdateUser/UpdateUserCommand.cs:36-42 | the lower-cased user name is always accepted as a display name |
| TagMerge.AsTags | src/Audiochan.Core/Services/TagService.cs:29-32 | one new tag per id, in order, carrying that id |
| TagMerge.AsTagsIds | src/Audiochan.Core/Services/TagService.cs:29-32 | the new tags carry exactly the given ids |
| TagMerge.MergeTags | src/Audiochan.Core/Features/Tags/CreateTags/CreateTagsCommand.cs:26-40 | the query and the loop, one tag at a time, give the stored tags whose id is requested followed by a new tag per id still missing |
| TagMerge.AddMissingOrigin | src/Audiochan.Core/Services/TagService.cs:29-32 | every tag after the loop was already in the list or is a requested tag whose id the list did not have |
| TagMerge.MergedTagsIds | src/Audiochan.Core/Services/TagService.cs:21-35 | the result has a tag for every requested id and no tag for any other id |
| TagMerge.MergedTagsReuses | src/Audiochan.Infrastructure/Persistence/Repositories/TagRepository.cs:27-29 | a stored tag whose id is requested is returned itself |
| TagMerge.MergedTagsCreatesOnlyMissing | src/Audiochan.Infrastructure/Persistence/Repositories/TagRepository.cs:31-34 | a tag that was not stored is returned only for an id no stored tag has |
| TagMerge.MergedTagsUnique | src/Audiochan.Core/Services/TagService.cs:21-35 | with unique stored ids the result has exactly one tag per requested id |
| Genres.FirstMatch | src/Audiochan.Core/Services/GenreService.cs:34 | the position of the first genre matching the id or the slug, none only when no genre matches |
| Genres.GetGenre | src/Audiochan.Core/Services/GenreService.cs:21-35 | null for blank input; otherwise the first stored genre whose id is the parsed number or whose slug is the trimmed, lower-cased input, and null when none matches |
| Genres.ParsedIdCases | src/Audiochan.Core/Features/Genres/GetGenre/GetGenreQuery.cs:32-35 | an input without digits looks genres up by id 0, and a printed 64-bit number parses back to itself |
| Genres.GetGenreByPrintedId | src/Audiochan.Infrastructure/Persistence/Repositories/GenreRepository.cs:26-40 | the first stored genre is found by its printed id |
| Genres.AudioCount | src/Audiochan.Core/Features/Genres/ListGenre/ListGenreQuery.cs:52 | a genre's audio count is at most the number of audios |
| Genres.AudioCountIsMultiplicity | src/Audiochan.Core/Features/Genres/ListGenre/ListGenreQuery.cs:52 | the count is the number of audios referring to the genre |
| Genres.NameLeTotal | src/Audiochan.Core/Features/Genres/ListGenre/ListGenreQuery.cs:43 | the name order is total |
| Genres.BeforeTotal | src/Audiochan.Core/Features/Genres/ListGenre/ListGenreQuery.cs:37-45 | every sort order is total |
| Genres.Insert | src/Audiochan.Infrastructure/Persistence/Repositories/GenreRepository.cs:47-57 | inserting into a sorted list keeps it sorted and adds exactly the element |
| Genres.SortBy | src/Audiochan.Infrastructure/Persistence/Repositories/GenreRepository.cs:47-57 | OrderBy and OrderByDescending give a sorted permutation of the input |
| Genres.ListAsync | src/Audiochan.Infrastructure/Persistence/Repositories/GenreRepository.cs:42-62 | an undefined sort raises ArgumentOutOfRangeException; otherwise a sorted permutation of the genres with their audio counts |
| Genres.ListGenres | src/Audiochan.Core/Features/Genres/ListGenre/ListGenreQuery.cs:32-54 | a sorted permutation of the genre views, and an undefined sort value keeps store order |
| Genres.ListedGenres | src/Audiochan.Core/Features/Genres/ListGenre/ListGenreQuery.cs:18-54 | with the query's fixed sort, every entry is the view of a stored genre and every stored genre is listed |
| AudioQueries.Where | src/Audiochan.Core/Features/Audio/QueryableExtensions.cs:16 | keeps exactly the rows the predicate accepts, each no more often than stored |
| AudioQueries.Distinct | src/Audiochan.Core/Features/Audio/GetAudioFeed/GetAudioFeedQuery.cs:39 | keeps every row it is given and none twice |
| AudioQueries.DefaultQueryable | src/Audiochan.Core/Features/Audios/Extensions/QueryableExtensions.cs:10-19 | keeps exactly the stored rows owned by the caller or public, none added |
| AudioQueries.OwnerName | src/Audiochan.Core/Features/Audios/Extensions/QueryableExtensions.cs:25 | the owner's name is present exactly when the row has an owner id that names a stored user |
| AudioQueries.FilterByUsername | src/Audiochan.Core/Features/Audios/Extensions/QueryableExtensions.cs:21-26 | a blank name keeps every row; otherwise exactly the rows whose owner's name is the lower-cased, untrimmed input |
| AudioQueries.FilterByGenre | src/Audiochan.Core/Features/Audio/QueryableExtensions.cs:29-42 | a blank input keeps every row; otherwise exactly the rows whose genre id is the parsed number (0 when it is not one) or whose genre slug is the trimmed, lower-cased input |
| AudioQueries.ParsedTags | src/Audiochan.Core/Features/Audios/Extensions/QueryableExtensions.cs:44-46 | one piece per split piece, each trimmed and lower-cased |
| AudioQueries.ParsedTagsHold | src/Audiochan.Core/Features/Audios/Extensions/QueryableExtensions.cs:44-46 | an id is among the parsed tags exactly when some split piece trims and lower-cases to it |
| AudioQueries.HasAnyTagHolds | src/Audiochan.Core/Features/Audios/Extensions/QueryableExtensions.cs:48 | a row has one of the requested tags exactly when one of its tag ids is a split piece, trimmed and lower-cased |
| AudioQueries.FilterByTags | src/Audiochan.Core/Features/Audio/QueryableExtensions.cs:44-56 | a blank list keeps every row; otherwise exactly the rows with a tag among the comma-separated, trimmed, lower-cased pieces |
| AudioQueries.FilterByTagsWith | src/Audiochan.Infrastructure/Persistence/Repositories/Extensions/QueryableExtensions.cs:44-56 | the same as the comma filter, with the pieces split on the given delimiter |
| AudioQueries.FilterBySearchTerm | src/Audiochan.Core/Features/Audio/QueryableExtensions.cs:19-27 | a blank term keeps every row; otherwise exactly the rows with a title whose lower-cased text contains the lower-cased term |
| AudioQueries.PrecedesTotal | src/Audiochan.Infrastructure/Persistence/Repositories/Extensions/QueryableExtensions.cs:58-67 | of any two rows one may come first in each sort order |
| AudioQueries.PrecedesTransitive | src/Audiochan.Infrastructure/Persistence/Repositories/Extensions/QueryableExtensions.cs:58-67 | each sort order is transitive |
| AudioQueries.OrderedPairwise | src/Audiochan.Infrastructure/Persistence/Repositories/Extensions/QueryableExtensions.cs:58-67 | a list ordered row by row has every row before each later one in the order |
| AudioQueries.InsertOrdered | src/Audiochan.Infrastructure/Persistence/Repositories/Extensions/QueryableExtensions.cs:58-67 | inserting into an ordered list keeps it ordered and adds exactly the one row |
| AudioQueries.SortAudios | src/Audiochan.Infrastructure/Persistence/Repositories/Extensions/QueryableExtensions.cs:58-67 | the result is ordered on the sort keys, descending, and is a permutation of the input |
| AudioQueries.AudioSortOrder | src/Audiochan.Core/Features/Audio/QueryableExtensions.cs:58-65 | raises exactly on a null key; "favorites" in any case orders by favourite count, anything else by creation time |
| AudioQueries.RepositorySortOrder | src/Audiochan.Infrastructure/Persistence/Repositories/Extensions/QueryableExtensions.cs:58-67 | raises exactly on a null key; "favorites" in any case orders by favourite count then creation time, anything else by creation time |
| AudioQueries.SortKeyCase | src/Audiochan.Core/Features/Audios/Extensions/QueryableExtensions.cs:51-60 | for every key, the first variant orders by favourite count exactly on "favorites", the other two exactly on keys that lower-case to it |
| AudioQueries.SortKeyCaseExample | src/Audiochan.Core/Features/Audios/Extensions/QueryableExtensions.cs:51-60 | "Favorites" is ordered by creation time by the first variant and by favourite count by the other two |
| AudioQueries.ThenCreatedRefines | src/Audiochan.Infrastructure/Persistence/Repositories/Extensions/QueryableExtensions.cs:62-63 | a list ordered by count then creation time is ordered by count, and rows with equal counts come newest first |
| AudioQueries.PermutationKeepsNoDuplicates | src/Audiochan.Core/Features/Audio/GetAudioFeed/GetAudioFeedQuery.cs:39-41 | ordering a list without duplicates leaves none |
| AudioQueries.DistinctOnce | src/Audiochan.Core/Features/Audio/GetAudioFeed/GetAudioFeedQuery.cs:39 | a list without duplicates holds each row at most once |
| AudioQueries.AudioListRows | src/Audiochan.Core/Features/Audio/GetAudioList/GetAudioListQuery.cs:36-58 | keeps exactly the visible rows whose owner's name is the trimmed, lower-cased username, with a requested tag and of the requested genre, each filter skipped when its input is blank |
| AudioQueries.GetAudioListContents | src/Audiochan.Core/Features/Audio/GetAudioList/GetAudioListQuery.cs:32-69 | the list is a permutation of the kept rows, holds no row more often than stored and is ordered by the requested key |
| AudioQueries.FollowedIds | src/Audiochan.Core/Features/Audio/GetAudioFeed/GetAudioFeedQuery.cs:30-34 | an id is listed exactly when the FollowedUsers table has the row of the observer following it |
| AudioQueries.FeedRows | src/Audiochan.Core/Features/Audio/GetAudioFeed/GetAudioFeedQuery.cs:36-38 | keeps exactly the rows visible to the user whose owner the user follows |
| AudioQueries.GetAudioFeedContents | src/Audiochan.Core/Features/Audio/GetAudioFeed/GetAudioFeedQuery.cs:28-43 | the feed holds exactly the feed rows, none twice, newest first |
| AudioQueries.VisibleWithId | src/Audiochan.Infrastructure/Persistence/Repositories/AudioRepository.cs:41-44 | keeps exactly the rows visible to the caller with the requested id |
| AudioQueries.GetAsync | src/Audiochan.Infrastructure/Persistence/Repositories/AudioRepository.cs:37-47 | no row exactly when no row with the id is visible; a row found is a visible stored row with the id; more than one raises |
| AudioQueries.GetAsyncNeverRaises | src/Audiochan.Infrastructure/Persistence/Repositories/AudioRepository.cs:37-47 | when the stored ids are distinct the lookup never raises |
| AudioQueries.RepeatedFirstCounted | src/Audiochan.Infrastructure/Persistence/Repositories/AudioRepository.cs:46 | a list whose first two rows are equal holds that row twice |
| AudioQueries.OnceInUnique | src/Audiochan.Infrastructure/Persistence/Repositories/AudioRepository.cs:44-46 | in rows with distinct ids each row is stored once |
| AudioQueries.ListRows | src/Audiochan.Infrastructure/Persistence/Repositories/AudioRepository.cs:66-75 | keeps exactly the visible rows accepted by the extra predicate, when given, and of the requested genre |
| AudioQueries.ListAsyncContents | src/Audiochan.Infrastructure/Persistence/Repositories/AudioRepository.cs:60-79 | raises exactly on a null sort key; otherwise lists a permutation of the kept rows in the sort's order |
| AudioQueries.SearchRows | src/Audiochan.Infrastructure/Persistence/Repositories/AudioRepository.cs:86-91 | keeps exactly the visible rows matching the search term, the genre and one of the comma-separated tags, each filter skipped when blank |
| AudioQueries.SearchAsyncContents | src/Audiochan.Infrastructure/Persistence/Repositories/AudioRepository.cs:81-95 | raises exactly on a null sort key; otherwise lists a permutation of the kept rows in the sort's order |
| AudioQueries.FeedsAgree | src/Audiochan.Infrastructure/Persistence/Repositories/AudioRepository.cs:97-113 | the repository feed is the feed rows newest first, and shows the same audios as the feed query, which drops duplicates |
| AudioViews.TagIdList | src/Audiochan.Core/Common/Mappings/AudioMappings.cs:25 | one tag id per tag |
| AudioViews.FavoritedByAgrees | src/Audiochan.Core/Features/Audios/CreateAudio/CreateAudioCommand.cs:119 | the favourite rule of the handlers and the one of the projections differ only for an empty caller id |
| AudioViews.MapToDetail | src/Audiochan.Core/Common/Mappings/AudioMappings.cs:40-41 | an audio whose owner is not loaded raises; otherwise the projection of the audio |
| AudioViews.MapFavorited | src/Audiochan.Core/Common/Mappings/AudioMappings.cs:26-29 | the favourite flag is set exactly for a non-empty caller id among the favourites, which then number at least one |
| AudioViews.MapCopies | src/Audiochan.Core/Features/Audio/MappingProfile.cs:11-37 | the scalars, the creation and last-modified times and the upload id are copied, the tags become their ids, the genre is present exactly when the audio has one, and the owner carries the caller's follow flag |
| AudioViews.JoinedTagsSplit | src/Audiochan.Core/Features/Audios/Mappings/AudioViewModelMapping.cs:26 | tag ids without spaces are recovered by splitting the joined text |
| AudioViews.ItemMapToDetail | src/Audiochan.Core/Features/Audios/Mappings/AudioViewModelMapping.cs:45-46 | an audio whose owner is not loaded raises NullReferenceException; otherwise the list projection of the audio |
| AudioViews.ItemMapProperties | src/Audiochan.Core/Features/Audios/Mappings/AudioViewModelMapping.cs:13-43 | the id is the audio's number, created and updated are the audio's times, the favourite flag follows the shared rule, a missing genre gives none, the tag text splits back into the tag ids, and the upload id is kept |
| AudioViews.DetailMap | src/Audiochan.Core/Features/Audios/Mappings/AudioDetailMapping.cs:13-45 | an audio without a genre or without a loaded owner raises NullReferenceException |
| AudioViews.DetailMapProperties | src/Audiochan.Core/Features/Audios/Mappings/AudioDetailMapping.cs:13-45 | the id is the list view's number printed and reads back as it, the genre and the favourite flag are carried, and every other field agrees with the list view except the upload id, which is left out |
| Validation.Message | src/Audiochan.Core/Common/Validators/AudioCommandValidator.cs:14-24 | every failure carries a non-empty message |
| Validation.Check | src/Audiochan.Core/Common/Validators/AudioCommandValidator.cs:11-24 | a rule reports its one failure exactly when its condition does not hold |
| Validation.ValidateAudioCommand | src/Audiochan.Core/Common/Validators/AudioCommandValidator.cs:8-25 | raises exactly when the tag list is null, as its count is read unguarded |
| Validation.AudioCommandRules | src/Audiochan.Core/Common/Validators/AudioCommandValidator.cs:8-25 | each failure is reported exactly when its rule fails (a non-blank title over 30 characters, a description over 500, more than 10 tags), and the command is valid exactly when none fails |
| Validation.AudioCommandBoundaries | src/Audiochan.Core/Common/Validators/AudioCommandValidator.cs:11-24 | the limits are inclusive: 30, 500 and 10 pass and one more fails, and a blank title passes whatever its length |
| Validation.RequiredFieldRules | src/Audiochan.Core/Features/Audio/CreateAudio/CreateAudioCommand.cs:42-50 | each of upload id, duration and size reports its failure exactly when it is missing or zero |
| Validation.FileNameRules | src/Audiochan.Core/Features/Audio/CreateAudio/CreateAudioCommand.cs:51-58 | a blank name, a name without extension and a name of a disallowed content type each report their own failure, every rule of the chain running |
| Validation.ValidateCreateAudio | src/Audiochan.Core/Features/Audio/CreateAudio/CreateAudioCommand.cs:38-61 | raises exactly when the included command rules raise |
| Validation.CreateAudioRules | src/Audiochan.Core/Features/Audios/CreateAudio/CreateAudioCommand.cs:35-58 | a request is valid exactly when every required field is present, the name is non-blank with an allowed extension and the command rules pass; the failures are those of the three groups; an empty name fails both presence and extension |
| Tokens.RefreshTokenValidity | src/Audiochan.Infrastructure/Security/TokenService.cs:91-104 | a token is valid exactly when it is not revoked and expires strictly after now |
| Tokens.ValidityOnlyEnds | src/Audiochan.Infrastructure/Security/TokenService.cs:91-104 | a token valid at a time was valid earlier, and an invalid one stays invalid |
| Tokens.GenerateRefreshToken | src/Audiochan.Infrastructure/Security/TokenService.cs:72-84 | the new token has the given text and owner, is created now, lives the refresh lifetime and is not revoked |
| Tokens.FreshTokenLifetime | src/Audiochan.Infrastructure/Security/TokenService.cs:72-104 | a fresh token is valid from its creation until, not including, its expiry, and valid when made exactly when the lifetime is positive |
| Tokens.AccessTokenExpiry | src/Audiochan.Infrastructure/Security/TokenService.cs:39-40 | the access token expires the access lifetime after its creation, later when the lifetime is positive |
| Tokens.TokensExpireInOrder | src/Audiochan.Infrastructure/Security/TokenService.cs:39-40 | tokens made together expire in the order of their lifetimes |

## Left out

- The AWS SDK client, `TransferUtility` and URL signing: the bucket is a map from keys to objects, and whether a request fails is a parameter of the operation.
- ImageSharp decoding, resizing and JPEG encoding: whether the picture decodes and the size of the encoded image are parameters.
- ATL duration reading and the audio metadata service are not part of this model.
- `AudioViews.DetailMap`: the detail mapping reads `audio.PictureUrl`, a property the `Audio` entity of this revision does not declare (it belongs to the builder's revision of the entity); the model reads the stored `Picture` path in its place, so the view's picture is the path and not a URL.
- The content-type provider (`FileExtensionContentTypeProvider`) and the configured content types: whether a file name's content type is allowed is a parameter of the create validator.
- JWT creation and signing in `TokenService.GenerateAccessToken`: only its expiry arithmetic is modelled.
- `Tokens.GenerateRefreshToken`: the random token text is a parameter, and the clock is read once, while the code reads it twice (for the expiry and for the creation time), so there the two readings can differ.
- `Tokens.AccessTokenExpiry`: `DateTime.Add` overflow and the Unix-epoch conversion of the expiry are not modelled.
- Pagination, `Include`, `AsNoTracking` and `ProjectTo`: the listings give the rows before the projection and the paging.
- `AudioQueries.SortAudios`: any order satisfying the sort keys is accepted; the tie order of a stable `OrderByDescending` is left open.
- `AudioRepository.RandomAsync`, `GetRandomAudioQuery` and `AudioService.GetRandom`: they order by a fresh guid, which is nondeterministic.
- `AudioService.GetFeed`, `GetList`, `Get` and `GetPopularTags`: read-only queries; the listings they share with the repository and the query handlers are modelled in `queries.dfy`.
- `FormatTags`, which normalises the requested tags, is not part of this model: it is the parameter `formatTags`.
- `User.AddFollower` and `User.RemoveFollower` are not part of this model: the target's new follower list and the flag they return are parameters of `SetFollow`.
- The `User` entity file is not part of this model: a user is the fields the core reads.
- The entity base class and the context's stamping of `Created` and `LastModified` are not part of this model: both times are fields of the stored row, which the views copy and the handlers keep as stored.
- `User.Audios` and `User.Followings` are not fields of the model's user: they are the audios whose owner is the user and the follower rows that name the user, read from the tables.
- `Pictures.AudioPictureReplaced` and `AudioService.AddPictureKeepsOldBlob`: they describe a success, which needs a stored row the Audios configuration accepts, so they require one.
- `AudioService.TryCreateStores`, `TryCreateUploadFails`, `ClosedKeepsUpload`, `CreateStores` and `CreateOrphansUpload`: they describe a save that goes through, so they require a drafted row the Audios configuration accepts; a refused row is covered by `AudioService.TryCreateOutcomes`, `AudioService.CreateSucceeds` and `AudioService.CreateRefusesOwnerless`. `CreateSucceeds`, `CreateStores` and `CreateOrphansUpload` also take the tables to be valid, as `AudioService.Create` does: every user is stored under its own id.
- The followed-users table is a parameter of the feed queries.
- `ContainerConstants.cs` is not part of this model: the container names "audios", "pictures" and "users" are taken from the constants' names.
- `Task.WhenAll` in the remove and picture paths: the deletes are issued one after the other, in the order they are listed.
- Removing from a `HashSet` while enumerating it (in `Audio.UpdateTags`, `AudioService.Update` and `UpdateAudioCommand`): the model performs the intended set difference and union, not the enumerator's failure.
- A transaction rollback never fails.
- Cancellation tokens are dropped.
- `CreateAudio.Prepare` and `CreateAudio.Handle`: the Audios revision's request carries its upload id as a string, which it checks only for emptiness and hands to the entity constructor; the model takes it as an already-parsed guid, so a string that is not a guid is not modelled.
- `Genres.NameLe`, `Genres.ListAsync` and `Genres.ListGenres`: `OrderBy(g => g.Name)` runs in the database and follows its collation; the model orders names by character code instead.
- `ToLower` maps only the ASCII letters; culture-sensitive case mapping is not modelled.
- Paths follow the Unix rules of .NET (`/` is the only directory separator).
- HTTP controllers, routing, dependency-injection wiring, the identity-based handlers and the other repositories are outside the core.
