/** Blob containers and names: the names the application gives to stored
  * audio files and pictures (Common/Helpers/BlobHelpers.cs) and the
  * parsing of a stored URL back into container and name
  * (Storage/Extensions/StorageExtensions.cs). */
module Containers {
  /** The container names. The constants class is not part of this model;
    * the model only relies on the three being distinct, non-empty and free
    * of separators. */
  const Audios: string := "audios"
  const Pictures: string := "pictures"
  const Users: string := "users"
}

module BlobHelpers {
  import opened Wrappers
  import opened Text
  import opened Guids
  import opened Clock
  import opened Entities

  /** GetAudioBlobName: the upload id in its default text form followed by
    * the file extension (a null extension adds nothing). */
  function GetAudioBlobName(audio: AudioRow): (r: string)
    ensures |r| == 36 + |audio.fileExt.GetOr("")|
    ensures r[..36] == FormatD(audio.uploadId) && r[36..] == audio.fileExt.GetOr("")
  {
    FormatD(audio.uploadId) + audio.fileExt.GetOr("")
  }

  /** The audio blob name determines the upload id and the extension: two
    * audios share a blob name exactly when they share both. */
  lemma AudioBlobNameInjective(a: AudioRow, b: AudioRow)
    ensures GetAudioBlobName(a) == GetAudioBlobName(b)
            <==> a.uploadId == b.uploadId && a.fileExt.GetOr("") == b.fileExt.GetOr("")
  {
    if GetAudioBlobName(a) == GetAudioBlobName(b) {
      FormatDInjective(a.uploadId, b.uploadId);
    }
  }

  /** An audio blob name never contains a directory separator when the
    * extension does not. */
  lemma AudioBlobNameIsBare(a: AudioRow)
    requires DirectorySeparator !in a.fileExt.GetOr("")
    ensures DirectorySeparator !in GetAudioBlobName(a)
  {
    FormatsHaveNoSeparator(a.uploadId);
  }

  /** GetPictureBlobName: a fresh guid as 32 hexadecimal digits, '_', the
    * time stamp yyyyMMddHHmmss and ".jpg". The fresh guid is a parameter. */
  function GetPictureBlobName(newGuid: Guid, dateTime: DateTime): (r: string)
    ensures |r| == 51
    ensures forall i :: 0 <= i < 32 ==> IsHexDigit(r[i])
    ensures r[32] == '_'
    ensures forall i :: 33 <= i < 47 ==> IsDecimalDigit(r[i])
    ensures r[47..] == ".jpg"
  {
    FormatN(newGuid) + "_" + Stamp(dateTime) + ".jpg"
  }

  /** A picture name is a bare file name with extension ".jpg", and it
    * determines the guid it was made from. */
  lemma PictureBlobNameProperties(g: Guid, h: Guid, t: DateTime, u: DateTime)
    ensures DirectorySeparator !in GetPictureBlobName(g, t)
    ensures GetExtension(GetPictureBlobName(g, t)) == ".jpg"
    ensures GetPictureBlobName(g, t) == GetPictureBlobName(h, u) ==> g == h
  {
    var r := GetPictureBlobName(g, t);
    forall i | 0 <= i < |r| ensures r[i] != DirectorySeparator && (i != 47 ==> r[i] != '.') {
      if i < 32 {
        assert IsHexDigit(r[i]);
      } else if 33 <= i < 47 {
        assert IsDecimalDigit(r[i]);
      } else if i > 47 {
        assert r[47..][i - 47] == r[i];
      }
    }
    assert r[47] == '.';
    assert LastIndexOf(r, '.') == Some(47);
    assert GetFileName(r) == r;
    if r == GetPictureBlobName(h, u) {
      assert r[..32] == FormatN(g);
      assert GetPictureBlobName(h, u)[..32] == FormatN(h);
      FormatNInjective(g, h);
    }
  }
}

module BlobPaths {
  import opened Wrappers
  import opened Text

  datatype BlobPathInfo = BlobPathInfo(container: string, name: string)

  /** The path part of GetBlobPath: leading '/' dropped, split on '/'; the
    * last piece is the name, the others joined with '/' the container. */
  function ParseBlobPath(path: string): (r: BlobPathInfo)
    ensures '/' !in r.name
  {
    var pieces := Split(TrimStartChar(path, '/'), '/');
    SplitPiecesFree(TrimStartChar(path, '/'), '/');
    BlobPathInfo(Join("/", pieces[..|pieces| - 1]), pieces[|pieces| - 1])
  }

  /** GetBlobPath: the path is the text after the last occurrence of the
    * storage URL. */
  function GetBlobPath(url: string, storageUrl: string): (r: BlobPathInfo)
    ensures '/' !in r.name
  {
    var pieces := SplitOn(url, storageUrl);
    ParseBlobPath(pieces[|pieces| - 1])
  }

  /** A path without an inner '/' names a blob with an empty container. */
  lemma ParseBlobPathFlat(path: string)
    requires '/' !in TrimStartChar(path, '/')
    ensures ParseBlobPath(path) == BlobPathInfo("", TrimStartChar(path, '/'))
  {
    SplitWithout(TrimStartChar(path, '/'), '/');
  }

  /** "/container/name" parses into its container and name. */
  lemma ParseBlobPathRoundTrip(container: string, name: string)
    requires container != "" && container[0] != '/'
    requires '/' !in name
    ensures ParseBlobPath("/" + container + "/" + name) == BlobPathInfo(container, name)
  {
    var tail := container + "/" + name;
    assert TrimStartChar("/" + container + "/" + name, '/') == tail by {
      assert ("/" + container + "/" + name)[1..] == tail;
    }
    assert Split(tail, '/') == Split(container, '/') + [name] by {
      SplitAppend(container, name, '/');
      SplitWithout(name, '/');
    }
    JoinSplit(container, '/');
  }

  /** "//name" (an empty container) parses into the empty container and name. */
  lemma ParseBlobPathRoundTripEmpty(name: string)
    requires '/' !in name
    ensures ParseBlobPath("/" + "" + "/" + name) == BlobPathInfo("", name)
  {
    assert TrimStartChar("/" + "" + "/" + name, '/') == name by {
      assert ("/" + "" + "/" + name)[1..][1..] == name;
      if name != "" {
        assert name[0] != '/' by { assert name[0] in name; }
      }
    }
    ParseBlobPathFlat("/" + "" + "/" + name);
  }

  /** A URL made of the storage URL and a path splits into the empty text
    * and the path, when the path does not contain the storage URL. */
  lemma StorageUrlPrefix(storageUrl: string, path: string)
    requires storageUrl != ""
    requires !Contains(path, storageUrl)
    ensures SplitOn(storageUrl + path, storageUrl) == ["", path]
  {
    assert storageUrl + path == "" + storageUrl + path;
    SplitOnAt("", storageUrl, path);
    SplitOnWithout(path, storageUrl);
  }

  /** The URL of a blob parses back into its container and name, provided
    * the storage URL occurs only at the front, the container does not
    * start with '/', and the name has no '/'. */
  lemma GetBlobPathRoundTrip(storageUrl: string, container: string, name: string)
    requires storageUrl != ""
    requires !Contains("/" + container + "/" + name, storageUrl)
    requires container == "" || container[0] != '/'
    requires '/' !in name
    ensures GetBlobPath(storageUrl + "/" + container + "/" + name, storageUrl) == BlobPathInfo(container, name)
  {
    var path := "/" + container + "/" + name;
    assert storageUrl + "/" + container + "/" + name == storageUrl + path;
    StorageUrlPrefix(storageUrl, path);
    if container == "" {
      ParseBlobPathRoundTripEmpty(name);
    } else {
      ParseBlobPathRoundTrip(container, name);
    }
  }
}
