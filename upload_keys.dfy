/**
  The raw upload key the content service gives a new media file: its
  category directory, the content id, and the file's extension.
*/
module UploadKeys {
  import opened Wrappers
  import opened GoStrings

  /** The directory a media file goes to. */
  function Category(isAudioFile: bool): string
  {
    if isAudioFile then "audio/" else "video/"
  }

  /** Both directories are six characters, end in '/', and hold no '.'. */
  lemma CategoryShape(isAudioFile: bool)
    ensures |Category(isAudioFile)| == 6 && Category(isAudioFile)[5] == '/' && '.' !in Category(isAudioFile)
  {
    var c := Category(isAudioFile);
    forall i | 0 <= i < 6 ensures c[i] != '.' {}
  }

  /**
    `getUniqueFilename`: category + content id + "." + the piece of the file
    name between its first and second '.'; `None` where that index panics
    (a file name with no '.').
  */
  function GetUniqueFilename(contentID: string, srcFilename: string, isAudioFile: bool): (r: Option<string>)
    ensures r.Some? <==> '.' in srcFilename
  {
    SecondPieceExists(srcFilename, '.');
    match Piece(srcFilename, '.', 1)
    case None => None
    case Some(ext) => Some(Category(isAudioFile) + contentID + "." + ext)
  }

  /**
    For a file name "base.ext" or "base.ext.more" (base and ext without a
    dot), the key is the category, the id, a dot and exactly "ext": only the
    first extension survives, and audio files land under "audio/", video
    files under "video/".
  */
  lemma UniqueFilenameParts(contentID: string, base: string, ext: string, more: string, isAudioFile: bool)
    requires '.' !in base && '.' !in ext
    requires more == "" || more[0] == '.'
    ensures GetUniqueFilename(contentID, base + "." + ext + more, isAudioFile)
            == Some(Category(isAudioFile) + contentID + "." + ext)
    ensures isAudioFile ==> "audio/" <= Category(isAudioFile) + contentID + "." + ext
    ensures !isAudioFile ==> "video/" <= Category(isAudioFile) + contentID + "." + ext
  {
    assert base + "." + ext + more == base + ['.'] + ext + more;
    SecondPiece(base, ext, more, '.');
  }

  /** The worked example: "a.tar.gz" keeps "tar". */
  lemma TarGzKeepsTar(contentID: string, srcFilename: string)
    requires srcFilename == "a.tar.gz"
    ensures GetUniqueFilename(contentID, srcFilename, false) == Some("video/" + contentID + ".tar")
  {
    var video := Category(false);
    assert GetUniqueFilename(contentID, srcFilename, false) == Some(video + contentID + "." + "tar") by {
      assert '.' !in "a" by { forall i | 0 <= i < 1 ensures "a"[i] != '.' {} }
      assert '.' !in "tar" by { forall i | 0 <= i < 3 ensures "tar"[i] != '.' {} }
      assert srcFilename == "a" + "." + "tar" + ".gz";
      UniqueFilenameParts(contentID, "a", "tar", ".gz", false);
    }
    assert video + contentID + "." + "tar" == "video/" + contentID + ".tar" by {
      assert video == "video/";
    }
  }
}
