/** The song model: where uploads are stored, the declared genres and audio
    extensions, `save` recording the file size, and the derived `file_url`,
    `filename` and string form. */
module Songs {
  import opened Wrappers
  import opened Text
  import Accounts

  const GenreChoices: seq<string> :=
    ["rock", "pop", "jazz", "classical", "electronic", "hip_hop", "country", "blues", "reggae", "folk", "other"]

  const AllowedExtensions: seq<string> := ["mp3", "wav", "m4a", "ogg"]

  predicate ValidGenre(g: string) {
    g in GenreChoices
  }

  /** The stored audio file; the field counts as present when its name is
      not empty. */
  datatype AudioFile = AudioFile(name: string, size: int, url: string)

  predicate HasFile(f: AudioFile) {
    f.name != ""
  }

  /** A song row as the other tables join it. */
  datatype SongRow = SongRow(
    id: int,
    title: string,
    artist: string,
    genre: string,
    duration: Option<int>,
    audioFile: AudioFile,
    fileSize: Option<int>,
    uploadedBy: Accounts.User)

  /** `song_upload_path`: uploads go to `songs/<artist>/<filename>`. */
  function UploadPath(artist: string, filename: string): (path: string)
    ensures |path| == 7 + |artist| + |filename|
    ensures path[..6] == "songs/" && path[|path| - |filename|..] == filename
    ensures path[|path| - |filename| - 1] == '/'
  {
    "songs/" + artist + "/" + filename
  }

  /** The extension the validator checks: the lower-cased text after the
      last '.' of the base name, empty when the base name has no dot after
      its first character. */
  function Extension(name: string): (ext: string)
    ensures '.' !in ext && '/' !in ext
  {
    var base := AfterLast(name, '/');
    if base != [] && '.' in base[1..] then
      var e := AfterLast(base, '.');
      LowerKeepsOthers(e, '.');
      LowerKeepsOthers(e, '/');
      ToLower(e)
    else ""
  }

  /** A file named `<stem>.<ext>`, with a non-empty stem and no '.' in the
      extension, is checked by its lower-cased extension. */
  lemma ExtensionOf(dir: string, stem: string, ext: string)
    requires stem != [] && '/' !in stem + ['.'] + ext && '.' !in ext
    ensures Extension(dir + ['/'] + stem + ['.'] + ext) == ToLower(ext)
  {
    var base := stem + ['.'] + ext;
    var name := dir + ['/'] + stem + ['.'] + ext;
    assert name == dir + ['/'] + base;
    AfterLastSplit(dir, base, '/');
    assert AfterLast(name, '/') == base;
    assert base[1..][|stem| - 1] == '.';
    assert base != [] && '.' in base[1..];
    AfterLastSplit(stem, ext, '.');
    assert AfterLast(base, '.') == ext;
  }

  predicate AllowedFile(name: string)
    ensures AllowedFile(name) ==> '.' in name
  {
    Extension(name) in AllowedExtensions
  }

  /** `save`: records the file's size when a file is present; nothing else
      changes. */
  function Saved(s: SongRow): (r: SongRow)
    ensures HasFile(s.audioFile) ==> r.fileSize == Some(s.audioFile.size)
    ensures !HasFile(s.audioFile) ==> r.fileSize == s.fileSize
    ensures r.(fileSize := s.fileSize) == s
  {
    if HasFile(s.audioFile) then s.(fileSize := Some(s.audioFile.size)) else s
  }

  /** Saving twice stores what saving once does. */
  lemma SaveIdempotent(s: SongRow)
    ensures Saved(Saved(s)) == Saved(s)
  {
  }

  /** `file_url`: the storage URL, or None without a file. */
  function FileUrl(s: SongRow): (r: Option<string>)
    ensures r.None? <==> !HasFile(s.audioFile)
    ensures r.Some? ==> r.value == s.audioFile.url
  {
    if HasFile(s.audioFile) then Some(s.audioFile.url) else None
  }

  /** `filename`: the base name of the stored file, or None without a file. */
  function Filename(s: SongRow): (r: Option<string>)
    ensures r.None? <==> !HasFile(s.audioFile)
    ensures r.Some? ==>
      '/' !in r.value && |r.value| <= |s.audioFile.name|
      && s.audioFile.name[|s.audioFile.name| - |r.value|..] == r.value
    ensures r.Some? && '/' in s.audioFile.name ==>
      |r.value| < |s.audioFile.name| && s.audioFile.name[|s.audioFile.name| - |r.value| - 1] == '/'
    ensures r.Some? && '/' !in s.audioFile.name ==> r.value == s.audioFile.name
  {
    if HasFile(s.audioFile) then Some(AfterLast(s.audioFile.name, '/')) else None
  }

  /** A file stored under its upload path reports the uploaded file name. */
  lemma FilenameOfUpload(s: SongRow, filename: string)
    requires s.audioFile.name == UploadPath(s.artist, filename)
    requires filename != [] && '/' !in filename
    ensures Filename(s) == Some(filename)
  {
    assert s.audioFile.name == ("songs/" + s.artist) + ['/'] + filename;
    AfterLastSplit("songs/" + s.artist, filename, '/');
  }

  /** `__str__`: "<title> by <artist>". */
  function Describe(s: SongRow): (r: string)
    ensures |r| == |s.title| + 4 + |s.artist|
    ensures r[..|s.title|] == s.title && r[|r| - |s.artist|..] == s.artist
    ensures r[|s.title|..|s.title| + 4] == " by "
  {
    s.title + " by " + s.artist
  }

  /** The model object `save` updates in place. */
  class Song {
    var row: SongRow

    constructor (row: SongRow)
      ensures this.row == row
    {
      this.row := row;
    }

    method Save()
      modifies this
      ensures row == Saved(old(row))
    {
      if row.audioFile.name != "" {
        row := row.(fileSize := Some(row.audioFile.size));
      }
    }
  }
}
