/**
 * File and folder side documents: the store's file and folder records and the
 * JSON entries fileToJSON and folderToJSON build from them. The store's file
 * kinds form a closed variant (video, image, any other file), and so do the
 * JSON entries (video, image, file, folder).
 */
module DirEntries {
  import opened Common

  /** A timestamp, carried through unchanged. */
  type Time = int

  /** A float64 field of a video file, carried through as its bit pattern. */
  datatype Float64 = Float64(bits: int)

  // ------------------------------------------------------------ store side

  datatype Fingerprint = Fingerprint(algorithm: string, value: string)

  /**
   * The fields every stored file has. `zipFile` is the path of the zip archive
   * that contains the file, when it lives inside one.
   */
  datatype BaseFile = BaseFile(
    path: string,
    zipFile: Option<string>,
    modTime: Time,
    createdAt: Time,
    updatedAt: Time,
    size: int,
    fingerprints: seq<Fingerprint>)

  datatype VideoInfo = VideoInfo(
    format: string,
    width: int,
    height: int,
    duration: Float64,
    videoCodec: string,
    audioCodec: string,
    frameRate: Float64,
    bitRate: int,
    interactive: bool,
    interactiveSpeed: Option<int>)

  datatype ImageInfo = ImageInfo(format: string, width: int, height: int)

  datatype File =
    | VideoFile(base: BaseFile, video: VideoInfo)
    | ImageFile(base: BaseFile, image: ImageInfo)
    | OtherFile(base: BaseFile)

  datatype Folder = Folder(
    path: string,
    zipFile: Option<string>,
    modTime: Time,
    createdAt: Time,
    updatedAt: Time)

  // ------------------------------------------------------------- JSON side

  datatype EntryType = FileEntry | VideoEntry | ImageEntry | FolderEntry

  /** The JSON base entry; an absent zip file is the empty string. */
  datatype BaseDirEntry = BaseDirEntry(
    entryType: EntryType,
    modTime: Time,
    path: string,
    createdAt: Time,
    updatedAt: Time,
    zipFile: string)

  datatype FingerprintJSON = FingerprintJSON(typ: string, fingerprint: string)

  datatype BaseFileJSON = BaseFileJSON(entry: BaseDirEntry, fingerprints: seq<FingerprintJSON>, size: int)

  datatype DirEntry =
    | VideoFileJSON(file: BaseFileJSON, video: VideoInfo)
    | ImageFileJSON(file: BaseFileJSON, image: ImageInfo)
    | FileJSON(file: BaseFileJSON)
    | FolderJSON(entry: BaseDirEntry)
  {
    function Type(): EntryType
    {
      match this
      case FolderJSON(e) => e.entryType
      case _ => file.entry.entryType
    }
  }

  function ZipPath(zip: Option<string>): (p: string)
    ensures zip.Some? ==> p == zip.value
    ensures zip.None? ==> p == []
  {
    match zip
    case Some(z) => z
    case None => []
  }

  /** The fingerprints in order, each with the same type and value. */
  function FingerprintsToJSON(fps: seq<Fingerprint>): (r: seq<FingerprintJSON>)
    ensures |r| == |fps|
    ensures forall i :: 0 <= i < |fps| ==>
      r[i].typ == fps[i].algorithm && r[i].fingerprint == fps[i].value
  {
    if fps == [] then []
    else
      var last := fps[|fps| - 1];
      FingerprintsToJSON(fps[..|fps| - 1]) + [FingerprintJSON(last.algorithm, last.value)]
  }

  /** fileToJSON: the JSON entry of a stored file, tagged by the file's kind. */
  function FileToJSON(f: File): (e: DirEntry)
    ensures e.VideoFileJSON? <==> f.VideoFile?
    ensures e.ImageFileJSON? <==> f.ImageFile?
    ensures e.FileJSON? <==> f.OtherFile?
    ensures !e.FolderJSON?
    ensures e.Type() == (if f.VideoFile? then VideoEntry else if f.ImageFile? then ImageEntry else FileEntry)
    ensures e.file.entry.path == f.base.path && e.file.size == f.base.size
    ensures e.file.entry.zipFile == ZipPath(f.base.zipFile)
    ensures |e.file.fingerprints| == |f.base.fingerprints|
    ensures f.VideoFile? ==> e.video == f.video
    ensures f.ImageFile? ==> e.image == f.image
  {
    var bf := f.base;
    var entry := BaseDirEntry(FileEntry, bf.modTime, bf.path, bf.createdAt, bf.updatedAt, ZipPath(bf.zipFile));
    var base := BaseFileJSON(entry, FingerprintsToJSON(bf.fingerprints), bf.size);
    match f
    case VideoFile(_, v) => VideoFileJSON(base.(entry := entry.(entryType := VideoEntry)), v)
    case ImageFile(_, i) => ImageFileJSON(base.(entry := entry.(entryType := ImageEntry)), i)
    case OtherFile(_) => FileJSON(base)
  }

  /** folderToJSON: always a folder entry; the zip path only when there is one. */
  function FolderToJSON(f: Folder): (e: DirEntry)
    ensures e.FolderJSON? && e.Type() == FolderEntry
    ensures e.entry.path == f.path && e.entry.modTime == f.modTime
    ensures e.entry.createdAt == f.createdAt && e.entry.updatedAt == f.updatedAt
    ensures e.entry.zipFile == ZipPath(f.zipFile)
  {
    FolderJSON(BaseDirEntry(FolderEntry, f.modTime, f.path, f.createdAt, f.updatedAt, ZipPath(f.zipFile)))
  }

  // --------------------------------------------- reading the entries back

  function ZipFromJSON(p: string): Option<string>
  {
    if p == [] then None else Some(p)
  }

  function FingerprintsFromJSON(fps: seq<FingerprintJSON>): seq<Fingerprint>
  {
    if fps == [] then []
    else
      var last := fps[|fps| - 1];
      FingerprintsFromJSON(fps[..|fps| - 1]) + [Fingerprint(last.typ, last.fingerprint)]
  }

  /** The stored file a JSON entry describes; None for a folder entry. */
  function FileFromJSON(e: DirEntry): Option<File>
  {
    if e.FolderJSON? then None
    else
      var en := e.file.entry;
      var bf := BaseFile(en.path, ZipFromJSON(en.zipFile), en.modTime, en.createdAt, en.updatedAt,
                         e.file.size, FingerprintsFromJSON(e.file.fingerprints));
      match e
      case VideoFileJSON(_, v) => Some(VideoFile(bf, v))
      case ImageFileJSON(_, i) => Some(ImageFile(bf, i))
      case FileJSON(_) => Some(OtherFile(bf))
  }

  function FolderFromJSON(e: DirEntry): Option<Folder>
  {
    if e.FolderJSON? then
      Some(Folder(e.entry.path, ZipFromJSON(e.entry.zipFile), e.entry.modTime, e.entry.createdAt, e.entry.updatedAt))
    else None
  }

  lemma {:induction false} FingerprintsRoundTrip(fps: seq<Fingerprint>)
    ensures FingerprintsFromJSON(FingerprintsToJSON(fps)) == fps
  {
    if fps != [] {
      var init := fps[..|fps| - 1];
      FingerprintsRoundTrip(init);
      var js := FingerprintsToJSON(fps);
      assert js[..|js| - 1] == FingerprintsToJSON(init);
      assert init + [fps[|fps| - 1]] == fps;
    }
  }

  /**
   * A file entry loses nothing, except that a zip archive whose path is empty
   * cannot be told apart from no zip archive at all.
   */
  lemma FileRoundTrip(f: File)
    requires f.base.zipFile != Some([])
    ensures FileFromJSON(FileToJSON(f)) == Some(f)
  {
    FingerprintsRoundTrip(f.base.fingerprints);
  }

  /** The exception: an empty zip path reads back as "not in a zip". */
  lemma FileEmptyZipPathIsLost(f: File)
    requires f.base.zipFile == Some([])
    ensures FileFromJSON(FileToJSON(f)).value.base.zipFile == None
  {
  }

  lemma FolderRoundTrip(f: Folder)
    requires f.zipFile != Some([])
    ensures FolderFromJSON(FolderToJSON(f)) == Some(f)
  {
  }
}
