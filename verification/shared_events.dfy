/**
 * The asset record, the file types and the event creators that every file
 * machine shares (src/files.sharedEvents.ts).
 */
module SharedEvents {
  import opened Common

  /** Every file type any version of the plugin names. */
  datatype FileType =
    | CSS | HTML | IMAGE | JSON | MANIFEST | RAW | MODULE | SCRIPT | BACKGROUND | CONTENT
  {
    /** The string the source uses for this file type. */
    function Name(): string
    {
      match this
      case CSS => "CSS"
      case HTML => "HTML"
      case IMAGE => "IMAGE"
      case JSON => "JSON"
      case MANIFEST => "MANIFEST"
      case RAW => "RAW"
      case MODULE => "MODULE"
      case SCRIPT => "SCRIPT"
      case BACKGROUND => "BACKGROUND"
      case CONTENT => "CONTENT"
    }
  }

  /** A thrown JavaScript error: its constructor name and its message. */
  datatype JsError = JsError(name: string, message: string)

  /** The `source` of an asset, whose kind changes from phase to phase. */
  datatype Source =
    | Undefined
    | Text(text: string)
    | Bytes(bytes: seq<bv8>)
    | Structured(doc: Json)

  /** One file known to the build: its absolute id, output name, type and source. */
  datatype Asset = Asset(id: string, fileName: string, fileType: FileType, source: Source)

  /** A file registration as sent by a parser or the `options` hook. */
  datatype BaseAsset = BaseAsset(id: string, fileName: string, fileType: FileType)

  /** The plugin-hook phase. */
  datatype Hook = Transform | Render
  {
    function Name(): string
    {
      match this
      case Transform => "transform"
      case Render => "render"
    }
  }

  /** The rollup watch change kinds. */
  datatype ChangeKind = Create | Update | Delete

  /** A fully rendered file as sent with FILE_DONE (`type: 'asset'`). */
  datatype CompleteFile = CompleteFile(id: string, fileName: string, fileType: FileType, source: Source, kind: string)

  /** The events of src/files.sharedEvents.ts, one constructor per creator. */
  datatype SharedEvent =
    | Root(root: string)
    | AddFile(file: BaseAsset)
    | FileDone(done: CompleteFile)
    | Change(id: string, change: ChangeKind)
    | Error(error: JsError)
    | Start
    | PluginsStart(options: Asset, hook: Hook)
    | PluginsResult(result: Asset)

  /** The nine file types this version of the plugin handles, in declaration order. */
  const FileTypes: seq<FileType> :=
    [CSS, HTML, IMAGE, JSON, MANIFEST, RAW, MODULE, BACKGROUND, CONTENT]

  predicate IsScript(fileType: FileType)
  {
    fileType == BACKGROUND || fileType == CONTENT || fileType == MODULE
  }

  /** The list has nine distinct entries, MODULE among them and SCRIPT not. */
  lemma FileTypesDistinct()
    ensures |FileTypes| == 9
    ensures forall i, j :: 0 <= i < j < |FileTypes| ==> FileTypes[i] != FileTypes[j]
    ensures MODULE in FileTypes && SCRIPT !in FileTypes
  {
  }

  /** The script types are exactly the last three entries of the list. */
  lemma {:induction false} IsScriptIsTail(fileType: FileType)
    ensures IsScript(fileType) <==> fileType in FileTypes[6..]
    ensures IsScript(fileType) ==> fileType in FileTypes
  {
    assert FileTypes[6..] == [MODULE, BACKGROUND, CONTENT];
  }

  /** rollup's `normalizePath`: every Windows separator becomes '/'. */
  function NormalizePath(path: string): (r: string)
    ensures |r| == |path|
    ensures '\\' !in r
    ensures forall i :: 0 <= i < |path| && path[i] != '\\' ==> r[i] == path[i]
    ensures forall i :: 0 <= i < |path| && path[i] == '\\' ==> r[i] == '/'
  {
    seq(|path|, i requires 0 <= i < |path| => if path[i] == '\\' then '/' else path[i])
  }

  /** A path that is already posix is left alone, so normalising twice changes nothing. */
  lemma NormalizePathIdempotent(path: string)
    ensures '\\' !in path ==> NormalizePath(path) == path
    ensures NormalizePath(NormalizePath(path)) == NormalizePath(path)
  {
  }

  /** ADD_FILE: `fileName` and `id` are normalised, the other fields are copied. */
  function AddFileEvent(file: BaseAsset): (e: SharedEvent)
    ensures e.AddFile?
    ensures e.file.fileType == file.fileType
    ensures e.file.fileName == NormalizePath(file.fileName)
    ensures e.file.id == NormalizePath(file.id)
    ensures '\\' !in e.file.id && '\\' !in e.file.fileName
  {
    AddFile(BaseAsset(NormalizePath(file.id), NormalizePath(file.fileName), file.fileType))
  }
}
