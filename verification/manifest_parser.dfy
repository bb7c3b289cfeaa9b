/**
 * The manifest parser service (src/files_manifestParser.ts): it turns the
 * manifest's entry groups into a flat list of files, expanding glob
 * patterns against the root, and answers the asset machine with PARSED or
 * ERROR. Glob and the manifest's own parser are parameters.
 */
module ManifestParser {
  import opened Common
  import opened Paths
  import opened SharedEvents
  import opened AssetMachine

  /** One `[fileType, fileNames]` entry of `parseManifest`'s result. */
  datatype EntryGroup = EntryGroup(fileType: FileType, fileNames: seq<string>)

  /** Glob: whether a pattern has magic, and the matches of a pattern under a cwd. */
  datatype Glob = Glob(hasMagic: string -> bool, sync: (string, string) -> Result<seq<string>, JsError>)

  const NoEntriesMessage := "Manifest must define at least one entry file"

  /** `expandMatchPatterns(root)(x)`: a plain name is itself, a pattern its matches under root. */
  function Expand(glob: Glob, root: string, x: string): (r: Result<seq<string>, JsError>)
    ensures !glob.hasMagic(x) ==> r == Ok([x])
    ensures glob.hasMagic(x) ==> r == glob.sync(x, root)
  {
    if glob.hasMagic(x) then glob.sync(x, root) else Ok([x])
  }

  /** `fileNames.flatMap(expandMatchPatterns(root))`; the first failing pattern throws. */
  function ExpandAll(glob: Glob, root: string, names: seq<string>): Result<seq<string>, JsError>
    decreases |names|
  {
    if |names| == 0 then Ok([])
    else
      match Expand(glob, root, names[0])
      case Err(e) => Err(e)
      case Ok(first) =>
        match ExpandAll(glob, root, names[1..])
        case Err(e) => Err(e)
        case Ok(rest) => Ok(first + rest)
  }

  /** One file record per expanded name: the group's type, the name, and root joined with it. */
  function Files(fileType: FileType, root: string, names: seq<string>): (r: seq<BaseAsset>)
    ensures |r| == |names|
    ensures forall i :: 0 <= i < |r| ==> r[i] == BaseAsset(Join(root, names[i]), names[i], fileType)
  {
    seq(|names|, i requires 0 <= i < |names| => BaseAsset(Join(root, names[i]), names[i], fileType))
  }

  /** The file types the groups name. */
  function GroupTypes(groups: seq<EntryGroup>): set<FileType>
  {
    set g | g in groups :: g.fileType
  }

  /** The flat list of files, group by group, each group in its own order. */
  function Entries(glob: Glob, root: string, groups: seq<EntryGroup>): (r: Result<seq<BaseAsset>, JsError>)
    ensures r.Ok? ==> forall i :: 0 <= i < |r.value| ==> r.value[i].id == Join(root, r.value[i].fileName)
    ensures r.Ok? ==> forall i :: 0 <= i < |r.value| ==> r.value[i].fileType in GroupTypes(groups)
    decreases |groups|
  {
    if |groups| == 0 then Ok([])
    else
      match ExpandAll(glob, root, groups[0].fileNames)
      case Err(e) => Err(e)
      case Ok(names) =>
        match Entries(glob, root, groups[1..])
        case Err(e) => Err(e)
        case Ok(rest) =>
          var files := Files(groups[0].fileType, root, names);
          assert GroupTypes(groups[1..]) <= GroupTypes(groups);
          Ok(files + rest)
  }

  /** `manifestParser(root)(context)`: the single event the service emits. */
  function Parse(glob: Glob, parseManifest: Source -> Result<seq<EntryGroup>, JsError>, root: string, context: Asset): (e: AssetEvent)
    ensures e.Parsed? || (e.Shared? && e.event.Error?)
    ensures e.Parsed? <==> (parseManifest(context.source).Ok?
                            && Entries(glob, root, parseManifest(context.source).value).Ok?
                            && |Entries(glob, root, parseManifest(context.source).value).value| > 0)
  {
    match parseManifest(context.source)
    case Err(error) => Shared(Error(error))
    case Ok(groups) =>
      match Entries(glob, root, groups)
      case Err(error) => Shared(Error(error))
      case Ok(files) =>
        if |files| == 0 then Shared(Error(JsError("Error", NoEntriesMessage)))
        // PARSED's creator takes no arguments: the files do not travel with it.
        else AssetEvent.Parsed
  }

  // ---------------------------------------------------------------------
  // Properties
  // ---------------------------------------------------------------------

  /** Expanding a concatenation of name lists is expanding each and concatenating, in order. */
  lemma {:induction false} ExpandAllAppend(glob: Glob, root: string, a: seq<string>, b: seq<string>)
    requires ExpandAll(glob, root, a).Ok? && ExpandAll(glob, root, b).Ok?
    ensures ExpandAll(glob, root, a + b) == Ok(ExpandAll(glob, root, a).value + ExpandAll(glob, root, b).value)
    decreases |a|
  {
    if |a| == 0 {
      assert a + b == b;
      assert ExpandAll(glob, root, a).value == [];
      assert [] + ExpandAll(glob, root, b).value == ExpandAll(glob, root, b).value;
    } else {
      assert (a + b)[0] == a[0];
      assert (a + b)[1..] == a[1..] + b;
      var first := Expand(glob, root, a[0]).value;
      var restA := ExpandAll(glob, root, a[1..]).value;
      var all := ExpandAll(glob, root, b).value;
      ExpandAllAppend(glob, root, a[1..], b);
      assert ExpandAll(glob, root, a + b) == Ok(first + (restA + all));
      assert first + (restA + all) == (first + restA) + all;
    }
  }

  /** Without glob magic, every listed name comes out once, in order. */
  lemma {:induction false} NoMagicKeepsNames(glob: Glob, root: string, names: seq<string>)
    requires forall i :: 0 <= i < |names| ==> !glob.hasMagic(names[i])
    ensures ExpandAll(glob, root, names) == Ok(names)
    decreases |names|
  {
    if |names| > 0 {
      NoMagicKeepsNames(glob, root, names[1..]);
      assert [names[0]] + names[1..] == names;
    }
  }

  /** Without glob magic, the entries are the groups' names in group order, then list order. */
  lemma {:induction false} NoMagicEntries(glob: Glob, root: string, groups: seq<EntryGroup>)
    requires forall g, i :: g in groups && 0 <= i < |g.fileNames| ==> !glob.hasMagic(g.fileNames[i])
    ensures Entries(glob, root, groups).Ok?
    ensures |groups| > 0 ==>
              (Entries(glob, root, groups).value
               == Files(groups[0].fileType, root, groups[0].fileNames) + Entries(glob, root, groups[1..]).value)
    decreases |groups|
  {
    if |groups| > 0 {
      NoMagicKeepsNames(glob, root, groups[0].fileNames);
      NoMagicEntries(glob, root, groups[1..]);
    }
  }

  /** A manifest whose groups list no file at all is an ERROR with the zero-entry message. */
  lemma {:induction false} EmptyManifestFails(glob: Glob, parseManifest: Source -> Result<seq<EntryGroup>, JsError>, root: string, context: Asset)
    requires parseManifest(context.source).Ok?
    requires forall g :: g in parseManifest(context.source).value ==> |g.fileNames| == 0
    ensures Parse(glob, parseManifest, root, context) == Shared(Error(JsError("Error", NoEntriesMessage)))
  {
    EmptyGroupsNoEntries(glob, root, parseManifest(context.source).value);
  }

  lemma {:induction false} EmptyGroupsNoEntries(glob: Glob, root: string, groups: seq<EntryGroup>)
    requires forall g :: g in groups ==> |g.fileNames| == 0
    ensures Entries(glob, root, groups) == Ok([])
    decreases |groups|
  {
    if |groups| > 0 {
      assert ExpandAll(glob, root, groups[0].fileNames) == Ok([]);
      EmptyGroupsNoEntries(glob, root, groups[1..]);
      assert Files(groups[0].fileType, root, []) == [];
      assert Files(groups[0].fileType, root, []) + [] == [];
    }
  }

  /** A failing glob or manifest parse is answered with that error as an ERROR event. */
  lemma ErrorsBecomeEvents(glob: Glob, parseManifest: Source -> Result<seq<EntryGroup>, JsError>, root: string, context: Asset)
    ensures parseManifest(context.source).Err? ==>
      Parse(glob, parseManifest, root, context) == Shared(Error(parseManifest(context.source).error))
    ensures (parseManifest(context.source).Ok? && Entries(glob, root, parseManifest(context.source).value).Err?) ==>
      Parse(glob, parseManifest, root, context) == Shared(Error(Entries(glob, root, parseManifest(context.source).value).error))
  {
  }
}
