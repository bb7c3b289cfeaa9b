/**
 * The ESM background plugin (src/plugin-esmBackground.ts). Browsers load
 * MV2 background scripts as classic scripts, so each one is replaced by a
 * small wrapper file that imports the real script as a module; an MV3
 * service worker is marked as a module instead, and in vite serve it also
 * gets a wrapper that imports it from the dev server.
 */
module EsmBackground {
  import opened Common
  import opened Paths
  import opened Manifests
  import WriteTracker

  const WrapperExt := ".esm-wrapper.js"

  /** The placeholder in the wrapper code that the import path replaces. */
  const PathToken := "%PATH%"

  /** `getWrapperFileName`: the same directory, the extension dropped, ".esm-wrapper.js" appended. */
  function WrapperFileName(fileName: string): string
  {
    var q := Parse(fileName);
    Join(q.dir, q.name + WrapperExt)
  }

  datatype FileNames = FileNames(outputFileName: string, wrapperFileName: string)

  /** `generateFileNames`: the script's `.js` output name beside its wrapper name. */
  function GenerateFileNames(fileName: string): (r: FileNames)
    ensures r.wrapperFileName == WrapperFileName(fileName)
  {
    var q := Parse(fileName);
    FileNames(Join(q.dir, q.name + ".js"), Join(q.dir, q.name + WrapperExt))
  }

  /** Both names keep the script's name, directory (when it has one) and gain their own extension. */
  lemma FileNamesShape(fileName: string)
    ensures var q, r := Parse(fileName), GenerateFileNames(fileName);
      && Base(r.wrapperFileName) == q.name + WrapperExt
      && Base(r.outputFileName) == q.name + ".js"
      && (q.dir != "" && q.dir != "." && !EndsWith(q.dir, "/") ==>
            Dir(r.wrapperFileName) == q.dir && Dir(r.outputFileName) == q.dir)
  {
    var q := Parse(fileName);
    BaseHasNoSeparator(fileName);
    JoinName(q.dir, q.name + WrapperExt);
    JoinName(q.dir, q.name + ".js");
  }

  /** The wrapper of the script the MV2 test builds. */
  lemma BackgroundWrapperName()
    ensures WrapperFileName("background.js") == "background.esm-wrapper.js"
  {
    ParseBackground();
    BackgroundWithWrapperExt();
    var n := "background" + WrapperExt;
    assert Join("", n) == n;
  }

  lemma BackgroundWithWrapperExt()
    ensures "background" + WrapperExt == "background.esm-wrapper.js"
  {
  }

  lemma ParseBackground()
    ensures Parse("background.js").dir == "" && Parse("background.js").name == "background"
  {
    BackgroundHasNoDir();
    BackgroundExt();
    var p := "background.js";
    assert p[..10] == "background";
  }

  lemma BackgroundHasNoDir()
    ensures Dir("background.js") == "" && Base("background.js") == "background.js"
  {
    assert '/' !in "background.js";
  }

  lemma BackgroundExt()
    ensures ExtOf("background.js") == ".js"
  {
    var p := "background.js";
    LastIndexOfIs(p, '.', 10);
    assert p[10..] == ".js";
  }

  /** An asset the plugin hands to `emitFile`. */
  datatype EmittedAsset = EmittedAsset(fileName: string, source: string)

  /** The string the wrapper imports a background script from, as `JSON.stringify` renders it. */
  function ImportPath(stringify: string -> string, serve: bool, fileName: string): string
  {
    stringify(if serve then WriteTracker.ViteServerUrl + "/" + fileName else "./" + GenerateFileNames(fileName).outputFileName)
  }

  /** The wrapper emitted for one MV2 script: the first "%PATH%" of the wrapper code becomes the import path. */
  function WrapperAsset(code: string, stringify: string -> string, serve: bool, fileName: string): (r: EmittedAsset)
    ensures r.fileName == WrapperFileName(fileName)
    ensures !Occurs(code, PathToken) ==> r.source == code
  {
    EmittedAsset(WrapperFileName(fileName), ReplaceFirst(code, PathToken, ImportPath(stringify, serve, fileName)))
  }

  /** The wrapper names of a script list, in order. */
  function Wrappers(scripts: seq<string>): (r: seq<string>)
    ensures |r| == |scripts|
  {
    if |scripts| == 0 then [] else Wrappers(scripts[..|scripts| - 1]) + [WrapperFileName(scripts[|scripts| - 1])]
  }

  /** The wrapper assets of a script list, in order. */
  function WrapperAssets(code: string, stringify: string -> string, serve: bool, scripts: seq<string>): (r: seq<EmittedAsset>)
    ensures |r| == |scripts|
  {
    if |scripts| == 0 then []
    else WrapperAssets(code, stringify, serve, scripts[..|scripts| - 1]) + [WrapperAsset(code, stringify, serve, scripts[|scripts| - 1])]
  }

  /** The i-th wrapper name belongs to the i-th script. */
  lemma {:induction false} WrappersAt(scripts: seq<string>, i: nat)
    requires i < |scripts|
    ensures Wrappers(scripts)[i] == WrapperFileName(scripts[i])
    decreases |scripts|
  {
    if i < |scripts| - 1 {
      WrappersAt(scripts[..|scripts| - 1], i);
    }
  }

  /** The i-th emitted asset belongs to the i-th script and is named by its wrapper. */
  lemma {:induction false} WrapperAssetsAt(code: string, stringify: string -> string, serve: bool, scripts: seq<string>, i: nat)
    requires i < |scripts|
    ensures WrapperAssets(code, stringify, serve, scripts)[i] == WrapperAsset(code, stringify, serve, scripts[i])
    ensures WrapperAssets(code, stringify, serve, scripts)[i].fileName == Wrappers(scripts)[i]
    decreases |scripts|
  {
    WrappersAt(scripts, i);
    if i < |scripts| - 1 {
      WrapperAssetsAt(code, stringify, serve, scripts[..|scripts| - 1], i);
    }
  }

  /** One more script adds one wrapper name and one asset at the end. */
  lemma WrappersSnoc(code: string, stringify: string -> string, serve: bool, scripts: seq<string>, i: nat)
    requires i < |scripts|
    ensures Wrappers(scripts[..i + 1]) == Wrappers(scripts[..i]) + [WrapperFileName(scripts[i])]
    ensures WrapperAssets(code, stringify, serve, scripts[..i + 1]) == WrapperAssets(code, stringify, serve, scripts[..i]) + [WrapperAsset(code, stringify, serve, scripts[i])]
  {
    assert scripts[..i + 1][..i] == scripts[..i];
  }

  /** The MV2 test's manifest: one background script becomes one wrapper. */
  lemma SingleBackgroundScript()
    ensures Wrappers(["background.js"]) == ["background.esm-wrapper.js"]
  {
    BackgroundWrapperName();
    assert ["background.js"][..0] == [];
  }

  /** An MV2 manifest whose `background.scripts` is set (an empty list counts). */
  predicate HasMv2Scripts(version: int, background: Option<Background>)
  {
    version == 2 && background.Some? && background.value.scripts.Some?
  }

  /** An MV3 manifest with a non-empty `background.service_worker`. */
  predicate HasMv3Worker(version: int, background: Option<Background>)
  {
    version == 3 && background.Some? && background.value.serviceWorker.Some? && background.value.serviceWorker.value != ""
  }

  /** The text of the serve-mode service worker wrapper. */
  function WorkerWrapper(stringify: string -> string, worker: string): EmittedAsset
  {
    EmittedAsset(WrapperFileName(worker), "import \"" + stringify(WriteTracker.ViteServerUrl + "/" + worker) + "\"")
  }

  /**
   * The plugin object: `isViteServe` is switched on by `configureServer`,
   * and `emitted` collects what `renderCrxManifest` hands to `emitFile`.
   * The wrapper code is a bundled file that is not part of this model, and
   * `JSON.stringify` is a parameter.
   */
  class EsmBackgroundPlugin {
    var isViteServe: bool
    var emitted: seq<EmittedAsset>
    const code: string
    const stringify: string -> string

    constructor (code: string, stringify: string -> string)
      ensures !isViteServe && emitted == []
      ensures this.code == code && this.stringify == stringify
    {
      isViteServe := false;
      emitted := [];
      this.code := code;
      this.stringify := stringify;
    }

    method ConfigureServer()
      modifies this
      ensures isViteServe && emitted == old(emitted)
    {
      isViteServe := true;
    }

    /**
     * `renderCrxManifest`: rewrites the manifest in place and returns it.
     * MV2 scripts become their wrappers, each wrapper emitted; an MV3 service
     * worker gets `type: 'module'`, and a wrapper only in vite serve; any
     * other manifest is returned unchanged with nothing emitted.
     */
    method RenderCrxManifest(manifest: Manifest) returns (r: Manifest)
      modifies this, manifest
      ensures r == manifest
      ensures isViteServe == old(isViteServe)
      ensures manifest.version == old(manifest.version) && manifest.description == old(manifest.description)
      ensures manifest.rest == old(manifest.rest)
      ensures HasMv2Scripts(old(manifest.version), old(manifest.background)) ==>
        var bg := old(manifest.background).value;
        && manifest.background == Some(bg.(scripts := Some(Wrappers(bg.scripts.value))))
        && emitted == old(emitted) + WrapperAssets(code, stringify, isViteServe, bg.scripts.value)
      ensures !HasMv2Scripts(old(manifest.version), old(manifest.background)) && HasMv3Worker(old(manifest.version), old(manifest.background)) ==>
        var bg := old(manifest.background).value;
        && manifest.background == Some(bg.(moduleType := Some("module")))
        && emitted == old(emitted) + (if isViteServe then [WorkerWrapper(stringify, bg.serviceWorker.value)] else [])
      ensures !HasMv2Scripts(old(manifest.version), old(manifest.background)) && !HasMv3Worker(old(manifest.version), old(manifest.background)) ==>
        manifest.background == old(manifest.background) && emitted == old(emitted)
    {
      r := manifest;
      if HasMv2Scripts(manifest.version, manifest.background) {
        var bg := manifest.background.value;
        var scripts := bg.scripts.value;
        var wrapped := EmitWrappers(scripts);
        manifest.background := Some(bg.(scripts := Some(wrapped)));
      } else if HasMv3Worker(manifest.version, manifest.background) {
        var bg := manifest.background.value;
        manifest.background := Some(bg.(moduleType := Some("module")));
        if isViteServe {
          emitted := emitted + [WorkerWrapper(stringify, bg.serviceWorker.value)];
        }
      }
    }

    /** The callback `scripts.map` runs on one script: emit its wrapper and return the wrapper's name. */
    method EmitWrapper(fileName: string) returns (name: string)
      modifies this
      ensures name == WrapperFileName(fileName)
      ensures emitted == old(emitted) + [WrapperAsset(code, stringify, isViteServe, fileName)]
      ensures isViteServe == old(isViteServe)
    {
      var names := GenerateFileNames(fileName);
      var asset := EmittedAsset(names.wrapperFileName, ReplaceFirst(code, PathToken, ImportPath(stringify, isViteServe, fileName)));
      emitted := emitted + [asset];
      name := names.wrapperFileName;
    }

    /** `scripts.map(...)`: emits one wrapper per script, in order, and returns the wrapper names. */
    method EmitWrappers(scripts: seq<string>) returns (wrapped: seq<string>)
      modifies this
      ensures wrapped == Wrappers(scripts)
      ensures emitted == old(emitted) + WrapperAssets(code, stringify, isViteServe, scripts)
      ensures isViteServe == old(isViteServe)
    {
      wrapped := [];
      var start, serve := emitted, isViteServe;
      var i := 0;
      while i < |scripts|
        invariant 0 <= i <= |scripts|
        invariant isViteServe == serve
        invariant wrapped == Wrappers(scripts[..i])
        invariant emitted == start + WrapperAssets(code, stringify, serve, scripts[..i])
      {
        WrappersSnoc(code, stringify, serve, scripts, i);
        AppendAssoc(start, WrapperAssets(code, stringify, serve, scripts[..i]), [WrapperAsset(code, stringify, serve, scripts[i])]);
        var name := EmitWrapper(scripts[i]);
        wrapped := wrapped + [name];
        i := i + 1;
      }
      assert scripts[..i] == scripts;
    }
  }
}
