/**
 * The plugin-hook runner (src/index_runPlugins.ts): for one asset and one
 * phase, every plugin's hook for the asset's type is called in plugin
 * order, each on the file as the previous hooks left it. Each file type
 * has its own rule for taking in a hook's result.
 */
module RunPlugins {
  import opened Common
  import opened SharedEvents

  /** What a CSS or HTML hook may return: nothing, new text, or a whole asset. */
  datatype StringResult = NoString | NewText(text: string) | NewStringAsset(asset: Asset)

  /** What an IMAGE or RAW hook may return: nothing, new bytes, or a whole asset. */
  datatype RawResult = NoRaw | NewBytes(bytes: seq<bv8>) | NewRawAsset(asset: Asset)

  /**
   * A plugin's hooks, keyed by hook name. A hook's signature depends on the
   * file type it is for, so there is one map per signature.
   */
  datatype Plugin = Plugin(
    name: string,
    stringHooks: map<string, (Source, Asset) -> StringResult>,
    rawHooks: map<string, (Source, Asset) -> RawResult>,
    jsonHooks: map<string, Asset -> Option<Asset>>,
    manifestHooks: map<string, Source -> Option<Json>>)

  /** `${hook}Crx${capitalize(fileType)}`, e.g. "renderCrxManifest". */
  function HookName(hook: Hook, fileType: FileType): (r: string)
    ensures StartsWith(r, hook.Name() + "Crx")
    ensures |r| == |hook.Name()| + 3 + |fileType.Name()|
  {
    hook.Name() + "Crx" + Capitalize(fileType.Name())
  }

  // ---------------------------------------------------------------------
  // How each runner takes in one hook result
  // ---------------------------------------------------------------------

  /** A string replaces only `source`; an asset replaces the file; nothing changes nothing. */
  function AbsorbString(file: Asset, result: StringResult): Asset
  {
    match result
    case NoString => file
    case NewText(text) => file.(source := Text(text))
    case NewStringAsset(asset) => asset
  }

  /** Bytes replace only `source`; an asset replaces the file; nothing changes nothing. */
  function AbsorbRaw(file: Asset, result: RawResult): Asset
  {
    match result
    case NoRaw => file
    case NewBytes(bytes) => file.(source := Bytes(bytes))
    case NewRawAsset(asset) => asset
  }

  /** A truthy manifest replaces only `source`. */
  function AbsorbManifest(file: Asset, result: Option<Json>): Asset
  {
    if result.Some? && Truthy(result.value) then file.(source := Structured(result.value)) else file
  }

  /** A returned asset replaces the whole file. */
  function AbsorbJson(file: Asset, result: Option<Asset>): Asset
  {
    if result.Some? then result.value else file
  }

  function StringStep(file: Asset, p: Plugin, name: string): Asset
  {
    if name in p.stringHooks then AbsorbString(file, p.stringHooks[name](file.source, file)) else file
  }

  function RawStep(file: Asset, p: Plugin, name: string): Asset
  {
    if name in p.rawHooks then AbsorbRaw(file, p.rawHooks[name](file.source, file)) else file
  }

  function JsonStep(file: Asset, p: Plugin, name: string): Asset
  {
    if name in p.jsonHooks then AbsorbJson(file, p.jsonHooks[name](file)) else file
  }

  function ManifestStep(file: Asset, p: Plugin, name: string): Asset
  {
    if name in p.manifestHooks then AbsorbManifest(file, p.manifestHooks[name](file.source)) else file
  }

  /** The runner kinds, by the file types they serve. */
  datatype Runner = StringRunner | RawRunner | JsonRunner | ManifestRunner

  function StepWith(runner: Runner, file: Asset, p: Plugin, name: string): Asset
  {
    match runner
    case StringRunner => StringStep(file, p, name)
    case RawRunner => RawStep(file, p, name)
    case JsonRunner => JsonStep(file, p, name)
    case ManifestRunner => ManifestStep(file, p, name)
  }

  /** Whether plugin `p` has a hook called `name` of the runner's signature. */
  predicate HasHook(runner: Runner, p: Plugin, name: string)
  {
    match runner
    case StringRunner => name in p.stringHooks
    case RawRunner => name in p.rawHooks
    case JsonRunner => name in p.jsonHooks
    case ManifestRunner => name in p.manifestHooks
  }

  /** The file after the given plugins ran in order, each on the previous one's output. */
  function Fold(runner: Runner, plugins: seq<Plugin>, file: Asset, name: string): Asset
    decreases |plugins|
  {
    if |plugins| == 0 then file
    else StepWith(runner, Fold(runner, plugins[..|plugins| - 1], file, name), plugins[|plugins| - 1], name)
  }

  /** The runner `runPlugins` picks for a file type, if any. */
  function RunnerFor(fileType: FileType): Option<Runner>
  {
    if fileType == CSS || fileType == HTML then Some(StringRunner)
    else if fileType == JSON then Some(JsonRunner)
    else if fileType == MANIFEST then Some(ManifestRunner)
    else if fileType == IMAGE || fileType == RAW then Some(RawRunner)
    else None
  }

  /** What `runPlugins` returns for an asset: the fold of its runner, or the asset itself. */
  function Expected(plugins: seq<Plugin>, asset: Asset, hook: Hook): Asset
  {
    match RunnerFor(asset.fileType)
    case None => asset
    case Some(runner) => Fold(runner, plugins, asset, HookName(hook, asset.fileType))
  }

  // ---------------------------------------------------------------------
  // The runners, as the loops the source runs
  // ---------------------------------------------------------------------

  /** One of runStringPlugins/runRawPlugins/runJsonPlugins/runManifestPlugins. */
  method RunWith(runner: Runner, asset: Asset, plugins: seq<Plugin>, hook: Hook) returns (file: Asset)
    ensures file == Fold(runner, plugins, asset, HookName(hook, asset.fileType))
  {
    // The hook name comes from the input asset's type, whatever later hooks return.
    var name := HookName(hook, asset.fileType);
    file := asset;
    var i := 0;
    while i < |plugins|
      invariant 0 <= i <= |plugins|
      invariant file == Fold(runner, plugins[..i], asset, name)
    {
      var p := plugins[i];
      match runner {
        case StringRunner =>
          if name in p.stringHooks {
            var result := p.stringHooks[name](file.source, file);
            file := AbsorbString(file, result);
          }
        case RawRunner =>
          if name in p.rawHooks {
            var result := p.rawHooks[name](file.source, file);
            file := AbsorbRaw(file, result);
          }
        case JsonRunner =>
          if name in p.jsonHooks {
            var result := p.jsonHooks[name](file);
            file := AbsorbJson(file, result);
          }
        case ManifestRunner =>
          if name in p.manifestHooks {
            var result := p.manifestHooks[name](file.source);
            file := AbsorbManifest(file, result);
          }
      }
      assert plugins[..i + 1][..i] == plugins[..i];
      i := i + 1;
    }
    assert plugins[..i] == plugins;
  }

  /** `runPlugins`: dispatch on the file type; other types come back unchanged. */
  method Run(plugins: seq<Plugin>, asset: Asset, hook: Hook) returns (r: Asset)
    ensures r == Expected(plugins, asset, hook)
    ensures RunnerFor(asset.fileType).None? ==> r == asset
  {
    if asset.fileType == CSS || asset.fileType == HTML {
      r := RunWith(StringRunner, asset, plugins, hook);
    } else if asset.fileType == JSON {
      r := RunWith(JsonRunner, asset, plugins, hook);
    } else if asset.fileType == MANIFEST {
      r := RunWith(ManifestRunner, asset, plugins, hook);
    } else if asset.fileType == IMAGE || asset.fileType == RAW {
      r := RunWith(RawRunner, asset, plugins, hook);
    } else {
      r := asset;
    }
  }

  // ---------------------------------------------------------------------
  // Properties
  // ---------------------------------------------------------------------

  /** Plugins without the hook are skipped: with no such plugin the asset comes back as it was. */
  lemma {:induction false} NoHooksIdentity(runner: Runner, plugins: seq<Plugin>, file: Asset, name: string)
    requires forall i :: 0 <= i < |plugins| ==> !HasHook(runner, plugins[i], name)
    ensures Fold(runner, plugins, file, name) == file
    decreases |plugins|
  {
    if |plugins| > 0 {
      NoHooksIdentity(runner, plugins[..|plugins| - 1], file, name);
    }
  }

  /** Running two plugin lists one after the other is running their concatenation. */
  lemma {:induction false} FoldAppend(runner: Runner, first: seq<Plugin>, second: seq<Plugin>, file: Asset, name: string)
    ensures Fold(runner, first + second, file, name) == Fold(runner, second, Fold(runner, first, file, name), name)
    decreases |second|
  {
    if |second| == 0 {
      assert first + second == first;
    } else {
      var all := first + second;
      assert all[..|all| - 1] == first + second[..|second| - 1];
      FoldAppend(runner, first, second[..|second| - 1], file, name);
    }
  }

  /** Each plugin sees the file exactly as the plugins before it left it. */
  lemma {:induction false} EachSeesPrevious(runner: Runner, plugins: seq<Plugin>, file: Asset, name: string, k: nat)
    requires k < |plugins|
    ensures Fold(runner, plugins[..k + 1], file, name)
      == StepWith(runner, Fold(runner, plugins[..k], file, name), plugins[k], name)
  {
    assert plugins[..k + 1][..k] == plugins[..k];
  }

  /** Whether no hook of `p` called `name` can hand back a whole asset (the manifest runner never takes one). */
  ghost predicate SourceOnly(runner: Runner, p: Plugin, name: string)
  {
    match runner
    case StringRunner => name in p.stringHooks ==> forall s, a :: !p.stringHooks[name](s, a).NewStringAsset?
    case RawRunner => name in p.rawHooks ==> forall s, a :: !p.rawHooks[name](s, a).NewRawAsset?
    case JsonRunner => name !in p.jsonHooks
    case ManifestRunner => true
  }

  /**
   * Text, bytes and manifests replace only `source`: when no hook hands back
   * a whole asset, the file keeps its id, name and type through the run.
   */
  lemma {:induction false} SourceOnlyKeepsIdentity(runner: Runner, plugins: seq<Plugin>, file: Asset, name: string)
    requires forall i :: 0 <= i < |plugins| ==> SourceOnly(runner, plugins[i], name)
    ensures var r := Fold(runner, plugins, file, name);
      r.id == file.id && r.fileName == file.fileName && r.fileType == file.fileType
    decreases |plugins|
  {
    if |plugins| > 0 {
      var init := plugins[..|plugins| - 1];
      assert forall i :: 0 <= i < |init| ==> init[i] == plugins[i];
      SourceOnlyKeepsIdentity(runner, init, file, name);
      assert SourceOnly(runner, plugins[|plugins| - 1], name);
    }
  }

  // The hook names the runner calls, spelled out per file type.

  lemma CssHookNames()
    ensures HookName(Render, CSS) == "renderCrxCss" && HookName(Transform, CSS) == "transformCrxCss"
  {
    assert Capitalize("CSS") == "Css";
    assert HookName(Render, CSS) == "renderCrx" + "Css";
    assert HookName(Transform, CSS) == "transformCrx" + "Css";
  }

  lemma HtmlHookNames()
    ensures HookName(Render, HTML) == "renderCrxHtml" && HookName(Transform, HTML) == "transformCrxHtml"
  {
    assert Capitalize("HTML") == "Html";
    assert HookName(Render, HTML) == "renderCrx" + "Html";
    assert HookName(Transform, HTML) == "transformCrx" + "Html";
  }

  lemma ImageHookNames()
    ensures HookName(Render, IMAGE) == "renderCrxImage" && HookName(Transform, IMAGE) == "transformCrxImage"
  {
    assert Capitalize("IMAGE") == "Image";
    assert HookName(Render, IMAGE) == "renderCrx" + "Image";
    assert HookName(Transform, IMAGE) == "transformCrx" + "Image";
  }

  lemma JsonHookNames()
    ensures HookName(Render, JSON) == "renderCrxJson" && HookName(Transform, JSON) == "transformCrxJson"
  {
    assert Capitalize("JSON") == "Json";
    assert HookName(Render, JSON) == "renderCrx" + "Json";
    assert HookName(Transform, JSON) == "transformCrx" + "Json";
  }

  lemma CapitalizeManifest()
    ensures Capitalize("MANIFEST") == "Manifest"
  {
    var r := Capitalize("MANIFEST");
    assert r[1..] == "anifest";
  }

  lemma RenderManifestHookName()
    ensures HookName(Render, MANIFEST) == "renderCrxManifest"
  {
    CapitalizeManifest();
    assert HookName(Render, MANIFEST) == "renderCrx" + "Manifest";
  }

  lemma ManifestHookNames()
    ensures HookName(Render, MANIFEST) == "renderCrxManifest" && HookName(Transform, MANIFEST) == "transformCrxManifest"
  {
    RenderManifestHookName();
    CapitalizeManifest();
    assert HookName(Transform, MANIFEST) == "transformCrx" + "Manifest";
  }

  lemma RawHookNames()
    ensures HookName(Render, RAW) == "renderCrxRaw" && HookName(Transform, RAW) == "transformCrxRaw"
  {
    assert Capitalize("RAW") == "Raw";
    assert HookName(Render, RAW) == "renderCrx" + "Raw";
    assert HookName(Transform, RAW) == "transformCrx" + "Raw";
  }
}
