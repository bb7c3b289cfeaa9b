/**
 * The hooks the dev-server file writer must not copy onto its Vite plugin
 * (src/plugin-viteServeFileWriter_excludedHooks.ts): the hooks only the
 * Vite dev server runs, followed by every hook the plugin-hook runner calls.
 */
module ExcludedHooks {
  import opened SharedEvents
  import opened RunPlugins

  /** The keys of `rpceHookRecord`, in the order the record lists them. */
  const RpceHooks: seq<string> := [
    "renderCrxCss", "renderCrxHtml", "renderCrxImage", "renderCrxJson", "renderCrxManifest", "renderCrxRaw",
    "transformCrxCss", "transformCrxHtml", "transformCrxImage", "transformCrxJson", "transformCrxManifest", "transformCrxRaw"]

  /** The hooks that run on the Vite dev server, in the source's order. */
  const ServerHooks: seq<string> :=
    ["config", "configResolved", "configureServer", "resolveId", "load", "transform", "buildEnd", "closeBundle"]

  /** The file types the runner has hooks for, in the record's order. */
  const HookedTypes: seq<FileType> := [CSS, HTML, IMAGE, JSON, MANIFEST, RAW]

  /** `excludedHooks`: the server hooks followed by the runner hooks. */
  function Excluded(): seq<string>
  {
    ServerHooks + RpceHooks
  }

  /** The record key at index `k` of a phase's half of the list. */
  lemma RpceHookAt(hook: Hook, k: nat)
    requires k < |HookedTypes|
    ensures RpceHooks[(if hook == Render then 0 else 6) + k] == HookName(hook, HookedTypes[k])
  {
    if k == 0 {
      CssKeys();
    } else if k == 1 {
      HtmlKeys();
    } else if k == 2 {
      ImageKeys();
    } else if k == 3 {
      JsonKeys();
    } else if k == 4 {
      ManifestKeys();
    } else {
      RawKeys();
    }
  }

  lemma CssKeys()
    ensures RpceHooks[0] == HookName(Render, HookedTypes[0]) && RpceHooks[6] == HookName(Transform, HookedTypes[0])
  {
    CssHookNames();
  }

  lemma HtmlKeys()
    ensures RpceHooks[1] == HookName(Render, HookedTypes[1]) && RpceHooks[7] == HookName(Transform, HookedTypes[1])
  {
    HtmlHookNames();
  }

  lemma ImageKeys()
    ensures RpceHooks[2] == HookName(Render, HookedTypes[2]) && RpceHooks[8] == HookName(Transform, HookedTypes[2])
  {
    ImageHookNames();
  }

  lemma JsonKeys()
    ensures RpceHooks[3] == HookName(Render, HookedTypes[3]) && RpceHooks[9] == HookName(Transform, HookedTypes[3])
  {
    JsonHookNames();
  }

  lemma ManifestKeys()
    ensures RpceHooks[4] == HookName(Render, HookedTypes[4]) && RpceHooks[10] == HookName(Transform, HookedTypes[4])
  {
    ManifestHookNames();
  }

  lemma RawKeys()
    ensures RpceHooks[5] == HookName(Render, HookedTypes[5]) && RpceHooks[11] == HookName(Transform, HookedTypes[5])
  {
    RawHookNames();
  }

  /**
   * The record is exhaustive and holds nothing else: its keys are exactly the
   * names the runner calls, {render, transform} x {Css, Html, Image, Json, Manifest, Raw}.
   */
  lemma RpceHooksAreRunnerHooks(name: string)
    ensures name in RpceHooks <==> exists hook: Hook, k: nat :: k < |HookedTypes| && name == HookName(hook, HookedTypes[k])
  {
    if i :| 0 <= i < |RpceHooks| && RpceHooks[i] == name {
      var hook, k := if i < 6 then Render else Transform, if i < 6 then i else i - 6;
      RpceHookAt(hook, k);
    }
    if hook: Hook, k: nat :| k < |HookedTypes| && name == HookName(hook, HookedTypes[k]) {
      RpceHookAt(hook, k);
    }
  }

  lemma ServerHooksDistinct()
    ensures forall i, j :: 0 <= i < j < |ServerHooks| ==> ServerHooks[i] != ServerHooks[j]
  {
    forall i, j | 0 <= i < j < |ServerHooks|
      ensures ServerHooks[i] != ServerHooks[j]
    {
      assert |ServerHooks[i]| != |ServerHooks[j]| || ServerHooks[i][0] != ServerHooks[j][0];
    }
  }

  /** Runner hooks of one length and phase differ in the type letter after "Crx". */
  lemma RpceHooksDistinct()
    ensures forall i, j :: 0 <= i < j < |RpceHooks| ==> RpceHooks[i] != RpceHooks[j]
  {
    forall i, j | 0 <= i < j < |RpceHooks|
      ensures RpceHooks[i] != RpceHooks[j]
    {
      var a, b := RpceHooks[i], RpceHooks[j];
      if i < 6 && j < 6 {
        assert |a| != |b| || a[9] != b[9];
      } else if 6 <= i {
        assert |a| != |b| || a[12] != b[12];
      } else {
        assert a[0] != b[0];
      }
    }
  }

  /** A server hook that starts like a runner hook is shorter than any runner hook. */
  lemma NoServerHookIsRpceHook(i: nat, j: nat)
    requires i < |ServerHooks| && j < |RpceHooks|
    ensures ServerHooks[i] != RpceHooks[j]
  {
    var a, b := ServerHooks[i], RpceHooks[j];
    assert |b| >= 12 && (b[0] == 'r' || b[0] == 't');
    assert a[0] == 'r' || a[0] == 't' ==> |a| == 9;
  }

  /** `excludedHooks` lists twenty names, none of them twice. */
  lemma ExcludedDistinct()
    ensures |Excluded()| == 20
    ensures forall i, j :: 0 <= i < j < |Excluded()| ==> Excluded()[i] != Excluded()[j]
  {
    var e := Excluded();
    ServerHooksDistinct();
    RpceHooksDistinct();
    forall i, j | 0 <= i < j < |e|
      ensures e[i] != e[j]
    {
      if j < 8 {
        assert e[i] == ServerHooks[i] && e[j] == ServerHooks[j];
      } else if 8 <= i {
        assert e[i] == RpceHooks[i - 8] && e[j] == RpceHooks[j - 8];
      } else {
        NoServerHookIsRpceHook(i, j - 8);
        assert e[i] == ServerHooks[i] && e[j] == RpceHooks[j - 8];
      }
    }
  }

  /** Every hook the runner can call is excluded. */
  lemma RunnerHooksExcluded(hook: Hook, fileType: FileType)
    requires fileType in HookedTypes
    ensures HookName(hook, fileType) in Excluded()
  {
    var k :| 0 <= k < |HookedTypes| && HookedTypes[k] == fileType;
    RpceHookAt(hook, k);
    assert Excluded()[|ServerHooks| + (if hook == Render then 0 else 6) + k] == HookName(hook, fileType);
  }
}
