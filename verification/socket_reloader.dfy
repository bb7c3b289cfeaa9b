/**
 * The socket reloader (reloader/socket/src/index.js): the reloader object
 * the auto-reloader plugin loads, and the in-place manifest rewrite that
 * adds the reloader's client script to the background page.
 */
module SocketReloader {
  import opened Common
  import opened Manifests
  import Reloader

  const Name := "socket-reloader"

  const DevDescription := "DEVELOPMENT BUILD with auto-reloader script."

  /** The exported `reloader`: its `startReloader` reports `false` to its callback. */
  const SocketReloaderObject := Reloader.ReloaderObject(Some(Name), Some(false))

  /** `createClientFiles`: the bundled client code, which is a parameter here. */
  function CreateClientFiles(clientCode: string): string
  {
    clientCode
  }

  /**
   * The background `updateManifest` leaves: an absent background becomes
   * `{}`, the script is appended after the existing ones (none by default),
   * and the page is made persistent.
   */
  function DevBackground(background: Option<Background>, path: string): (r: Background)
    ensures r.scripts.Some? && |r.scripts.value| >= 1
    ensures r.persistent == Some(true)
  {
    var bg := if background.Some? then background.value else EmptyBackground;
    var scripts := if bg.scripts.Some? then bg.scripts.value else [];
    bg.(scripts := Some(scripts + [path]), persistent := Some(true))
  }

  /**
   * The script list grows by exactly the reloader's path, at the end, the
   * earlier scripts keeping their order; the MV3 fields are left alone.
   */
  lemma DevBackgroundScripts(background: Option<Background>, path: string)
    ensures var old_scripts := if background.Some? && background.value.scripts.Some? then background.value.scripts.value else [];
      var r := DevBackground(background, path).scripts.value;
      && |r| == |old_scripts| + 1
      && r[..|old_scripts|] == old_scripts
      && r[|old_scripts|] == path
    ensures background.Some? ==> DevBackground(background, path).serviceWorker == background.value.serviceWorker
    ensures background.Some? ==> DevBackground(background, path).moduleType == background.value.moduleType
    ensures background.None? ==> DevBackground(background, path) == Background(Some([path]), None, None, Some(true))
  {
  }

  /** A second update appends the second path after the first. */
  lemma DevBackgroundTwice(background: Option<Background>, first: string, second: string)
    ensures var once := DevBackground(background, first);
      DevBackground(Some(once), second).scripts.value == once.scripts.value + [second]
    ensures DevBackground(Some(DevBackground(background, first)), second).persistent == Some(true)
  {
  }

  /**
   * `updateManifest`: rewrites the background and the description in place;
   * every other field of the manifest is unchanged.
   */
  method UpdateManifest(manifest: Manifest, path: string)
    modifies manifest
    ensures manifest.background == Some(DevBackground(old(manifest.background), path))
    ensures manifest.description == Some(DevDescription)
    ensures manifest.version == old(manifest.version) && manifest.rest == old(manifest.rest)
  {
    if manifest.background.None? {
      manifest.background := Some(EmptyBackground);
    }
    var bg := manifest.background.value;
    var scripts := if bg.scripts.Some? then bg.scripts.value else [];
    manifest.background := Some(bg.(scripts := Some(scripts + [path])));
    manifest.background := Some(manifest.background.value.(persistent := Some(true)));
    manifest.description := Some(DevDescription);
  }

  /** A function returning the socket reloader, passed as a custom reloader in watch mode, loads it and names the plugin. */
  lemma SocketReloaderPlugin()
    ensures Reloader.PluginName(Reloader.Reloading(SocketReloaderObject)) == Name
    ensures Reloader.UseReloader(Reloader.Custom(SocketReloaderObject), Some("true"), SocketReloaderObject, SocketReloaderObject)
      == Ok(Reloader.Reloading(SocketReloaderObject))
  {
  }
}
