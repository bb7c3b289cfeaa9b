/**
 * The parts of a Chrome extension manifest that the background rewrites
 * touch (src/plugin-esmBackground.ts, reloader/socket/src/index.js). The
 * manifest is a mutable object the plugins change in place, so it is a
 * class; `background` is a record the plugins replace field by field.
 */
module Manifests {
  import opened Common

  /** `manifest.background`: MV2 `scripts` and `persistent`, MV3 `service_worker` and `type`. */
  datatype Background = Background(
    scripts: Option<seq<string>>,
    serviceWorker: Option<string>,
    moduleType: Option<string>,
    persistent: Option<bool>)

  const EmptyBackground := Background(None, None, None, None)

  class Manifest {
    /** `manifest_version`. */
    var version: int
    var background: Option<Background>
    var description: Option<string>
    /** Every other field, which neither rewrite touches. */
    var rest: map<string, Json>

    constructor (version: int, background: Option<Background>, description: Option<string>, rest: map<string, Json>)
      ensures this.version == version && this.background == background
      ensures this.description == description && this.rest == rest
    {
      this.version := version;
      this.background := background;
      this.description := description;
      this.rest := rest;
    }
  }
}
