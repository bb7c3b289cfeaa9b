# chrome-extension-tools: a Dafny model of the plugin core

This project models the core of the rollup/vite plugin that builds Chrome
extensions. It covers the state machines that carry each file through its
lifecycle, the service that writes files during vite serve, the plugin-hook
runner, the manifest parser, the main plugin's input classification and
builtin-plugin ordering, and the small helpers around them. Each source file
of the core has one Dafny module:

- `AssetMachine` (src/files-asset.machine.ts): pure transition function `Step` over an enumerated state and a context.
- `ImageMachine` (src/fileImage.machine.ts): pure transition function `Step`.
- `WriteTracker` (src/viteAdaptor/index.ts): transitions as the function `Next`; the service as the class `Tracker`, whose `Send` drains the self-sent event queue in a loop.
- `RunPlugins` (src/index_runPlugins.ts): the four runners as one looping method proved against a fold.
- `ManifestParser` (src/files_manifestParser.ts): functions.
- `ChromeExtension` (src/index.ts): the plugin as the class `CrxPlugin` with its run-once flags; the caller's plugin array as the class `PluginArray`, changed in place.
- `SharedEvents`, `LegacyEvents` (src/files.sharedEvents.ts, src/xstate-models.ts): datatypes and functions.
- `XstateHelpers`, `UseMachine` (src/xstate_helpers.ts, src/useMachine.ts): functions, and classes for the maps and sets changed in place.
- `EsmBackground`, `Manifests` (src/plugin-esmBackground.ts): the plugin as a class; the manifest as a class, rewritten in place.
- `WrapperFileNames` (src/manifest-input/fileNames.ts): functions.
- `HtmlInputs` (src/html-inputs/index.js): functions; the plugin's closure as a class.
- `RegenerateBundle` (src/mixed-format/regenerateBundle.ts): functions.
- `SocketReloader` (reloader/socket/src/index.js): `UpdateManifest` as a method that rewrites the manifest in place.
- `Reloader` (src/reloader.js): pure `Step`/`Run`, and the plugin's closure as a class proved against them.
- `ExcludedHooks` (src/plugin-viteServeFileWriter_excludedHooks.ts): constants and lemmas.
- `Helpers` (src/helpers.ts, src/helpers.js): functions.

`Common` holds Option, Result, a JSON value and string helpers such as lodash
`capitalize` and a global string replace. `Paths` models node's posix
`path.parse`, `path.join`, `path.dirname` and `path.basename` for paths
without a trailing separator, joined from non-empty parts; the cases where it
parts from node are listed under "## Left out".

Behaviour kept as the code has it:

- Asset machine: a CHANGE for another id in `complete` goes to `ready` and
  only renders on the next START. PARSED has no payload. A root-level ERROR
  reaches the parent twice: once from the transition's action and once from
  the `error` state's entry action.
- Write tracker: `start` has no EMIT_FILE handler, so a file emitted before
  SERVER_CONFIGURE is dropped. The write and bundle workers report a failure
  with `ERROR(id, error)` against the creator's `(error, id)` order. Such an
  ERROR therefore marks no file, and `filesWritten` rejects with the file id
  (`WorkerFailureMarksNoFile`). The `addFile` action of `listening` is not
  defined in the file; it is modelled as the same append `starting` does.
- src/reloader.js calls `updateManifest(options, bundle)`, while the socket
  reloader's `updateManifest` takes `(manifest, path)`. The plugin's side only
  records the call. The socket reloader's rewrite is modelled on a manifest
  and a path, as its own signature says.
- The MV3 serve wrapper puts the already JSON-quoted path inside a second
  pair of quotes (`WorkerWrapper`).

## Model

| member | source | states |
|---|---|---|
| AssetMachine.UpdateContext | src/files-asset.machine.ts:143-157 | a LOADED or PLUGINS_RESULT payload is merged only when its id equals the context id, otherwise the context is unchanged; the id is never changed and the event type never copied |
| AssetMachine.SendFileToParent | src/files-asset.machine.ts:105-129 | a TypeError "Output file source is undefined" exactly when the result has no source; otherwise FILE_DONE with the JSON and MANIFEST sources serialised, other sources passed through, and type 'asset' |
| AssetMachine.DefaultService | src/files-asset.machine.ts:159-176 | the default loader and parser emit an ERROR whose message names the service and the asset id |
| AssetMachine.ErrorIsFinal | src/files-asset.machine.ts:32-34 | ERROR in any live state enters `error` and the unchanged event reaches the parent (from the transition and again from the entry action); in `error` every event is ignored |
| AssetMachine.ErrorAbsorbs | src/files-asset.machine.ts:95-99 | `error` is final: no sequence of events leaves it or sends anything to the parent |
| AssetMachine.StepKeepsId | src/files-asset.machine.ts:143-152 | no event changes the context id |
| AssetMachine.RunKeepsId | src/files-asset.machine.ts:143-152 | the context id is the same after any sequence of events |
| AssetMachine.EntryStartsPlugins | src/files-asset.machine.ts:49-141 | for every state and event, a step that enters `transforming` or `rendering` sends the parent exactly one PLUGINS_START carrying the whole new context and the hook 'transform' or 'render'; no other step sends a PLUGINS_START |
| AssetMachine.ParsedBranches | src/files-asset.machine.ts:62-68 | after PARSED a MANIFEST waits in `ready`; every other type goes to `rendering` and asks the parent for the render hooks |
| AssetMachine.ChangeRule | src/files-asset.machine.ts:83-94 | in `complete`, CHANGE for the own id then START leads to `loading`; CHANGE for another id then START leads through `ready` to `rendering` |
| AssetMachine.StaleResultIgnored | src/files-asset.machine.ts:150-156 | a LOADED or PLUGINS_RESULT for another id advances the state but leaves the context as it was |
| AssetMachine.DefaultLoaderFails | src/files-asset.machine.ts:159-167 | an actor spawned without a loader ends in `error`, having forwarded the loader's ERROR |
| AssetMachine.HappyPath | src/files-asset.machine.ts:40-82 | LOADED, PLUGINS_RESULT, PARSED, PLUGINS_RESULT take a non-manifest asset to `complete` with exactly the transform start, the render start and one FILE_DONE sent |
| ImageMachine.AssignFile | src/fileImage.machine.ts:59-62 | the READY file replaces every context field, the id included, with no id check |
| ImageMachine.LoadRawAsset | src/fileImage.machine.ts:66-77 | a successful read gives READY with the context's id and fields and the bytes as source; a failed read gives ERROR with the failure |
| ImageMachine.StepShape | src/fileImage.machine.ts:15-48 | the only moves are one step forward on READY along load, transform, render, complete, the CHANGE moves out of `complete`, and ERROR to `error` |
| ImageMachine.ChangeRule | src/fileImage.machine.ts:39-48 | in `complete`, CHANGE for the own id goes to `load`, for any other id to `render` |
| ImageMachine.RenderForwards | src/fileImage.machine.ts:29-37 | READY in `render` is forwarded to the parent and not merged into the context |
| ImageMachine.ReadyAssignsWithoutIdCheck | src/fileImage.machine.ts:17-28 | READY in `load` and in `transform` makes the file the new context even when its id differs |
| ImageMachine.ErrorIsFinal | src/fileImage.machine.ts:12-14 | ERROR from any live state enters the final `error` state and is forwarded; in `error` every event is ignored |
| ImageMachine.LoadToComplete | src/fileImage.machine.ts:17-37 | a file read from disk and passed on unchanged by both hook phases reaches `complete`, and the parent receives it with the bytes read |
| SharedEvents.FileTypesDistinct | src/files.sharedEvents.ts:14-24 | `fileTypes` lists nine distinct types, MODULE among them and SCRIPT not |
| SharedEvents.IsScriptIsTail | src/files.sharedEvents.ts:26-31 | isScript holds exactly for BACKGROUND, CONTENT and MODULE, the last three entries of the list |
| SharedEvents.NormalizePath | src/files.sharedEvents.ts:37-38 | every Windows separator becomes '/', every other character and the length are kept |
| SharedEvents.NormalizePathIdempotent | src/files.sharedEvents.ts:37-38 | a posix path is left alone, so normalising twice changes nothing |
| SharedEvents.AddFileEvent | src/files.sharedEvents.ts:36-40 | ADD_FILE normalises `fileName` and `id` to posix and copies the file type |
| LegacyEvents.LegacyFileTypesShape | src/xstate-models.ts:12-22 | the older list has nine distinct types and differs from the newer one only by SCRIPT in place of MODULE |
| LegacyEvents.ScriptPredicatesAgree | src/xstate-models.ts:24-29 | the older isScript holds exactly for BACKGROUND, CONTENT and SCRIPT, and agrees with the newer one on every other type |
| LegacyEvents.LegacyAddFileEvent | src/xstate-models.ts:33 | the older ADD_FILE carries its options unchanged |
| LegacyEvents.AddFileCreatorsAgree | src/xstate-models.ts:33 | the two ADD_FILE creators agree exactly on files whose id and name hold no Windows separator |
| WriteTracker.EmittedFileId | src/viteAdaptor/index.ts:45-48 | a chunk's id is its own id; an asset's id is its fileName, else its name, else "fake asset id" |
| WriteTracker.EmitFileEvent | src/viteAdaptor/index.ts:62-67 | EMIT_FILE carries the emitted file unchanged and the id `getEmittedFileId` gives it |
| WriteTracker.ErrorCreator | src/viteAdaptor/index.ts:70 | the creator's first argument becomes the error and its second the id |
| WriteTracker.WriteRequest | src/viteAdaptor/index.ts:125-129 | an asset gets WRITE_ASSET and anything else WRITE_CHUNK, carrying the same file |
| WriteTracker.Requests | src/viteAdaptor/index.ts:123-131 | one write request per buffered file, at the same position |
| WriteTracker.MarkDone | src/viteAdaptor/index.ts:164-172 | files whose id equals the event's id become done; every other file is unchanged; the length is kept |
| WriteTracker.MarkFailed | src/viteAdaptor/index.ts:176-183 | files whose id equals the event's id get the error and become done; every other file is unchanged |
| WriteTracker.ServerUrl | src/viteAdaptor/index.ts:259-271 | the server url starts with https:// or http:// as the server config says |
| WriteTracker.PlanAsset | src/viteAdaptor/index.ts:235-301 | the checks fail in the source's order (file name, source, server, port) with its messages; it succeeds exactly when all pass, writing under the build's outDir with the placeholder replaced in text sources and binary sources kept |
| WriteTracker.PlanChunk | src/viteAdaptor/index.ts:194-234 | a missing file name fails first, then a missing server; it succeeds exactly when both are present, bundling the file as given |
| WriteTracker.WaitForServerFailure | src/viteAdaptor/index.ts:304-320 | the service reports an ERROR with id 'waitForServer' exactly when there is no server or its HTTP server is null; the message is `vite httpServer is ` followed by `typeof server?.httpServer`: "undefined" without a server, "object" for a null HTTP server |
| WriteTracker.Next | src/viteAdaptor/index.ts:76-191 | every event the machine sends is one it sends to itself; a self-sent event leads to at most one more, an ERROR |
| WriteTracker.DrainUnfold | src/viteAdaptor/index.ts:123-161 | processing the queue of self-sent events terminates: each step lowers the queue's weight |
| WriteTracker.FilesWritten | src/viteAdaptor/index.ts:339-351 | resolves exactly in `serve.listening.ready`, rejects exactly in `serve.error` with lastError, or a description of it when it is undefined |
| WriteTracker.ViteServer | src/viteAdaptor/index.ts:353-358 | the stored server while in `serve`, undefined otherwise |
| WriteTracker.Tracker.constructor | src/viteAdaptor/index.ts:325-326 | the started service is in `start` with the initial context |
| WriteTracker.Tracker.Dispatch | src/viteAdaptor/index.ts:76-191 | the service's new state and the events it sends itself are those of `Next` |
| WriteTracker.Tracker.Listening | src/viteAdaptor/index.ts:148-186 | the `listening` handlers update the state as `ListeningStep` says |
| WriteTracker.Tracker.Send | src/viteAdaptor/index.ts:76-191 | the event and then every self-sent event, first in first out, give the state `Run` gives; the state stays consistent and the file list only grows |
| WriteTracker.Tracker.SendEmitFile | src/viteAdaptor/index.ts:328-333 | EMIT_FILE is sent and the file's id returned |
| WriteTracker.Tracker.SendConfigureServer | src/viteAdaptor/index.ts:335-337 | SERVER_CONFIGURE is sent |
| WriteTracker.Tracker.SendHookStart | src/viteAdaptor/index.ts:360-366 | HOOK_START is sent for the hook |
| WriteTracker.Tracker.GetViteServer | src/viteAdaptor/index.ts:353-358 | the answer `ViteServer` gives on the current state |
| WriteTracker.InitialConsistent | src/viteAdaptor/index.ts:50-54 | the initial state is consistent |
| WriteTracker.NextKeepsConsistent | src/viteAdaptor/index.ts:76-191 | one transition keeps the state consistent |
| WriteTracker.NextGrows | src/viteAdaptor/index.ts:112-185 | one transition keeps every buffered file's id and contents and never un-marks one |
| WriteTracker.ListeningGrows | src/viteAdaptor/index.ts:148-186 | the same for the `listening` handlers |
| WriteTracker.GrowsTransitive | src/viteAdaptor/index.ts:112-185 | growth composes over several steps |
| WriteTracker.DrainKeepsConsistent | src/viteAdaptor/index.ts:123-161 | processing the self-sent queue keeps the state consistent |
| WriteTracker.DrainGrows | src/viteAdaptor/index.ts:123-161 | processing the self-sent queue only grows the file list |
| WriteTracker.RunKeepsConsistent | src/viteAdaptor/index.ts:135-146 | every external event keeps the state consistent; in particular `ready` means every buffered file is done |
| WriteTracker.RunGrows | src/viteAdaptor/index.ts:112-185 | every external event keeps the buffered files in order and never un-marks one |
| WriteTracker.StartTransitions | src/viteAdaptor/index.ts:82-92 | in `start`, HOOK_START ends in `build`, SERVER_CONFIGURE stores the server and starts serving, and EMIT_FILE is dropped |
| WriteTracker.BuildIsFinal | src/viteAdaptor/index.ts:93-95 | `build` is final: no event changes the state |
| WriteTracker.StartingBuffers | src/viteAdaptor/index.ts:112-119 | while starting, EMIT_FILE appends the file, not done, at the end |
| WriteTracker.StartingError | src/viteAdaptor/index.ts:106-111 | while starting, ERROR records the error, enters `serve.error`, and `filesWritten` rejects |
| WriteTracker.ListeningRequestsEachFile | src/viteAdaptor/index.ts:122-134 | entering `listening` goes to `writing` and requests one write per buffered file, in order |
| WriteTracker.ListeningEmit | src/viteAdaptor/index.ts:149-159 | a later EMIT_FILE appends the file, goes to `writing`, and requests exactly that file's write |
| WriteTracker.EmitDoneSettles | src/viteAdaptor/index.ts:135-173 | EMIT_DONE marks the matching files and ends in `ready` exactly when every file is done, otherwise in `writing`; `filesWritten` resolves exactly then |
| WriteTracker.FailedAssetCheck | src/viteAdaptor/index.ts:291-300 | a failed asset check becomes an ERROR for that file, which marks it failed and done and ends in `serve.error` with that error |
| WriteTracker.PassedAssetCheck | src/viteAdaptor/index.ts:275-290 | a passing asset check registers a writer under the file's id and changes nothing else |
| WriteTracker.WorkerFailureMarksNoFile | src/viteAdaptor/index.ts:281-284 | a failed write calls ERROR(id, error) with its arguments swapped: no file is marked, the service enters `serve.error`, and `filesWritten` rejects with the file id instead of the error |
| WriteTracker.ListeningError | src/viteAdaptor/index.ts:174-185 | ERROR in `listening` enters `serve.error` with the error as lastError; every file whose id matches gets the event's error and is marked done, and every other file is unchanged |
| WriteTracker.NoPlaceholderLeft | src/viteAdaptor/index.ts:268-273 | after the substitution no `__VITE_SERVER_URL__` is left in a text asset, given a host without placeholder characters |
| WriteTracker.TextWithoutPlaceholderUnchanged | src/viteAdaptor/index.ts:268-273 | text without the placeholder is written as it is |
| RunPlugins.HookName | src/index_runPlugins.ts:51 | the hook name is the hook, "Crx", then the capitalised file type |
| RunPlugins.RunWith | src/index_runPlugins.ts:42-132 | the runner's loop over the plugins, in order, gives the fold of that runner's step over them, starting from a copy of the asset |
| RunPlugins.Run | src/index_runPlugins.ts:20-40 | the dispatch on the file type: CSS and HTML take the string runner, JSON the JSON runner, MANIFEST the manifest runner, IMAGE and RAW the raw runner, and any other asset is returned as it is |
| RunPlugins.NoHooksIdentity | src/index_runPlugins.ts:49-63 | when no plugin has the hook the asset comes back unchanged |
| RunPlugins.FoldAppend | src/index_runPlugins.ts:49-63 | running two plugin lists one after the other equals running their concatenation |
| RunPlugins.EachSeesPrevious | src/index_runPlugins.ts:114-130 | each plugin receives the file exactly as the plugins before it left it |
| RunPlugins.SourceOnlyKeepsIdentity | src/index_runPlugins.ts:61-129 | a string, bytes or manifest result replaces only the source, so when no hook hands back a whole asset the file keeps its id, file name and type; the manifest runner never takes one |
| RunPlugins.CssHookNames | src/index_runPlugins.ts:116-121 | CSS assets are handed to renderCrxCss and transformCrxCss |
| RunPlugins.HtmlHookNames | src/index_runPlugins.ts:116-121 | HTML assets are handed to renderCrxHtml and transformCrxHtml |
| RunPlugins.ImageHookNames | src/index_runPlugins.ts:50-54 | image assets are handed to renderCrxImage and transformCrxImage |
| RunPlugins.JsonHookNames | src/index_runPlugins.ts:96-99 | JSON assets are handed to renderCrxJson and transformCrxJson |
| RunPlugins.ManifestHookNames | src/index_runPlugins.ts:75-77 | the manifest is handed to renderCrxManifest and transformCrxManifest |
| RunPlugins.RawHookNames | src/index_runPlugins.ts:50-54 | raw assets are handed to renderCrxRaw and transformCrxRaw |
| ManifestParser.Expand | src/files_manifestParser.ts:8-18 | a name without glob magic expands to itself; a pattern to glob's matches under the root |
| ManifestParser.Files | src/files_manifestParser.ts:32-36 | one file record per expanded name, with the group's type, the name, and the root joined with the name as id |
| ManifestParser.Entries | src/files_manifestParser.ts:29-37 | every entry's id is the root joined with its file name, and its type is one the manifest groups name |
| ManifestParser.Parse | src/files_manifestParser.ts:20-49 | the service answers PARSED exactly when the manifest parses, every pattern expands, and at least one file results; otherwise an ERROR |
| ManifestParser.ExpandAllAppend | src/files_manifestParser.ts:30-31 | expanding two name lists one after the other equals expanding their concatenation |
| ManifestParser.NoMagicKeepsNames | src/files_manifestParser.ts:14-16 | without glob magic every listed name comes out once, in order |
| ManifestParser.NoMagicEntries | src/files_manifestParser.ts:29-37 | without glob magic the entries are the groups' names, group by group and in list order |
| ManifestParser.EmptyManifestFails | src/files_manifestParser.ts:39-42 | a manifest that names no file is answered with an ERROR saying the manifest must define at least one entry file |
| ManifestParser.EmptyGroupsNoEntries | src/files_manifestParser.ts:29-37 | groups with empty name lists give no entries |
| ManifestParser.ErrorsBecomeEvents | src/files_manifestParser.ts:45-47 | a failing manifest parse or glob is answered with that error as an ERROR event |
| ChromeExtension.AbsolutePath | src/index.ts:55-57 | an absolute path is kept; a relative one is joined onto the working directory |
| ChromeExtension.AbsolutePathIsAbsolute | src/index.ts:55-57 | with an absolute working directory every result is absolute |
| ChromeExtension.Builtins | src/index.ts:76-96 | every builtin's name carries the "crx:" prefix, the list is no longer than the factory results, and it is empty exactly when no factory result is present |
| ChromeExtension.BuiltinsMembers | src/index.ts:76-96 | every present factory result, with its "crx:" name, is in the list, and every entry is such a result |
| ChromeExtension.BuiltinsCount | src/index.ts:86-96 | with only the optional browser polyfill possibly missing, the list is the present factory results, prefixed, in factory order, with only the missing one skipped; its length follows |
| ChromeExtension.AllPresentCount | src/index.ts:95 | when every factory returns a plugin none is dropped: the i-th builtin is the i-th result, prefixed |
| ChromeExtension.FirstRpce | src/index.ts:112 | the index of the first RPCE plugin, or -1 exactly when there is none |
| ChromeExtension.Front | src/index.ts:108-110 | the xstate plugin is put first, the file writer second in serve only, and the validator last |
| ChromeExtension.FrontKeepsPlugins | src/index.ts:108-110 | between the leading builtins and the validator are the caller's plugins, in their order |
| ChromeExtension.SpliceParts | src/index.ts:113 | a splice keeps what was before the insertion point, then the inserted plugins, then the rest |
| ChromeExtension.WithBuiltinsEnds | src/index.ts:98-116 | the validator ends the list, which grows by all the builtins, the file writer only in serve |
| ChromeExtension.WithBuiltinsSplice | src/index.ts:112-113 | the remaining builtins follow the first RPCE plugin directly |
| ChromeExtension.NoRpceMeansFront | src/index.ts:112-113 | the remaining builtins go to the very front exactly when no caller plugin is RPCE |
| ChromeExtension.PluginArray.constructor | src/index.ts:98 | the array holds the caller's plugins |
| ChromeExtension.ServerCallbacks.constructor | src/index.ts:192 | the set holds the collected callbacks |
| ChromeExtension.ServerCallbacks.RunAll | src/index.ts:201-209 | the callbacks run in order up to and including the first that fails, and the set is empty afterwards, failure or not |
| ChromeExtension.UntilFailure | src/index.ts:203-205 | the callbacks run form a prefix: all of them, or up to the first failing one |
| ChromeExtension.UntilFailureSnoc | src/index.ts:203-205 | a callback after callbacks that all succeed is run too |
| ChromeExtension.UntilFailureStops | src/index.ts:203-205 | nothing after the first failing callback is run |
| ChromeExtension.Collect | src/index.ts:192-199 | every truthy result is collected, with no repeats and nothing else |
| ChromeExtension.CollectOrder | src/index.ts:192-209 | the callbacks are kept, and so run, in insertion order: each comes before another exactly as its first appearance among the results does |
| ChromeExtension.KindOf | src/index.ts:257-279 | a path is an HTML entry exactly when the HTML filter matches it, and a manifest exactly when it does not and its base name starts with "manifest" |
| ChromeExtension.Registration | src/index.ts:257-279 | an UPDATE_FILES is sent exactly for HTML and manifest entries |
| ChromeExtension.HtmlFileNameEndsWithHtml | src/index.ts:292-294 | the registered HTML file name ends in ".html", which is added only when missing |
| ChromeExtension.HtmlNamesAt | src/index.ts:292-294 | an object entry registers its key, with ".html" added when missing |
| ChromeExtension.Partition | src/index.ts:256-311 | every entry is either kept as input or registered once, never both and never neither |
| ChromeExtension.ArrayPartition | src/index.ts:256-280 | the same for an array input |
| ChromeExtension.ObjectPartition | src/index.ts:285-311 | the same for an object input |
| ChromeExtension.PlainKept | src/index.ts:277-279 | entries that are neither HTML nor manifests are all kept, in order, and nothing is registered |
| ChromeExtension.PlainArrayKept | src/index.ts:253-282 | an array input without HTML or manifests is passed on as it is and registers nothing |
| ChromeExtension.KeptAreOther | src/index.ts:277-279 | every kept entry is neither HTML nor a manifest |
| ChromeExtension.StringInputId | src/index.ts:241-243 | an HTML input means the manifest.json beside it; any other string is the manifest path itself |
| ChromeExtension.CrxPlugin.constructor | src/index.ts:59-97 | the plugin starts with the filtered, prefixed builtins, no hook run yet, an empty files map and nothing sent |
| ChromeExtension.CrxPlugin.AddBuiltinPlugins | src/index.ts:98-116 | the first call places the builtins in the caller's array; later calls change nothing |
| ChromeExtension.CrxPlugin.Config | src/index.ts:169-186 | only the first call acts: it records serve mode, threads the config through the builtins' hooks, and sends ROOT when the root is a string |
| ChromeExtension.CrxPlugin.ConfigureServer | src/index.ts:188-210 | only the first call acts, collecting the builtins' callbacks |
| ChromeExtension.CrxPlugin.ConfigResolved | src/index.ts:212-236 | only the first call acts; in serve that call marks the builtins placed, putting them in vite's array unless a build already did and otherwise leaving the array as it was; a later call or a build changes nothing |
| ChromeExtension.CrxPlugin.VisitPath | src/index.ts:256-280 | one array entry's callback: the UPDATE_FILES it sends is its registration (HTML under its own path, a manifest as manifest.json, nothing otherwise), and it is kept exactly when it is neither HTML nor a manifest |
| ChromeExtension.CrxPlugin.VisitEntry | src/index.ts:285-311 | one object entry's callback: the same, with the key, ".html" added when missing, as the HTML name |
| ChromeExtension.CrxPlugin.OptionsArray | src/index.ts:253-282 | the registrations are sent in order and the input is the kept paths, or the stub when none is kept |
| ChromeExtension.CrxPlugin.ScanEntries | src/index.ts:284-311 | the `forEach` over an object input yields every entry's registration in input order and the kept entries in input order |
| ChromeExtension.CrxPlugin.OptionsObject | src/index.ts:283-315 | the registrations are sent in order and the input is the kept entries, or the stub when none is kept |
| ChromeExtension.CrxPlugin.OptionsString | src/index.ts:240-252 | the manifest is registered under its absolute path and the stub becomes the input |
| ChromeExtension.CrxPlugin.Options | src/index.ts:238-331 | dispatch on the input's shape, an absent input being the empty array: a string input sends one UPDATE_FILES for the manifest at its absolute path, an array or object input sends each HTML or manifest entry's UPDATE_FILES in input order, and the kept inputs or the stub are returned with the other options passed on unchanged; outside serve the builtins are marked placed and put in rollup's plugin array the first time |
| ChromeExtension.CrxPlugin.BuildOnly | src/index.ts:320-328 | outside serve the builtins are marked placed, and the first time they are put in rollup's plugin array; in serve nothing changes |
| ChromeExtension.CrxPlugin.ResolveId | src/index.ts:375-378 | only the stub id is claimed, as itself |
| ChromeExtension.CrxPlugin.Load | src/index.ts:380-383 | only the stub id has code: a log line naming it |
| ChromeExtension.CrxPlugin.WithoutStub | src/index.ts:386 | the stub's output chunk is removed and every other bundle entry stays |
| ChromeExtension.CrxPlugin.WatchChange | src/index.ts:423-426 | the files map is emptied and CHANGE is sent |
| ChromeExtension.SilentHooksKeepConfig | src/index.ts:177-180 | builtin hooks that return nothing leave the config as it was |
| XstateHelpers.Names | src/xstate_helpers.ts:29 | a single type name becomes a one-element list; a list is kept |
| XstateHelpers.NarrowEvent | src/xstate_helpers.ts:25-39 | the event is returned unchanged exactly when its type is among the expected ones; otherwise the error names the expected types and the type received |
| XstateHelpers.NarrowOneIsList | src/xstate_helpers.ts:29 | one type name behaves exactly like a one-element list, accepting exactly events of that type |
| XstateHelpers.NarrowMessageShape | src/xstate_helpers.ts:31-35 | the message reads "Expected event", with "s" exactly when more than one type was expected, and ends with the type received |
| XstateHelpers.Assign | src/xstate_helpers.ts:63-67 | every supplied key overwrites, every other key stays, and an omitted group changes nothing |
| XstateHelpers.MachineOptions.constructor | src/xstate_helpers.ts:57 | the five implementation maps start empty |
| XstateHelpers.MachineOptions.UseConfig | src/xstate_helpers.ts:56-68 | each of the five maps is updated in place by its own group and by nothing else |
| XstateHelpers.AssignIdempotent | src/xstate_helpers.ts:63-67 | supplying the same group twice is the same as supplying it once |
| XstateHelpers.AssignTwice | src/xstate_helpers.ts:63-67 | two successive calls act as one in which the later keys win |
| UseMachine.MakeSetup | src/useMachine.ts:94-102 | the caller's context fields override the machine's one by one and the rest stay; deferEvents is on unless the caller says otherwise; devTools is passed through |
| UseMachine.DefaultSetup | src/useMachine.ts:94-102 | without a context or options from the caller the machine starts with its own context and deferred events |
| UseMachine.Waiters.constructor | src/useMachine.ts:105 | no subscription is tracked at first |
| UseMachine.Waiters.WaitFor | src/useMachine.ts:106-136 | a new subscription is made and added to the tracked set |
| UseMachine.Waiters.OnState | src/useMachine.ts:117-128 | a state that does not match changes nothing; a match with multipleMatchers drops only this subscription, a match without it unsubscribes every tracked one and empties the set |
| UseMachine.FirstMatchEndsAll | src/useMachine.ts:120-128 | a match without multipleMatchers also ends an earlier wait, whose promise never resolves |
| EsmBackground.GenerateFileNames | src/plugin-esmBackground.ts:13-22 | the wrapper name it returns is the one `getWrapperFileName` gives |
| EsmBackground.FileNamesShape | src/plugin-esmBackground.ts:8-22 | both names keep the script's name and, when it has a plain one, its directory; the wrapper ends in ".esm-wrapper.js" and the output in ".js" |
| EsmBackground.BackgroundWrapperName | src/plugin-esmBackground.ts:8-11 | "background.js" is wrapped as "background.esm-wrapper.js" |
| EsmBackground.WrapperAsset | src/plugin-esmBackground.ts:37-53 | the emitted wrapper is named by the script's wrapper name, and wrapper code without "%PATH%" is emitted as it is |
| EsmBackground.Wrappers | src/plugin-esmBackground.ts:35-57 | one wrapper name per script |
| EsmBackground.WrapperAssets | src/plugin-esmBackground.ts:35-57 | one emitted wrapper per script |
| EsmBackground.WrappersAt | src/plugin-esmBackground.ts:35-57 | the i-th wrapper name belongs to the i-th script |
| EsmBackground.WrapperAssetsAt | src/plugin-esmBackground.ts:46-55 | the i-th emitted asset is the i-th script's wrapper and carries the name that replaces the script |
| EsmBackground.WrappersSnoc | src/plugin-esmBackground.ts:35-57 | one more script adds one wrapper name and one asset at the end |
| EsmBackground.SingleBackgroundScript | src/plugin-esmBackground.ts:33-57 | a single background script "background.js" becomes the single wrapper "background.esm-wrapper.js" |
| EsmBackground.EsmBackgroundPlugin.constructor | src/plugin-esmBackground.ts:24-25 | the plugin starts outside serve with nothing emitted |
| EsmBackground.EsmBackgroundPlugin.ConfigureServer | src/plugin-esmBackground.ts:29-31 | the plugin switches to serve mode and emits nothing |
| EsmBackground.EsmBackgroundPlugin.RenderCrxManifest | src/plugin-esmBackground.ts:32-80 | an MV2 manifest with background scripts gets them replaced by their wrappers, one wrapper emitted per script in order; otherwise an MV3 manifest with a service worker is marked as a module and, in serve only, gets one wrapper importing it from the dev server; any other manifest is untouched; the same manifest object is returned and its other fields are kept |
| EsmBackground.EsmBackgroundPlugin.EmitWrapper | src/plugin-esmBackground.ts:36-56 | one script's callback emits its wrapper and returns the wrapper's name |
| EsmBackground.EsmBackgroundPlugin.EmitWrappers | src/plugin-esmBackground.ts:35-57 | the scripts are replaced by their wrapper names, in order, and one wrapper per script is emitted, in the same order |
| ExcludedHooks.RpceHookAt | src/plugin-viteServeFileWriter_excludedHooks.ts:5-18 | the record's keys are the render hooks and then the transform hooks, each in the file-type order CSS, HTML, IMAGE, JSON, MANIFEST, RAW |
| ExcludedHooks.RpceHooksAreRunnerHooks | src/plugin-viteServeFileWriter_excludedHooks.ts:5-20 | a name is a record key exactly when it is the hook name the runner builds for some phase and file type |
| ExcludedHooks.ServerHooksDistinct | src/plugin-viteServeFileWriter_excludedHooks.ts:22-31 | the eight server hooks are distinct |
| ExcludedHooks.RpceHooksDistinct | src/plugin-viteServeFileWriter_excludedHooks.ts:5-20 | the twelve runner hooks are distinct |
| ExcludedHooks.NoServerHookIsRpceHook | src/plugin-viteServeFileWriter_excludedHooks.ts:22-35 | no server hook is a runner hook |
| ExcludedHooks.ExcludedDistinct | src/plugin-viteServeFileWriter_excludedHooks.ts:33-36 | the excluded list has twenty names, none twice |
| ExcludedHooks.RunnerHooksExcluded | src/plugin-viteServeFileWriter_excludedHooks.ts:33-36 | every hook the runner can call is excluded |
| Manifests.Manifest.constructor | src/plugin-esmBackground.ts:33 | a manifest holds its version, background, description and other fields as given |
| Reloader.LoadReloader | src/reloader.js:2-14 | a custom reloader is called, "non-persistent" loads the push reloader, "persistent" the interval reloader, and anything else throws the TypeError naming the accepted values |
| Reloader.UseReloader | src/reloader.js:16-27 | outside rollup watch mode, or with a falsy reloader option, the no-op plugin; an omitted option means the push reloader; otherwise the loaded reloader, or the load error |
| Reloader.PluginName | src/reloader.js:19-33 | "no-reloader" for the no-op plugin; otherwise the reloader's name, or "reloader" when it has none |
| Reloader.CountAppend | src/reloader.js:35-74 | counting calls distributes over concatenation |
| Reloader.RunCounts | src/reloader.js:29-74 | from the start, startReloader is called exactly once if any bundle was generated; every generation creates the client files and updates the manifest; every write but the first reloads the clients |
| Reloader.GeneratedCounts | src/reloader.js:35-54 | one generateBundle starts the reloader only while the flag is set, and creates the client files and updates the manifest once each |
| Reloader.ReloadCounts | src/reloader.js:65-73 | a later writeBundle adds exactly one reloadClients call |
| Reloader.GenerateOnlyNeverReloads | src/reloader.js:56-74 | without a writeBundle the clients are never reloaded and no warning is raised |
| Reloader.NoWritesCounted | src/reloader.js:56-74 | a run of generateBundle calls only holds no write |
| Reloader.NoWarningsWithoutWrites | src/reloader.js:70-73 | warnings come only from writes |
| Reloader.StartedOnce | src/reloader.js:37-48 | two builds start the reloader once, whatever its callback said |
| Reloader.ReloaderPlugin.constructor | src/reloader.js:27-30 | both flags start set, with no call made and no warning |
| Reloader.ReloaderPlugin.GenerateBundle | src/reloader.js:35-54 | the hook updates the closure as `Step` says for generateBundle |
| Reloader.ReloaderPlugin.WriteBundle | src/reloader.js:56-74 | the hook updates the closure as `Step` says for writeBundle, a failed reload becoming the warning "message (code)" |
| Reloader.Drive | src/reloader.js:35-74 | a sequence of hook calls leaves the closure as `Run` says |
| SocketReloader.DevBackground | reloader/socket/src/index.js:35-44 | the background has at least one script and is persistent |
| SocketReloader.DevBackgroundScripts | reloader/socket/src/index.js:36-44 | the script list grows by exactly the reloader's path, at the end, earlier scripts kept in order; the MV3 fields stay; an absent background becomes one holding just the path |
| SocketReloader.DevBackgroundTwice | reloader/socket/src/index.js:40-42 | a second update appends the second path after the first |
| SocketReloader.UpdateManifest | reloader/socket/src/index.js:35-48 | the background and the development description are written in place and every other field is unchanged |
| SocketReloader.SocketReloaderPlugin | reloader/socket/src/index.js:50-56 | a function returning the socket reloader, passed as a custom reloader in watch mode, loads it and names the plugin "socket-reloader" |
| Helpers.Not | src/helpers.ts:3 | the negated predicate is false exactly where the predicate is true |
| Helpers.NotNot | src/helpers.js:4 | negating twice gives the predicate back |
| Helpers.ZipArrays | src/helpers.ts:8-9 | the result is as long as the first array |
| Helpers.ZipArraysAt | src/helpers.ts:8-9 | the i-th pair holds the i-th element of each array, undefined past the end of the second |
| Helpers.ZipArraysIgnoresExtra | src/helpers.js:9 | elements of the second array beyond the first's length are ignored |
| Helpers.Apply | src/helpers.js:17-25 | a non-string is returned as it is; a string the asset path ends with becomes the emitted asset's file name; any other string is kept |
| Helpers.MapperMatchesPath | src/helpers.js:17-25 | the asset path itself, and its base name, map to the emitted file name |
| Helpers.GetAssetPathMapFns | src/helpers.js:11-27 | one mapper per asset |
| Helpers.GetAssetPathMapFnsAt | src/helpers.js:12-16 | the i-th mapper is for the i-th asset's path and names the file emitted from its base name and contents |
| Helpers.WriteFileDestinationShape | src/helpers.js:29-33 | the file is written under its base name, directly inside the destination |
| HtmlInputs.Filter | src/html-inputs/index.js:37-39 | the kept paths satisfy the predicate, come from the input, and are no more than the input |
| HtmlInputs.FilterAppend | src/html-inputs/index.js:37-39 | filtering distributes over concatenation, so the input order is kept |
| HtmlInputs.FilterMembership | src/html-inputs/index.js:37-39 | a path is kept exactly when it is in the input and satisfies the predicate |
| HtmlInputs.PartitionCounts | src/html-inputs/index.js:37-39 | the HTML paths and the other inputs together are the input, counted with repeats |
| HtmlInputs.ResolveEntries | src/html-inputs/index.js:18-20 | each script source is joined onto the directory of its HTML file |
| HtmlInputs.JsEntriesAppend | src/html-inputs/index.js:45-48 | the script entries of two lists of HTML files are those of each, in order |
| HtmlInputs.JsEntryOrigin | src/html-inputs/index.js:45-48 | a path is a script entry exactly when some HTML file's script resolves to it |
| HtmlInputs.UnsupportedError | src/html-inputs/index.js:51-61 | stylesheets are refused first, then images, then JS assets, each exactly when an HTML file has one and none of the earlier kinds is found; no error exactly when none is found |
| HtmlInputs.HtmlFiles | src/html-inputs/index.js:63-66 | one entry per HTML file: its base name and its serialised text |
| HtmlInputs.Options | src/html-inputs/index.js:35-73 | the hook fails exactly with the unsupported-asset error; otherwise the input becomes the other inputs followed by the HTML files' scripts, every other option is kept, and the HTML files are stored |
| HtmlInputs.OptionsKeepsOtherInputs | src/html-inputs/index.js:69-72 | every non-HTML input survives, and nothing else enters the input than the HTML files' scripts |
| HtmlInputs.Writes | src/html-inputs/index.js:84-88 | one write per stored HTML file |
| HtmlInputs.WritesAt | src/html-inputs/index.js:84-86 | the i-th write puts the i-th file's text at its name inside the destination |
| HtmlInputs.WritesUseHelperDestination | src/html-inputs/index.js:84-86 | each HTML file is written where the shared `writeFile` helper would write it |
| HtmlInputs.HtmlInputsPlugin.constructor | src/html-inputs/index.js:22-25 | both closure variables start undefined and nothing is written |
| HtmlInputs.HtmlInputsPlugin.OptionsHook | src/html-inputs/index.js:35-73 | the hook answers as `Options` and stores the HTML files only on success |
| HtmlInputs.HtmlInputsPlugin.GenerateBundle | src/html-inputs/index.js:79-81 | the output directory is recorded and nothing else changes |
| HtmlInputs.HtmlInputsPlugin.WriteBundle | src/html-inputs/index.js:83-89 | before `options` stored the HTML files it fails; with files but no output directory it fails; otherwise every stored file is written, in order |
| WrapperFileNames.GenerateWrapperFileNames | src/manifest-input/fileNames.ts:16-36 | the file name is the given one or the source path relative to the source directory, and its wrapper and `.js` names are the ones the ESM background plugin derives |
| WrapperFileNames.GetImportWrapperFileName | src/manifest-input/fileNames.ts:38-44 | the wrapper name of a given file name is the ESM background plugin's |
| WrapperFileNames.GivenIgnoresRelative | src/manifest-input/fileNames.ts:24-27 | a given file name does not depend on how relative paths are computed |
| WrapperFileNames.NamesShape | src/manifest-input/fileNames.ts:28-33 | both derived names keep the input's name and, when it has a plain one, its directory |
| RegenerateBundle.ToInputObjectKeys | src/mixed-format/regenerateBundle.ts:42-46 | the input object has one key per distinct entry key, each mapping back to an input path with that key |
| RegenerateBundle.ToInputObjectLastWins | src/mixed-format/regenerateBundle.ts:43-46 | of paths sharing a key, the last one wins |
| RegenerateBundle.DefaultChunkFileNames | src/mixed-format/regenerateBundle.ts:33-39 | without a chunk file name pattern the chunks are named "[name].js" |
| RegenerateBundle.ModulesChunkFileNames | src/mixed-format/regenerateBundle.ts:33-39 | the pattern "modules/[name]-[hash].js" becomes "modules/[name].js" |
| RegenerateBundle.Prepare | src/mixed-format/regenerateBundle.ts:16-47 | a missing or array output fails first, then an undefined input; an empty input array returns an empty bundle; otherwise the build uses the input, an array turned into an object, and the chunk pattern in the output's directory |
| ChromeExtension.Kinds | src/index.ts:256 | one kind per array entry |
| ChromeExtension.EntryKinds | src/index.ts:285 | one kind per object entry |
| ChromeExtension.Kept | src/index.ts:277-279 | no more entries are kept than were visited |
| ChromeExtension.Registrations | src/index.ts:256-280 | one registration group per entry |
| ChromeExtension.EntryIds | src/index.ts:285 | one path per object entry |
| ChromeExtension.HtmlNames | src/index.ts:292-294 | one HTML name per object entry |
| Common.Capitalize | src/index_runPlugins.ts:51 | the first character upper-case, every other lower-case, the length kept |

## Left out

- The xstate runtime is not modelled. This covers `interpret`, `spawn`, `sendParent` delivery, `deferEvents`, `always` scheduling and the module-level services. Transitions are functions, and service and worker completions are input events. Only the write tracker's queue of self-sent events is modelled, first in first out.
- The root files machine (`./files.machine`) is not part of this model. The events the main plugin sends to it are recorded in `CrxPlugin.sent`.
- I/O, promises and timing are left out: file reads and writes, `bundleChunk`, the wait for the HTTP server, the rollup build of `regenerateBundle`, the socket server, and the 200 ms debounce of `reloadClients`. Their outcomes are parameters or input events.
- Foreign libraries are parameters. These are glob, `parseManifest`, `JSON.stringify`, `path.relative`, the cheerio scrapers, `createFilter`, node's `path.basename` in `KindOf`, `isRPCE`, the builtin plugin factories, the bundled wrapper and client code, and the push and interval reloader packages.
- `RunPlugins.RunWith`: hooks are pure functions of the file they receive. In-place changes a hook makes to the file or manifest object it is handed (which the runner then keeps using), and hooks that throw or reject, are not modelled; `RunPlugins.SourceOnlyKeepsIdentity` relies on this.
- `structuredClone` is implicit. Assets are values, so the caller's asset cannot be changed by a runner.
- `Paths.Join` does not normalise `.` and `..` segments or repeated separators the way node's `path.join` does. The properties about joined paths are stated for plain directories.
- `Paths.Base`, `Paths.Dir` and `Paths.Dirname` do not strip a trailing separator first. For "a/b/" node gives the base name "b" and the directory "a"; the model gives "" and "a/b".
- `Paths.Join("", "")` is "", where node's `path.join('', '')` gives ".".
- `HtmlInputs.Options` takes the input as a sequence of strings. The TypeError `input.filter` throws when rollup's `input` is a string or an object is not modelled.
- `process.cwd()` and `process.env.ROLLUP_WATCH` are parameters.
- The main plugin's `buildStart` and `generateBundle` wiring is not modelled. This covers `setupPluginsRunner`, the `handleFile` actions, `waitForState` and the Proxy of `shimPluginContext`. Only the stub removal of `generateBundle` (`WithoutStub`) is modelled.
- `waitForState` and the promise side of `waitFor` are left out. `UseMachine.Waiters` keeps the subscription bookkeeping only. A first state that reaches the listener before `matchSubs.add` runs is not modelled.
- An option key that is present with the value `undefined` is not told apart from an absent key (`UseMachine.MakeSetup`, `XstateHelpers.Assign`).
- `ChromeExtension.CrxPlugin.OptionsArray` and `ChromeExtension.CrxPlugin.OptionsObject`: the `forEach` callbacks (`VisitPath`, `VisitEntry`) return the UPDATE_FILES events they send, and the hook appends them to `sent` in the same order once the loop ends. Nothing reads `sent` in between, so the order and content of what is sent are as in the code; the moment each event is sent is not modelled.
- `Object.fromEntries` of the kept object entries is kept as a sequence of pairs. A repeated key is not collapsed (`ChromeExtension.CrxPlugin.OptionsObject`).
- `RegenerateBundle.ToInputObject` is a map, so the key order of the object `reduce` builds is not modelled.
- A `chunkFileNames` given as a function is not modelled; only strings are.
- `Reloader.LoadReloader`: a custom reloader function is taken to return a reloader object. The check `if (_reloader)` on a falsy return is not modelled.
- `CrxPlugin.ConfigResolved` does not run the builtins' own `configResolved` hooks after placing them, and `CrxPlugin.Options` / `CrxPlugin.BuildOnly` do not run the builtins' `options` hooks before the plugin array is read. Those hooks belong to the builtin plugins, which are not part of this model, so a change they make to the config or to `options.plugins` is not captured. The builtins are placed in the array as it stands when the hook is called.
- `CrxPlugin.Options`: the other options are passed on as a map of values; `options.plugins` is the `PluginArray` changed in place, not an entry of that map.
- `ReloaderPlugin.GenerateBundle` does not model what the reloader's own hooks do. Only the calls are recorded.
- `src/viteAdaptor_writeAsIIFE.ts`, the push reloader's Firebase functions, `src/index.js` (pure delegation to code that is not part of this model), the tests and the configs are not part of this model.
