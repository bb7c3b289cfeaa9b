/**
 * The auto-reloader plugin of src/reloader.js: which reloader is loaded,
 * and the two flags that make `startReloader` run once and make the first
 * `writeBundle` skip reloading the clients.
 */
module Reloader {
  import opened Common

  /**
   * A loaded reloader, as far as the plugin looks at it: its `name`, and
   * the value its `startReloader` hands to the callback (`None` when it
   * never calls it).
   */
  datatype ReloaderObject = ReloaderObject(name: Option<string>, startSignal: Option<bool>)

  /**
   * The `reloader` option: absent, a string, a function (modelled by the
   * object it returns), or any other value, truthy or falsy.
   */
  datatype ReloaderOption = Absent | Named(s: string) | Custom(made: ReloaderObject) | OtherFalsy | OtherTruthy

  const NonPersistent := "non-persistent"
  const Persistent := "persistent"
  const LoadError := "reloader type should be \"persistent\", \"non-persistent\", or a custom reloader"

  /** JavaScript truthiness of the option; the empty string is falsy. */
  predicate IsTruthy(r: ReloaderOption)
  {
    match r
    case Absent => false
    case Named(s) => s != ""
    case Custom(_) => true
    case OtherFalsy => false
    case OtherTruthy => true
  }

  /**
   * `loadReloader`: a function is called, the two names load the push and
   * the interval reloader (both external packages, so parameters), and
   * anything else is a TypeError.
   */
  function LoadReloader(r: ReloaderOption, push: ReloaderObject, interval: ReloaderObject): (res: Result<ReloaderObject, string>)
    ensures res.Ok? <==> r.Custom? || r == Named(NonPersistent) || r == Named(Persistent)
    ensures r.Custom? ==> res == Ok(r.made)
    ensures r == Named(NonPersistent) ==> res == Ok(push)
    ensures r == Named(Persistent) ==> res == Ok(interval)
    ensures res.Err? ==> res.error == LoadError
  {
    match r
    case Custom(made) => Ok(made)
    case Named(s) =>
      if s == NonPersistent then Ok(push)
      else if s == Persistent then Ok(interval)
      else Err(LoadError)
    case _ => Err(LoadError)
  }

  /** What `useReloader` returns: the do-nothing plugin, or one driving a loaded reloader. */
  datatype ReloaderPluginKind = NoReloader | Reloading(reloader: ReloaderObject)

  /**
   * `useReloader`: an absent option means "non-persistent"; outside watch
   * mode (`ROLLUP_WATCH` unset or empty, a parameter) or with a falsy
   * option the plugin does nothing; otherwise the option is loaded, and a
   * load failure is thrown.
   */
  function UseReloader(option: ReloaderOption, rollupWatch: Option<string>, push: ReloaderObject, interval: ReloaderObject): (res: Result<ReloaderPluginKind, string>)
    ensures rollupWatch.None? || rollupWatch == Some("") ==> res == Ok(NoReloader)
    ensures option.Absent? && rollupWatch.Some? && rollupWatch.value != "" ==> res == Ok(Reloading(push))
    ensures !option.Absent? && !IsTruthy(option) ==> res == Ok(NoReloader)
    ensures res.Ok? && res.value.Reloading? ==> rollupWatch.Some? && rollupWatch.value != "" && (option.Absent? || IsTruthy(option))
    ensures res.Err? ==> res.error == LoadError && IsTruthy(option) && !option.Custom?
  {
    var effective := if option.Absent? then Named(NonPersistent) else option;
    if rollupWatch.None? || rollupWatch.value == "" || !IsTruthy(effective) then Ok(NoReloader)
    else
      match LoadReloader(effective, push, interval)
      case Ok(loaded) => Ok(Reloading(loaded))
      case Err(e) => Err(e)
  }

  /** The plugin's `name`: "no-reloader", or the reloader's name when it is a non-empty string, else "reloader". */
  function PluginName(kind: ReloaderPluginKind): (r: string)
    ensures kind.NoReloader? ==> r == "no-reloader"
    ensures kind.Reloading? && kind.reloader.name.Some? && kind.reloader.name.value != "" ==> r == kind.reloader.name.value
    ensures kind.Reloading? && (kind.reloader.name.None? || kind.reloader.name.value == "") ==> r == "reloader"
  {
    match kind
    case NoReloader => "no-reloader"
    case Reloading(reloader) =>
      if reloader.name.Some? && reloader.name.value != "" then reloader.name.value else "reloader"
  }

  /** A call the plugin makes on the reloader. */
  datatype ReloaderCall = StartReloader | CreateClientFiles | UpdateManifest | ReloadClients

  /** How a `reloadClients` promise settles: fulfilled, or rejected with an error's `message` and `code`. */
  datatype ReloadOutcome = Reloaded | Failed(message: string, code: string)

  /** A hook call rollup makes on the plugin. */
  datatype HookCall = GenerateBundle | WriteBundle(outcome: ReloadOutcome)

  /** The plugin's closure: the two flags, the calls made so far, and the warnings raised. */
  datatype State = State(startReloader: bool, firstRun: bool, calls: seq<ReloaderCall>, warnings: seq<string>)

  const Initial := State(true, true, [], [])

  /** The warning a failed reload becomes. */
  function ReloadWarning(message: string, code: string): string
  {
    message + " (" + code + ")"
  }

  /**
   * One hook call. `generateBundle` starts the reloader only while the flag
   * is set, then forces the flag off whatever the callback said, and always
   * creates the client files and updates the manifest. `writeBundle` clears
   * `firstRun` the first time and otherwise reloads the clients, a failure
   * becoming a warning.
   */
  function Step(s: State, h: HookCall): State
  {
    match h
    case GenerateBundle =>
      s.(startReloader := false, calls := s.calls + GeneratedCalls(s.startReloader))
    case WriteBundle(outcome) =>
      if s.firstRun then s.(firstRun := false)
      else
        var warned := if outcome.Failed? then [ReloadWarning(outcome.message, outcome.code)] else [];
        s.(calls := s.calls + [ReloadClients], warnings := s.warnings + warned)
  }

  /** The reloader hooks one `generateBundle` calls, in order. */
  function GeneratedCalls(start: bool): seq<ReloaderCall>
  {
    (if start then [StartReloader] else []) + [CreateClientFiles, UpdateManifest]
  }

  /** The hook calls applied in order. */
  function Run(s: State, hs: seq<HookCall>): State
  {
    if |hs| == 0 then s else Step(Run(s, hs[..|hs| - 1]), hs[|hs| - 1])
  }

  function Count(calls: seq<ReloaderCall>, c: ReloaderCall): nat
  {
    if |calls| == 0 then 0 else Count(calls[..|calls| - 1], c) + (if calls[|calls| - 1] == c then 1 else 0)
  }

  lemma {:induction false} CountAppend(a: seq<ReloaderCall>, b: seq<ReloaderCall>, c: ReloaderCall)
    ensures Count(a + b, c) == Count(a, c) + Count(b, c)
    decreases |b|
  {
    if |b| == 0 {
      assert a + b == a;
    } else {
      assert (a + b)[..|a + b| - 1] == a + b[..|b| - 1];
      CountAppend(a, b[..|b| - 1], c);
    }
  }

  function CountGenerates(hs: seq<HookCall>): nat
  {
    if |hs| == 0 then 0 else CountGenerates(hs[..|hs| - 1]) + (if hs[|hs| - 1].GenerateBundle? then 1 else 0)
  }

  function CountWrites(hs: seq<HookCall>): nat
  {
    if |hs| == 0 then 0 else CountWrites(hs[..|hs| - 1]) + (if hs[|hs| - 1].WriteBundle? then 1 else 0)
  }

  /**
   * From the start: `startReloader` is called exactly once if any bundle was
   * generated (and never otherwise); every generation creates the client
   * files and updates the manifest; every write but the first reloads the clients.
   */
  lemma {:induction false} RunCounts(hs: seq<HookCall>)
    ensures var s := Run(Initial, hs);
      && Count(s.calls, StartReloader) == (if CountGenerates(hs) > 0 then 1 else 0)
      && Count(s.calls, CreateClientFiles) == CountGenerates(hs)
      && Count(s.calls, UpdateManifest) == CountGenerates(hs)
      && Count(s.calls, ReloadClients) == (if CountWrites(hs) > 0 then CountWrites(hs) - 1 else 0)
      && s.startReloader == (CountGenerates(hs) == 0)
      && s.firstRun == (CountWrites(hs) == 0)
  {
    if |hs| > 0 {
      var prefix := hs[..|hs| - 1];
      RunCounts(prefix);
      var s := Run(Initial, prefix);
      if hs[|hs| - 1].GenerateBundle? {
        GeneratedCounts(s.calls, s.startReloader);
      } else if !s.firstRun {
        ReloadCounts(s.calls);
      }
    }
  }

  /** What one `generateBundle` adds to the per-hook call counts. */
  lemma GeneratedCounts(calls: seq<ReloaderCall>, start: bool)
    ensures Count(calls + GeneratedCalls(start), StartReloader) == Count(calls, StartReloader) + (if start then 1 else 0)
    ensures Count(calls + GeneratedCalls(start), CreateClientFiles) == Count(calls, CreateClientFiles) + 1
    ensures Count(calls + GeneratedCalls(start), UpdateManifest) == Count(calls, UpdateManifest) + 1
    ensures Count(calls + GeneratedCalls(start), ReloadClients) == Count(calls, ReloadClients)
  {
    var g := GeneratedCalls(start);
    CountAppend(calls, g, StartReloader);
    CountAppend(calls, g, CreateClientFiles);
    CountAppend(calls, g, UpdateManifest);
    CountAppend(calls, g, ReloadClients);
    var tail := [CreateClientFiles, UpdateManifest];
    assert tail[..1] == [CreateClientFiles] && tail[..1][..0] == [];
    if start {
      assert g == [StartReloader] + tail;
      CountAppend([StartReloader], tail, StartReloader);
      CountAppend([StartReloader], tail, CreateClientFiles);
      CountAppend([StartReloader], tail, UpdateManifest);
      CountAppend([StartReloader], tail, ReloadClients);
      assert [StartReloader][..0] == [];
    } else {
      assert g == tail;
    }
  }

  /** What one reloading `writeBundle` adds to the per-hook call counts. */
  lemma ReloadCounts(calls: seq<ReloaderCall>)
    ensures Count(calls + [ReloadClients], StartReloader) == Count(calls, StartReloader)
    ensures Count(calls + [ReloadClients], CreateClientFiles) == Count(calls, CreateClientFiles)
    ensures Count(calls + [ReloadClients], UpdateManifest) == Count(calls, UpdateManifest)
    ensures Count(calls + [ReloadClients], ReloadClients) == Count(calls, ReloadClients) + 1
  {
    assert (calls + [ReloadClients])[..|calls|] == calls;
  }

  /** A run that only generates bundles, as the reloader-injection test does, never reloads the clients. */
  lemma GenerateOnlyNeverReloads(hs: seq<HookCall>)
    requires forall i :: 0 <= i < |hs| ==> hs[i].GenerateBundle?
    ensures Count(Run(Initial, hs).calls, ReloadClients) == 0
    ensures Run(Initial, hs).warnings == []
  {
    RunCounts(hs);
    NoWritesCounted(hs);
    NoWarningsWithoutWrites(hs);
  }

  lemma {:induction false} NoWritesCounted(hs: seq<HookCall>)
    requires forall i :: 0 <= i < |hs| ==> hs[i].GenerateBundle?
    ensures CountWrites(hs) == 0
  {
    if |hs| > 0 {
      NoWritesCounted(hs[..|hs| - 1]);
    }
  }

  lemma {:induction false} NoWarningsWithoutWrites(hs: seq<HookCall>)
    requires forall i :: 0 <= i < |hs| ==> hs[i].GenerateBundle?
    ensures Run(Initial, hs).warnings == []
  {
    if |hs| > 0 {
      NoWarningsWithoutWrites(hs[..|hs| - 1]);
    }
  }

  /** Whatever the reloader's callback reports, a second generation does not start it again. */
  lemma StartedOnce()
    ensures Count(Run(Initial, [GenerateBundle, GenerateBundle]).calls, StartReloader) == 1
  {
    RunCounts([GenerateBundle, GenerateBundle]);
    assert [GenerateBundle, GenerateBundle][..1] == [GenerateBundle];
    assert [GenerateBundle][..0] == [];
  }

  /**
   * The plugin object of a loaded reloader. The reloader's own hooks are
   * recorded in `calls`; what they do is not part of this class.
   */
  class ReloaderPlugin {
    const reloader: ReloaderObject
    var startReloader: bool
    var firstRun: bool
    var calls: seq<ReloaderCall>
    var warnings: seq<string>

    function Snapshot(): State
      reads this
    {
      State(startReloader, firstRun, calls, warnings)
    }

    constructor (reloader: ReloaderObject)
      ensures this.reloader == reloader
      ensures Snapshot() == Initial
    {
      this.reloader := reloader;
      startReloader, firstRun, calls, warnings := true, true, [], [];
    }

    /**
     * `generateBundle`: the callback handed to `startReloader` sets the flag
     * to the reloader's signal, and the flag is then forced off.
     */
    method GenerateBundle()
      modifies this
      ensures Snapshot() == Step(old(Snapshot()), HookCall.GenerateBundle)
    {
      var start := startReloader;
      if startReloader {
        calls := calls + [StartReloader];
        if reloader.startSignal.Some? {
          startReloader := reloader.startSignal.value;
        }
        startReloader := false;
      }
      calls := calls + [CreateClientFiles];
      calls := calls + [UpdateManifest];
      assert calls == old(calls) + GeneratedCalls(start);
    }

    /** `writeBundle`: `outcome` is how the returned `reloadClients` promise settles. */
    method WriteBundle(outcome: ReloadOutcome)
      modifies this
      ensures Snapshot() == Step(old(Snapshot()), HookCall.WriteBundle(outcome))
    {
      if firstRun {
        firstRun := false;
        return;
      }
      calls := calls + [ReloadClients];
      if outcome.Failed? {
        warnings := warnings + [ReloadWarning(outcome.message, outcome.code)];
      }
    }
  }

  /** Rollup driving the plugin through a sequence of hook calls. */
  method Drive(p: ReloaderPlugin, hs: seq<HookCall>)
    modifies p
    ensures p.Snapshot() == Run(old(p.Snapshot()), hs)
  {
    var i := 0;
    while i < |hs|
      invariant 0 <= i <= |hs|
      invariant p.Snapshot() == Run(old(p.Snapshot()), hs[..i])
    {
      assert hs[..i + 1][..i] == hs[..i];
      match hs[i] {
        case GenerateBundle => p.GenerateBundle();
        case WriteBundle(outcome) => p.WriteBundle(outcome);
      }
      i := i + 1;
    }
    assert hs[..i] == hs;
  }
}
