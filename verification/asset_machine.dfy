/**
 * The per-file asset machine (src/files-asset.machine.ts) as a pure
 * transition function: (state, context, event) -> (state, context, events
 * sent to the parent). The loader and parser services are not run: what
 * they would send arrives as ordinary input events.
 */
module AssetMachine {
  import opened Common
  import opened SharedEvents

  datatype State = Changed | Loading | Transforming | Parsing | Ready | Rendering | Complete | Failed

  // `Failed` is the state the source calls `error`.

  /**
   * The machine's own events plus the shared ones. PARSED is built by a
   * creator without parameters, so it carries nothing.
   */
  datatype AssetEvent =
    | Parsed
    | Loaded(id: string, source: Source)
    | Shared(event: SharedEvent)

  datatype Machine = Machine(state: State, context: Asset)

  /**
   * The result of one event: the next machine and the events sent to the
   * parent, in order; or the error an action threw, which leaves the
   * machine as it was.
   */
  datatype Outcome =
    | Stepped(machine: Machine, toParent: seq<AssetEvent>)
    | Thrown(error: JsError)

  /** The machine as spawned: in `loading`, with the registered asset as context. */
  function Initial(asset: Asset): Machine
  {
    Machine(Loading, asset)
  }

  /**
   * `updateContext`: a LOADED or PLUGINS_RESULT event is merged into the
   * context only when its id is the context id; the id itself and the
   * event type are never copied.
   */
  function UpdateContext(context: Asset, e: AssetEvent): (r: Asset)
    requires e.Loaded? || (e.Shared? && e.event.PluginsResult?)
    ensures r.id == context.id
    ensures e.Loaded? ==>
      r == (if e.id == context.id then context.(source := e.source) else context)
    ensures e.Shared? ==>
      var res := e.event.result;
      r == (if res.id == context.id
            then Asset(context.id, res.fileName, res.fileType, res.source)
            else context)
  {
    match e
    case Loaded(id, source) =>
      if id == context.id then context.(source := source) else context
    case Shared(PluginsResult(result)) =>
      if result.id == context.id
      then Asset(context.id, result.fileName, result.fileType, result.source)
      else context
  }

  /** The source written out: JSON and MANIFEST sources are serialised, others pass through. */
  function OutputSource(result: Asset, stringify: Source -> string): Source
  {
    if result.fileType == JSON || result.fileType == MANIFEST
    then Text(stringify(result.source))
    else result.source
  }

  /**
   * `sendFileToParent`: FILE_DONE built from the PLUGINS_RESULT payload,
   * or a TypeError when that payload has no source.
   */
  function SendFileToParent(result: Asset, stringify: Source -> string): (r: Result<AssetEvent, JsError>)
    ensures result.source.Undefined? <==> r.Err?
    ensures r.Err? ==> r.error == JsError("TypeError", "Output file source is undefined")
    ensures r.Ok? ==> r.value == Shared(FileDone(CompleteFile(
      result.id, result.fileName, result.fileType, OutputSource(result, stringify), "asset")))
  {
    if result.source.Undefined?
    then Err(JsError("TypeError", "Output file source is undefined"))
    else Ok(Shared(FileDone(CompleteFile(
      result.id, result.fileName, result.fileType, OutputSource(result, stringify), "asset"))))
  }

  /** `startPluginTransform` / `startPluginRender`: the whole context plus the hook name. */
  function StartPlugins(context: Asset, hook: Hook): AssetEvent
  {
    Shared(PluginsStart(context, hook))
  }

  /** One event, with the guards evaluated in the order the source lists them. */
  function Step(m: Machine, e: AssetEvent, stringify: Source -> string): Outcome
  {
    if m.state == Failed then
      // `error` is a top-level final state: the machine is done.
      Stepped(m, [])
    else if e.Shared? && e.event.Error? then
      // Root-level ERROR: the transition action and the entry action of
      // `error` both forward the event.
      Stepped(Machine(Failed, m.context), [e, e])
    else
      match m.state
      case Changed =>
        if e == Shared(Start) then Stepped(Machine(Loading, m.context), []) else Stepped(m, [])
      case Loading =>
        if e.Loaded? then
          var c := UpdateContext(m.context, e);
          Stepped(Machine(Transforming, c), [StartPlugins(c, Transform)])
        else Stepped(m, [])
      case Transforming =>
        if e.Shared? && e.event.PluginsResult? then
          Stepped(Machine(Parsing, UpdateContext(m.context, e)), [])
        else Stepped(m, [])
      case Parsing =>
        if e.Shared? && e.event.AddFile? then Stepped(m, [e])
        else if e.Parsed? then
          if m.context.fileType == MANIFEST then Stepped(Machine(Ready, m.context), [])
          else Stepped(Machine(Rendering, m.context), [StartPlugins(m.context, Render)])
        else Stepped(m, [])
      case Ready =>
        if e == Shared(Start) then
          Stepped(Machine(Rendering, m.context), [StartPlugins(m.context, Render)])
        else Stepped(m, [])
      case Rendering =>
        if e.Shared? && e.event.PluginsResult? then
          match SendFileToParent(e.event.result, stringify)
          case Err(error) => Thrown(error)
          case Ok(done) => Stepped(Machine(Complete, m.context), [done])
        else Stepped(m, [])
      case Complete =>
        if e.Shared? && e.event.Change? then
          if e.event.id == m.context.id then Stepped(Machine(Changed, m.context), [])
          else Stepped(Machine(Ready, m.context), [])
        else Stepped(m, [])
  }

  /** The machine after a sequence of events (a thrown action leaves it as it was). */
  function Run(m: Machine, events: seq<AssetEvent>, stringify: Source -> string): Machine
    decreases |events|
  {
    if |events| == 0 then m
    else
      var next := match Step(m, events[0], stringify)
        case Stepped(m', _) => m'
        case Thrown(_) => m;
      Run(next, events[1..], stringify)
  }

  /** Everything sent to the parent while running a sequence of events. */
  function RunOutput(m: Machine, events: seq<AssetEvent>, stringify: Source -> string): seq<AssetEvent>
    decreases |events|
  {
    if |events| == 0 then []
    else
      match Step(m, events[0], stringify)
      case Stepped(m', out) => out + RunOutput(m', events[1..], stringify)
      case Thrown(_) => RunOutput(m, events[1..], stringify)
  }

  /** The services a spawned actor has when none are configured. */
  datatype Service = Loader | Parser
  {
    function Name(): string
    {
      match this
      case Loader => "loader"
      case Parser => "parser"
    }
  }

  /** The default `loader`/`parser`: an ERROR naming the service and the id. */
  function DefaultService(service: Service, context: Asset): (e: AssetEvent)
    ensures e.Shared? && e.event.Error?
    ensures e.event.error.message ==
      "service \"" + service.Name() + "\" is not defined on \"" + context.id + "\""
  {
    Shared(Error(JsError("Error",
      "service \"" + service.Name() + "\" is not defined on \"" + context.id + "\"")))
  }

  // ---------------------------------------------------------------------
  // Properties of the transition table
  // ---------------------------------------------------------------------

  /** ERROR in any live state ends in `error`; the parent gets the event, unchanged, twice. */
  lemma ErrorIsFinal(m: Machine, error: JsError, stringify: Source -> string)
    ensures m.state != Failed ==>
      Step(m, Shared(Error(error)), stringify) ==
        Stepped(Machine(Failed, m.context), [Shared(Error(error)), Shared(Error(error))])
    ensures m.state == Failed ==> forall e :: Step(m, e, stringify) == Stepped(m, [])
  {
  }

  /** Once in `error`, no sequence of events leaves it or sends anything. */
  lemma {:induction false} ErrorAbsorbs(m: Machine, events: seq<AssetEvent>, stringify: Source -> string)
    requires m.state == Failed
    ensures Run(m, events, stringify) == m
    ensures RunOutput(m, events, stringify) == []
    decreases |events|
  {
    if |events| > 0 {
      ErrorAbsorbs(m, events[1..], stringify);
    }
  }

  /** No event ever changes the context id. */
  lemma StepKeepsId(m: Machine, e: AssetEvent, stringify: Source -> string)
    ensures Step(m, e, stringify).Stepped? ==> Step(m, e, stringify).machine.context.id == m.context.id
  {
  }

  /** ... so the id is the same after any run. */
  lemma {:induction false} RunKeepsId(m: Machine, events: seq<AssetEvent>, stringify: Source -> string)
    ensures Run(m, events, stringify).context.id == m.context.id
    decreases |events|
  {
    if |events| > 0 {
      StepKeepsId(m, events[0], stringify);
      var next := match Step(m, events[0], stringify)
        case Stepped(m', _) => m'
        case Thrown(_) => m;
      RunKeepsId(next, events[1..], stringify);
    }
  }

  /** The hook phase whose entry action asks the parent to run plugins, if the state has one. */
  predicate StartsPlugins(state: State)
  {
    state == Transforming || state == Rendering
  }

  /**
   * Entering `transforming` or `rendering` sends the parent exactly one
   * PLUGINS_START with the whole new context and the phase's hook; no
   * other step sends a PLUGINS_START.
   */
  lemma EntryStartsPlugins(m: Machine, e: AssetEvent, stringify: Source -> string)
    ensures Step(m, e, stringify).Stepped? ==>
      var m2, out := Step(m, e, stringify).machine, Step(m, e, stringify).toParent;
      m2.state != m.state && StartsPlugins(m2.state) ==>
        out == [StartPlugins(m2.context, if m2.state == Transforming then Transform else Render)]
    ensures Step(m, e, stringify).Stepped? ==>
      var m2, out := Step(m, e, stringify).machine, Step(m, e, stringify).toParent;
      forall k :: 0 <= k < |out| && out[k].Shared? && out[k].event.PluginsStart? ==>
        m2.state != m.state && StartsPlugins(m2.state)
  {
  }

  /** After PARSED a MANIFEST waits in `ready`; every other type renders at once. */
  lemma ParsedBranches(context: Asset, stringify: Source -> string)
    ensures context.fileType == MANIFEST ==>
      Step(Machine(Parsing, context), Parsed, stringify) == Stepped(Machine(Ready, context), [])
    ensures context.fileType != MANIFEST ==>
      Step(Machine(Parsing, context), Parsed, stringify) ==
        Stepped(Machine(Rendering, context), [Shared(PluginsStart(context, Render))])
  {
  }

  /**
   * In `complete`, a CHANGE for this id leads through `changed` back to
   * `loading` on START; a CHANGE for another id leads through `ready`
   * straight to `rendering`.
   */
  lemma ChangeRule(context: Asset, id: string, kind: ChangeKind, stringify: Source -> string)
    ensures id == context.id ==>
      Run(Machine(Complete, context), [Shared(Change(id, kind)), Shared(Start)], stringify)
        == Machine(Loading, context)
    ensures id != context.id ==>
      Run(Machine(Complete, context), [Shared(Change(id, kind)), Shared(Start)], stringify)
        == Machine(Rendering, context)
    ensures id != context.id ==>
      RunOutput(Machine(Complete, context), [Shared(Change(id, kind)), Shared(Start)], stringify)
        == [Shared(PluginsStart(context, Render))]
  {
    var es := [Shared(Change(id, kind)), Shared(Start)];
    var m0 := Machine(Complete, context);
    var m1 := if id == context.id then Machine(Changed, context) else Machine(Ready, context);
    var m2 := if id == context.id then Machine(Loading, context) else Machine(Rendering, context);
    var out2: seq<AssetEvent> := if id == context.id then [] else [StartPlugins(context, Render)];
    assert es[1..] == [Shared(Start)];
    assert es[1..][1..] == [];
    assert Step(m0, es[0], stringify) == Stepped(m1, []);
    assert Step(m1, es[1..][0], stringify) == Stepped(m2, out2);
    assert Run(m0, es, stringify) == Run(m1, es[1..], stringify) == Run(m2, es[1..][1..], stringify);
    assert RunOutput(m0, es, stringify) == [] + RunOutput(m1, es[1..], stringify);
    assert RunOutput(m1, es[1..], stringify) == out2 + RunOutput(m2, es[1..][1..], stringify);
  }

  /** A result for another id (a stale result) never changes the context. */
  lemma StaleResultIgnored(context: Asset, result: Asset, stringify: Source -> string)
    requires result.id != context.id
    ensures Step(Machine(Transforming, context), Shared(PluginsResult(result)), stringify)
      == Stepped(Machine(Parsing, context), [])
    ensures forall source ::
      (Step(Machine(Loading, context), Loaded(result.id, source), stringify)
        == Stepped(Machine(Transforming, context), [Shared(PluginsStart(context, Transform))]))
  {
  }

  /** An actor spawned without services reports the missing loader and ends in `error`. */
  lemma {:induction false} DefaultLoaderFails(asset: Asset, stringify: Source -> string)
    ensures Run(Initial(asset), [DefaultService(Loader, asset)], stringify) == Machine(Failed, asset)
    ensures RunOutput(Initial(asset), [DefaultService(Loader, asset)], stringify)
      == [DefaultService(Loader, asset), DefaultService(Loader, asset)]
  {
    var es := [DefaultService(Loader, asset)];
    assert es[1..] == [];
  }

  /**
   * The happy path of a non-manifest asset: loaded, transformed, parsed and
   * rendered, it reaches `complete` having asked for both hook phases and
   * sent exactly one FILE_DONE.
   */
  lemma {:induction false} HappyPath(asset: Asset, loaded: Source, transformed: Asset, rendered: Asset,
                                     stringify: Source -> string)
    requires asset.fileType != MANIFEST
    requires transformed.id == asset.id && transformed.fileType == asset.fileType
    requires !rendered.source.Undefined?
    ensures
      var events := [Loaded(asset.id, loaded), Shared(PluginsResult(transformed)), Parsed,
                     Shared(PluginsResult(rendered))];
      var afterLoad := asset.(source := loaded);
      Run(Initial(asset), events, stringify) == Machine(Complete, transformed)
      && RunOutput(Initial(asset), events, stringify) ==
         [ Shared(PluginsStart(afterLoad, Transform)),
           Shared(PluginsStart(transformed, Render)),
           SendFileToParent(rendered, stringify).value ]
  {
    var events := [Loaded(asset.id, loaded), Shared(PluginsResult(transformed)), Parsed,
                   Shared(PluginsResult(rendered))];
    var afterLoad := asset.(source := loaded);
    var m1 := Machine(Transforming, afterLoad);
    var m2 := Machine(Parsing, transformed);
    var m3 := Machine(Rendering, transformed);
    var m4 := Machine(Complete, transformed);
    assert Step(Initial(asset), events[0], stringify) == Stepped(m1, [StartPlugins(afterLoad, Transform)]);
    assert Step(m1, events[1], stringify) == Stepped(m2, []);
    assert Step(m2, events[2], stringify) == Stepped(m3, [StartPlugins(transformed, Render)]);
    assert Step(m3, events[3], stringify) == Stepped(m4, [SendFileToParent(rendered, stringify).value]);
    assert events[1..][1..][1..][1..] == [];
    calc {
      RunOutput(Initial(asset), events, stringify);
      [StartPlugins(afterLoad, Transform)] + RunOutput(m1, events[1..], stringify);
      [StartPlugins(afterLoad, Transform)] + RunOutput(m2, events[1..][1..], stringify);
      [StartPlugins(afterLoad, Transform)] + ([StartPlugins(transformed, Render)]
        + RunOutput(m3, events[1..][1..][1..], stringify));
      [StartPlugins(afterLoad, Transform)] + ([StartPlugins(transformed, Render)]
        + ([SendFileToParent(rendered, stringify).value] + RunOutput(m4, events[1..][1..][1..][1..], stringify)));
    }
    assert Run(Initial(asset), events, stringify) == Run(m1, events[1..], stringify);
    assert Run(m1, events[1..], stringify) == Run(m2, events[1..][1..], stringify);
    assert Run(m2, events[1..][1..], stringify) == Run(m3, events[1..][1..][1..], stringify);
    assert Run(m3, events[1..][1..][1..], stringify) == Run(m4, events[1..][1..][1..][1..], stringify);
  }
}
