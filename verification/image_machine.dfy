/**
 * The raw-asset machine for images (src/fileImage.machine.ts):
 * load -> transform -> render -> complete, each step taken on READY.
 * The services are not run; their READY/ERROR events are inputs.
 */
module ImageMachine {
  import opened Common
  import opened SharedEvents

  // `Failed` is the state the source calls `error`.
  datatype State = Load | TransformState | RenderState | Complete | Failed

  datatype ImageEvent =
    | ReadyEvent(file: Asset)
    | ChangeEvent(id: string, change: ChangeKind)
    | ErrorEvent(error: JsError)

  datatype Machine = Machine(state: State, context: Asset)

  datatype Outcome = Outcome(machine: Machine, toParent: seq<ImageEvent>)

  function Initial(asset: Asset): Machine
  {
    Machine(Load, asset)
  }

  /**
   * `assignFile`: the READY file spread over the context. The file carries
   * every field, so it replaces the context whole, id included: there is no
   * id check here.
   */
  function AssignFile(context: Asset, file: Asset): (r: Asset)
    ensures r.id == file.id && r.source == file.source
    ensures r.fileName == file.fileName && r.fileType == file.fileType
  {
    file
  }

  /** The image machine's successor state on READY, in its only forward path. */
  function Forward(s: State): State
  {
    match s
    case Load => TransformState
    case TransformState => RenderState
    case RenderState => Complete
    case Complete => Complete
    case Failed => Failed
  }

  function Step(m: Machine, e: ImageEvent): Outcome
  {
    if m.state == Failed then Outcome(m, [])
    else if e.ErrorEvent? then Outcome(Machine(Failed, m.context), [e, e])
    else
      match m.state
      case Load =>
        if e.ReadyEvent? then Outcome(Machine(TransformState, AssignFile(m.context, e.file)), [])
        else Outcome(m, [])
      case TransformState =>
        if e.ReadyEvent? then Outcome(Machine(RenderState, AssignFile(m.context, e.file)), [])
        else Outcome(m, [])
      case RenderState =>
        // The rendered file goes to the parent; the context keeps the transformed file.
        if e.ReadyEvent? then Outcome(Machine(Complete, m.context), [e])
        else Outcome(m, [])
      case Complete =>
        if e.ChangeEvent? then
          if e.id == m.context.id then Outcome(Machine(Load, m.context), [])
          else Outcome(Machine(RenderState, m.context), [])
        else Outcome(m, [])
  }

  /**
   * `loadRawAsset`: READY with the context (id and all other fields) and
   * the bytes read from disk as source, or the read failure as ERROR.
   */
  function LoadRawAsset(context: Asset, read: Result<seq<bv8>, JsError>): (e: ImageEvent)
    ensures read.Ok? ==>
              (e.ReadyEvent? && e.file.id == context.id
               && e.file.fileName == context.fileName && e.file.fileType == context.fileType
               && e.file.source == Bytes(read.value))
    ensures read.Err? ==> e == ErrorEvent(read.error)
  {
    match read
    case Ok(bytes) => ReadyEvent(context.(source := Bytes(bytes)))
    case Err(error) => ErrorEvent(error)
  }

  /**
   * The only moves are one step forward on READY, the two CHANGE moves out
   * of `complete`, and ERROR to `error`; anything else leaves the machine as
   * it was.
   */
  lemma StepShape(m: Machine, e: ImageEvent)
    ensures var next := Step(m, e).machine.state;
      || Step(m, e) == Outcome(m, [])
      || (m.state != Failed && e.ErrorEvent? && next == Failed)
      || (e.ReadyEvent? && m.state in {Load, TransformState, RenderState} && next == Forward(m.state))
      || (e.ChangeEvent? && m.state == Complete && next in {Load, RenderState})
  {
  }

  /** In `complete`, a CHANGE for this id reloads; any other id re-renders only. */
  lemma ChangeRule(context: Asset, id: string, kind: ChangeKind)
    ensures id == context.id ==> Step(Machine(Complete, context), ChangeEvent(id, kind)).machine == Machine(Load, context)
    ensures id != context.id ==> Step(Machine(Complete, context), ChangeEvent(id, kind)).machine == Machine(RenderState, context)
  {
  }

  /** The READY received in `render` is forwarded, not merged. */
  lemma RenderForwards(context: Asset, file: Asset)
    ensures Step(Machine(RenderState, context), ReadyEvent(file))
      == Outcome(Machine(Complete, context), [ReadyEvent(file)])
  {
  }

  /** READY in `load` or `transform` takes the file as the new context, even with another id. */
  lemma ReadyAssignsWithoutIdCheck(context: Asset, file: Asset)
    ensures Step(Machine(Load, context), ReadyEvent(file)).machine == Machine(TransformState, file)
    ensures Step(Machine(TransformState, context), ReadyEvent(file)).machine == Machine(RenderState, file)
  {
  }

  /** ERROR anywhere ends in the final `error` state and is forwarded (by the transition and by the entry action). */
  lemma ErrorIsFinal(m: Machine, error: JsError)
    ensures m.state != Failed ==>
      Step(m, ErrorEvent(error)) == Outcome(Machine(Failed, m.context), [ErrorEvent(error), ErrorEvent(error)])
    ensures m.state == Failed ==> forall e :: Step(m, e) == Outcome(m, [])
  {
  }

  /**
   * A file loaded from disk and passed through the transform and render
   * hooks unchanged completes, and the parent receives it with the bytes read.
   */
  lemma LoadToComplete(asset: Asset, bytes: seq<bv8>)
    ensures
      var loaded := LoadRawAsset(asset, Ok(bytes));
      var m1 := Step(Initial(asset), loaded).machine;
      var m2 := Step(m1, loaded).machine;
      var o3 := Step(m2, loaded);
      o3.machine.state == Complete && o3.toParent == [ReadyEvent(asset.(source := Bytes(bytes)))]
  {
  }
}
