/**
 * The dev-server write tracker (src/viteAdaptor/index.ts): a long-lived
 * service that, in vite serve, takes the files plugins emit, buffers them
 * until the dev server listens, asks for one write per file, and tracks
 * which writes are done or failed.
 *
 * The machine's transitions are the pure function `Next`; the service is
 * the class `WriteTracker`, whose `Send` applies an event and then the
 * events the machine sent to itself, first in first out, as the
 * interpreter does. Write workers, the bundler and the wait for the
 * server are not run: their completions are input events.
 */
module WriteTracker {
  import opened Common
  import opened Paths
  import opened SharedEvents

  const ViteServerUrl := "__VITE_SERVER_URL__"
  const FakeAssetId := "fake asset id"
  const ChunkFileNameMissing := "EmittedChunk.fileName must be defined in vite serve"
  const AssetFileNameMissing := "EmittedAsset.fileName must be defined in vite serve"
  const AssetSourceMissing := "EmittedAsset.source must be defined in vite serve"
  const ServerMissing := "vite server is undefined"
  const PortMissing := "vite server port is undefined"

  /** A JavaScript value carried by ERROR: undefined, a string, or an Error object. */
  datatype Value = Missing | Str(s: string) | ErrObj(e: JsError)

  /** rollup's EmittedFile: an asset or a chunk. */
  datatype EmittedFile =
    | EmittedAsset(name: Option<string>, fileName: Option<string>, source: Source)
    | EmittedChunk(chunkId: string, fileName: Option<string>)

  /** vite's `server.httpServer`: an `http.Server`, or `null` (as in middleware mode). */
  datatype HttpServer = NullHttpServer | LiveHttpServer

  /** The parts of the vite dev server the service reads. */
  datatype Server = Server(outDir: string, port: Option<nat>, host: Option<string>, https: bool, httpServer: HttpServer)

  /** A buffered file: its id, the emitted file, and the `done`/`error` marks. */
  datatype TrackedFile = TrackedFile(id: string, file: EmittedFile, done: bool, error: Value)

  /** What a writer actor writes: the output path and the contents. */
  datatype WriteJob = WriteJob(path: string, contents: Source)

  datatype TrackerEvent =
    | WriteAsset(file: TrackedFile)
    | WriteChunk(file: TrackedFile)
    | EmitFile(id: string, emitted: EmittedFile)
    | EmitDone(doneId: string)
    | HookStart(hookName: string)
    | ErrorEvent(errorId: Value, error: Value)
    | ServerConfigure(server: Server)
    | ServerListening

  /**
   * The machine's states. `Writing` and `Ready` are the children of
   * `serve.listening`; its transient `check` child is resolved inside the
   * EMIT_DONE step; `ServeError` is `serve.error`.
   */
  datatype Phase = Start | Build | Starting | Writing | Ready | ServeError

  predicate InServe(phase: Phase)
  {
    phase == Starting || phase == Writing || phase == Ready || phase == ServeError
  }

  /** The machine's state and context. */
  datatype Snapshot = Snapshot(
    phase: Phase,
    server: Option<Server>,
    lastError: Value,
    files: seq<TrackedFile>,
    writers: map<string, WriteJob>,
    bundlers: map<string, TrackedFile>)

  const InitialSnapshot := Snapshot(Phase.Start, None, Missing, [], map[], map[])

  // ---------------------------------------------------------------------
  // Event creators and context updates
  // ---------------------------------------------------------------------

  /** `getEmittedFileId`: an asset's fileName, else its name, else a fixed id; a chunk's id. */
  function EmittedFileId(file: EmittedFile): (r: string)
    ensures file.EmittedChunk? ==> r == file.chunkId
    ensures file.EmittedAsset? && file.fileName.Some? ==> r == file.fileName.value
    ensures file.EmittedAsset? && file.fileName.None? && file.name.Some? ==> r == file.name.value
    ensures file.EmittedAsset? && file.fileName.None? && file.name.None? ==> r == FakeAssetId
  {
    match file
    case EmittedChunk(chunkId, _) => chunkId
    case EmittedAsset(name, fileName, _) =>
      if fileName.Some? then fileName.value else if name.Some? then name.value else FakeAssetId
  }

  /** EMIT_FILE's creator: the file with its id added. */
  function EmitFileEvent(file: EmittedFile): (e: TrackerEvent)
    ensures e.EmitFile? && e.emitted == file && e.id == EmittedFileId(file)
  {
    EmitFile(EmittedFileId(file), file)
  }

  /** ERROR's creator takes the error first and the id second. */
  function ErrorCreator(error: Value, id: Value): (e: TrackerEvent)
    ensures e.ErrorEvent? && e.errorId == id && e.error == error
  {
    ErrorEvent(id, error)
  }

  /** What a write worker sends when its write fails: the creator called as ERROR(id, error). */
  function WorkerFailure(fileId: string, failure: JsError): TrackerEvent
  {
    ErrorCreator(Str(fileId), ErrObj(failure))
  }

  /** The write request for one file: WRITE_ASSET for an asset, WRITE_CHUNK otherwise. */
  function WriteRequest(f: TrackedFile): (e: TrackerEvent)
    ensures (e.WriteAsset? || e.WriteChunk?) && e.file == f
    ensures e.WriteAsset? <==> f.file.EmittedAsset?
  {
    if f.file.EmittedAsset? then WriteAsset(f) else WriteChunk(f)
  }

  /** One write request per buffered file, in buffer order. */
  function Requests(files: seq<TrackedFile>): (r: seq<TrackerEvent>)
    ensures |r| == |files|
    ensures forall i :: 0 <= i < |r| ==> r[i] == WriteRequest(files[i])
  {
    seq(|files|, i requires 0 <= i < |files| => WriteRequest(files[i]))
  }

  function NewFile(id: string, file: EmittedFile): TrackedFile
  {
    TrackedFile(id, file, false, Missing)
  }

  /** EMIT_DONE's update: files with the id are done, the others unchanged. */
  function MarkDone(files: seq<TrackedFile>, id: string): (r: seq<TrackedFile>)
    ensures |r| == |files|
    ensures forall i :: 0 <= i < |r| && files[i].id == id ==> r[i] == files[i].(done := true)
    ensures forall i :: 0 <= i < |r| && files[i].id != id ==> r[i] == files[i]
  {
    seq(|files|, i requires 0 <= i < |files| => if files[i].id == id then files[i].(done := true) else files[i])
  }

  /** ERROR's update in `listening`: files whose id equals the event's id get the error and are done. */
  function MarkFailed(files: seq<TrackedFile>, id: Value, error: Value): (r: seq<TrackedFile>)
    ensures |r| == |files|
    ensures forall i :: 0 <= i < |r| && id == Str(files[i].id) ==> r[i] == files[i].(error := error, done := true)
    ensures forall i :: 0 <= i < |r| && id != Str(files[i].id) ==> r[i] == files[i]
  {
    seq(|files|, i requires 0 <= i < |files| =>
      if id == Str(files[i].id) then files[i].(error := error, done := true) else files[i])
  }

  predicate AllDone(files: seq<TrackedFile>)
  {
    forall i :: 0 <= i < |files| ==> files[i].done
  }

  // ---------------------------------------------------------------------
  // writeAsset and writeChunk
  // ---------------------------------------------------------------------

  function AssetSource(file: EmittedFile): Source
  {
    if file.EmittedAsset? then file.source else Undefined
  }

  function HostOf(server: Server): string
  {
    if server.host.Some? then server.host.value else "localhost"
  }

  /** The dev server's origin, `http(s)://host:port`. */
  function ServerUrl(server: Server): (r: string)
    requires server.port.Some?
    ensures StartsWith(r, if server.https then "https://" else "http://")
  {
    (if server.https then "https" else "http") + "://" + HostOf(server) + ":" + NatToString(server.port.value)
  }

  function Fail(message: string): Value
  {
    ErrObj(JsError("Error", message))
  }

  /** What writeAsset does with one file: the checks in order, then the write it asks for. */
  function PlanAsset(server: Option<Server>, f: TrackedFile): (r: Result<WriteJob, Value>)
    ensures f.file.fileName.None? ==> r == Err(Fail(AssetFileNameMissing))
    ensures f.file.fileName.Some? && AssetSource(f.file).Undefined? ==> r == Err(Fail(AssetSourceMissing))
    ensures f.file.fileName.Some? && !AssetSource(f.file).Undefined? && server.None? ==> r == Err(Fail(ServerMissing))
    ensures f.file.fileName.Some? && !AssetSource(f.file).Undefined? && server.Some? && server.value.port.None? ==>
              r == Err(ErrObj(JsError("TypeError", PortMissing)))
    ensures r.Ok? <==> (f.file.fileName.Some? && !AssetSource(f.file).Undefined? && server.Some? && server.value.port.Some?)
    ensures r.Ok? ==> r.value.path == Join(server.value.outDir, f.file.fileName.value)
    ensures r.Ok? && !AssetSource(f.file).Text? ==> r.value.contents == AssetSource(f.file)
    ensures r.Ok? && AssetSource(f.file).Text? ==>
              r.value.contents == Text(ReplaceAll(AssetSource(f.file).text, ViteServerUrl, ServerUrl(server.value)))
  {
    var source := AssetSource(f.file);
    if f.file.fileName.None? then Err(Fail(AssetFileNameMissing))
    else if source.Undefined? then Err(Fail(AssetSourceMissing))
    else if server.None? then Err(Fail(ServerMissing))
    else if server.value.port.None? then Err(ErrObj(JsError("TypeError", PortMissing)))
    else
      var contents := if source.Text? then Text(ReplaceAll(source.text, ViteServerUrl, ServerUrl(server.value))) else source;
      Ok(WriteJob(Join(server.value.outDir, f.file.fileName.value), contents))
  }

  /** What writeChunk does with one file: the checks in order, then the chunk it bundles. */
  function PlanChunk(server: Option<Server>, f: TrackedFile): (r: Result<TrackedFile, Value>)
    ensures f.file.fileName.None? ==> r == Err(Fail(ChunkFileNameMissing))
    ensures f.file.fileName.Some? && server.None? ==> r == Err(Fail(ServerMissing))
    ensures r.Ok? <==> (f.file.fileName.Some? && server.Some?)
    ensures r.Ok? ==> r.value == f
  {
    if f.file.fileName.None? then Err(Fail(ChunkFileNameMissing))
    else if server.None? then Err(Fail(ServerMissing))
    else Ok(f)
  }

  /**
   * The `waitForServer` service's immediate answer: an ERROR when there is
   * no HTTP server, naming `typeof server?.httpServer` — "undefined" without
   * a server, "object" for a `null` HTTP server.
   */
  function WaitForServerFailure(server: Option<Server>): (r: Option<TrackerEvent>)
    ensures r.Some? <==> (server.None? || server.value.httpServer.NullHttpServer?)
    ensures r.Some? ==> r.value.ErrorEvent? && r.value.errorId == Str("waitForServer")
    ensures server.None? ==> r.value.error == Fail("vite httpServer is undefined")
    ensures server.Some? && server.value.httpServer.NullHttpServer? ==> r.value.error == Fail("vite httpServer is object")
  {
    if server.None? then Some(ErrorCreator(Fail("vite httpServer is undefined"), Str("waitForServer")))
    else if server.value.httpServer.NullHttpServer? then Some(ErrorCreator(Fail("vite httpServer is object"), Str("waitForServer")))
    else None
  }

  // ---------------------------------------------------------------------
  // The transition function
  // ---------------------------------------------------------------------

  /** The events the machine sends to itself. */
  predicate SelfSent(e: TrackerEvent)
  {
    e.WriteAsset? || e.WriteChunk? || e.ErrorEvent?
  }

  function ListeningStep(st: Snapshot, e: TrackerEvent): (Snapshot, seq<TrackerEvent>)
  {
    match e
    case EmitFile(id, emitted) =>
      var f := NewFile(id, emitted);
      (st.(phase := Writing, files := st.files + [f]), [WriteRequest(f)])
    case WriteAsset(f) =>
      (match PlanAsset(st.server, f)
       case Ok(job) => (st.(writers := st.writers[f.id := job]), [])
       case Err(error) => (st, [ErrorCreator(error, Str(f.id))]))
    case WriteChunk(f) =>
      (match PlanChunk(st.server, f)
       case Ok(chunk) => (st.(bundlers := st.bundlers[f.id := chunk]), [])
       case Err(error) => (st, [ErrorCreator(error, Str(f.id))]))
    case EmitDone(id) =>
      var files := MarkDone(st.files, id);
      (st.(phase := if AllDone(files) then Ready else Writing, files := files), [])
    case ErrorEvent(id, error) =>
      (st.(phase := ServeError, files := MarkFailed(st.files, id, error), lastError := error), [])
    case _ => (st, [])
  }

  /** One event: the new state and the events sent to self. Unhandled events change nothing. */
  function Next(st: Snapshot, e: TrackerEvent): (r: (Snapshot, seq<TrackerEvent>))
    ensures forall i :: 0 <= i < |r.1| ==> SelfSent(r.1[i])
    ensures SelfSent(e) ==> |r.1| <= 1 && forall i :: 0 <= i < |r.1| ==> r.1[i].ErrorEvent?
  {
    match st.phase
    case Start =>
      (match e
       case HookStart(_) => (st.(phase := Build), [])
       case ServerConfigure(server) => (st.(phase := Starting, server := Some(server)), [])
       case _ => (st, []))
    case Build => (st, [])
    case Starting =>
      (match e
       case ServerListening => (st.(phase := Writing), Requests(st.files))
       case ErrorEvent(_, error) => (st.(phase := ServeError, lastError := error), [])
       case EmitFile(id, emitted) => (st.(files := st.files + [NewFile(id, emitted)]), [])
       case _ => (st, []))
    case Writing => ListeningStep(st, e)
    case Ready => ListeningStep(st, e)
    case ServeError => (st, [])
  }

  /** Write requests count twice, errors once: each step on the queue lowers the total. */
  function Weight(queue: seq<TrackerEvent>): nat
  {
    if |queue| == 0 then 0
    else (if queue[0].ErrorEvent? then 1 else 2) + Weight(queue[1..])
  }

  lemma {:induction false} WeightAppend(a: seq<TrackerEvent>, b: seq<TrackerEvent>)
    ensures Weight(a + b) == Weight(a) + Weight(b)
    decreases |a|
  {
    if |a| == 0 {
      assert a + b == b;
    } else {
      assert (a + b)[1..] == a[1..] + b;
      WeightAppend(a[1..], b);
    }
  }

  /** The self-sent events processed in order, each appending what it sends. */
  function Drain(st: Snapshot, queue: seq<TrackerEvent>): Snapshot
    requires forall i :: 0 <= i < |queue| ==> SelfSent(queue[i])
    decreases Weight(queue)
  {
    if |queue| == 0 then st
    else
      var r := Next(st, queue[0]);
      WeightAppend(queue[1..], r.1);
      Drain(r.0, queue[1..] + r.1)
  }

  lemma DrainUnfold(st: Snapshot, queue: seq<TrackerEvent>)
    requires |queue| > 0
    requires forall i :: 0 <= i < |queue| ==> SelfSent(queue[i])
    ensures forall i :: 0 <= i < |queue[1..] + Next(st, queue[0]).1| ==> SelfSent((queue[1..] + Next(st, queue[0]).1)[i])
    ensures Weight(queue[1..] + Next(st, queue[0]).1) < Weight(queue)
    ensures Drain(st, queue) == Drain(Next(st, queue[0]).0, queue[1..] + Next(st, queue[0]).1)
  {
    WeightAppend(queue[1..], Next(st, queue[0]).1);
  }

  /** An external event and everything it makes the machine send itself. */
  function Run(st: Snapshot, e: TrackerEvent): Snapshot
  {
    var r := Next(st, e);
    Drain(r.0, r.1)
  }

  /** What `filesWritten` makes of a state: resolved, rejected with a reason, or still pending. */
  datatype Written = Pending | Resolved | Rejected(reason: Value)

  function FilesWritten(st: Snapshot): (r: Written)
    ensures r.Resolved? <==> st.phase == Ready
    ensures r.Rejected? <==> st.phase == ServeError
    ensures r.Rejected? && st.lastError != Missing ==> r.reason == st.lastError
    ensures r.Rejected? && st.lastError == Missing ==> r.reason == Str("context.lastError is undefined")
  {
    if st.phase == Ready then Resolved
    else if st.phase == ServeError then
      Rejected(if st.lastError != Missing then st.lastError else Str("context.lastError is undefined"))
    else Pending
  }

  /** `getViteServer`: the stored server, but only in `serve`. */
  function ViteServer(st: Snapshot): (r: Option<Server>)
    ensures !InServe(st.phase) ==> r.None?
    ensures InServe(st.phase) ==> r == st.server
  {
    if InServe(st.phase) then st.server else None
  }

  // ---------------------------------------------------------------------
  // The service
  // ---------------------------------------------------------------------

  class Tracker {
    var phase: Phase
    var server: Option<Server>
    var lastError: Value
    var files: seq<TrackedFile>
    var writers: map<string, WriteJob>
    var bundlers: map<string, TrackedFile>

    function Snap(): Snapshot
      reads this
    {
      Snapshot(phase, server, lastError, files, writers, bundlers)
    }

    predicate Valid()
      reads this
    {
      Consistent(Snap())
    }

    /** `interpret(machine).start()`: the service in `start` with an empty context. */
    constructor ()
      ensures Snap() == InitialSnapshot && Valid()
    {
      phase := Phase.Start;
      server := None;
      lastError := Missing;
      files := [];
      writers := map[];
      bundlers := map[];
    }

    /** One event through the machine; `sent` are the events it sends to itself. */
    method Dispatch(e: TrackerEvent) returns (sent: seq<TrackerEvent>)
      modifies this
      ensures (Snap(), sent) == Next(old(Snap()), e)
    {
      sent := [];
      match phase {
        case Start =>
          if e.HookStart? {
            phase := Build;
          } else if e.ServerConfigure? {
            server := Some(e.server);
            phase := Starting;
          }
        case Build =>
        case Starting =>
          if e.ServerListening? {
            phase := Writing;
            var i := 0;
            while i < |files|
              invariant 0 <= i <= |files|
              invariant sent == Requests(files[..i])
            {
              sent := sent + [WriteRequest(files[i])];
              i := i + 1;
            }
            assert files[..i] == files;
          } else if e.ErrorEvent? {
            lastError := e.error;
            phase := ServeError;
          } else if e.EmitFile? {
            files := files + [NewFile(e.id, e.emitted)];
          }
        case Writing =>
          sent := Listening(e);
        case Ready =>
          sent := Listening(e);
        case ServeError =>
      }
    }

    /** The handlers of `serve.listening`. */
    method Listening(e: TrackerEvent) returns (sent: seq<TrackerEvent>)
      requires phase == Writing || phase == Ready
      modifies this
      ensures (Snap(), sent) == ListeningStep(old(Snap()), e)
    {
      sent := [];
      match e {
        case EmitFile(id, emitted) =>
          var f := NewFile(id, emitted);
          files := files + [f];
          phase := Writing;
          sent := [WriteRequest(f)];
        case WriteAsset(f) =>
          var plan := PlanAsset(server, f);
          if plan.Ok? {
            writers := writers[f.id := plan.value];
          } else {
            sent := [ErrorCreator(plan.error, Str(f.id))];
          }
        case WriteChunk(f) =>
          var plan := PlanChunk(server, f);
          if plan.Ok? {
            bundlers := bundlers[f.id := plan.value];
          } else {
            sent := [ErrorCreator(plan.error, Str(f.id))];
          }
        case EmitDone(id) =>
          files := MarkDone(files, id);
          phase := if AllDone(files) then Ready else Writing;
        case ErrorEvent(id, error) =>
          files := MarkFailed(files, id, error);
          lastError := error;
          phase := ServeError;
        case HookStart(_) =>
        case ServerConfigure(_) =>
        case ServerListening =>
      }
    }

    /** `service.send`: the event, then the queue of self-sent events until it is empty. */
    method Send(e: TrackerEvent)
      requires Valid()
      modifies this
      ensures Snap() == Run(old(Snap()), e)
      ensures Valid()
      ensures Grows(old(Snap()), Snap())
    {
      ghost var start := Snap();
      var queue := Dispatch(e);
      while |queue| > 0
        invariant forall i :: 0 <= i < |queue| ==> SelfSent(queue[i])
        invariant Drain(Snap(), queue) == Run(start, e)
        decreases Weight(queue)
      {
        DrainUnfold(Snap(), queue);
        var more := Dispatch(queue[0]);
        queue := queue[1..] + more;
      }
      RunKeepsConsistent(start, e);
      RunGrows(start, e);
    }

    /** `sendEmitFile`: EMIT_FILE to the service; the answer is the file's id. */
    method SendEmitFile(file: EmittedFile) returns (id: string)
      requires Valid()
      modifies this
      ensures id == EmittedFileId(file)
      ensures Snap() == Run(old(Snap()), EmitFileEvent(file))
      ensures Valid()
    {
      Send(EmitFileEvent(file));
      id := EmittedFileId(file);
    }

    /** `sendConfigureServer`. */
    method SendConfigureServer(s: Server)
      requires Valid()
      modifies this
      ensures Snap() == Run(old(Snap()), ServerConfigure(s))
      ensures Valid()
    {
      Send(ServerConfigure(s));
    }

    /** The HOOK_START that `shimPluginContext` sends for each hook. */
    method SendHookStart(hookName: string)
      requires Valid()
      modifies this
      ensures Snap() == Run(old(Snap()), HookStart(hookName))
      ensures Valid()
    {
      Send(HookStart(hookName));
    }

    function GetViteServer(): (r: Option<Server>)
      reads this
      ensures r == ViteServer(Snap())
    {
      if phase == Starting || phase == Writing || phase == Ready || phase == ServeError then server else None
    }
  }

  // ---------------------------------------------------------------------
  // Invariants
  // ---------------------------------------------------------------------

  /** What holds in every reachable state. */
  predicate Consistent(st: Snapshot)
  {
    && (st.phase == Phase.Start ==> st.server.None? && st.files == [])
    && (st.phase == Phase.Start || st.phase == Build || st.phase == Starting ==> st.writers == map[] && st.bundlers == map[])
    && (st.phase == Build ==> st.files == [])
    && (InServe(st.phase) ==> st.server.Some?)
    && (st.phase == Starting ==> forall i :: 0 <= i < |st.files| ==> !st.files[i].done)
    && (st.phase == Ready ==> AllDone(st.files))
    && (forall i :: 0 <= i < |st.files| && st.files[i].error != Missing ==> st.files[i].done)
  }

  /** The file list only grows, keeps every file's id and contents, and never un-marks `done`. */
  predicate Grows(a: Snapshot, b: Snapshot)
  {
    && |a.files| <= |b.files|
    && (forall i :: 0 <= i < |a.files| ==> b.files[i].id == a.files[i].id && b.files[i].file == a.files[i].file)
    && (forall i :: 0 <= i < |a.files| && a.files[i].done ==> b.files[i].done)
    && (a.phase == ServeError ==> b == a)
    && (a.phase == Build ==> b == a)
  }

  lemma InitialConsistent()
    ensures Consistent(InitialSnapshot)
    ensures FilesWritten(InitialSnapshot) == Pending && ViteServer(InitialSnapshot).None?
  {
  }

  lemma NextKeepsConsistent(st: Snapshot, e: TrackerEvent)
    requires Consistent(st)
    ensures Consistent(Next(st, e).0)
  {
  }

  lemma NextGrows(st: Snapshot, e: TrackerEvent)
    ensures Grows(st, Next(st, e).0)
  {
    if st.phase == Writing || st.phase == Ready {
      ListeningGrows(st, e);
    }
  }

  lemma ListeningGrows(st: Snapshot, e: TrackerEvent)
    requires st.phase == Writing || st.phase == Ready
    ensures Grows(st, ListeningStep(st, e).0)
  {
  }

  lemma GrowsTransitive(a: Snapshot, b: Snapshot, c: Snapshot)
    requires Grows(a, b) && Grows(b, c)
    ensures Grows(a, c)
  {
  }

  lemma {:induction false} DrainKeepsConsistent(st: Snapshot, queue: seq<TrackerEvent>)
    requires forall i :: 0 <= i < |queue| ==> SelfSent(queue[i])
    requires Consistent(st)
    ensures Consistent(Drain(st, queue))
    decreases Weight(queue)
  {
    if |queue| > 0 {
      var r := Next(st, queue[0]);
      NextKeepsConsistent(st, queue[0]);
      WeightAppend(queue[1..], r.1);
      DrainKeepsConsistent(r.0, queue[1..] + r.1);
    }
  }

  lemma {:induction false} DrainGrows(st: Snapshot, queue: seq<TrackerEvent>)
    requires forall i :: 0 <= i < |queue| ==> SelfSent(queue[i])
    ensures Grows(st, Drain(st, queue))
    decreases Weight(queue)
  {
    if |queue| > 0 {
      var r := Next(st, queue[0]);
      NextGrows(st, queue[0]);
      WeightAppend(queue[1..], r.1);
      DrainGrows(r.0, queue[1..] + r.1);
      GrowsTransitive(st, r.0, Drain(r.0, queue[1..] + r.1));
    }
  }

  /** Every event keeps the state consistent: in particular `ready` means every file is done. */
  lemma RunKeepsConsistent(st: Snapshot, e: TrackerEvent)
    requires Consistent(st)
    ensures Consistent(Run(st, e))
    ensures Run(st, e).phase == Ready ==> AllDone(Run(st, e).files)
  {
    NextKeepsConsistent(st, e);
    DrainKeepsConsistent(Next(st, e).0, Next(st, e).1);
  }

  /** Every event keeps the buffered files in order and never un-marks one. */
  lemma RunGrows(st: Snapshot, e: TrackerEvent)
    ensures Grows(st, Run(st, e))
  {
    NextGrows(st, e);
    DrainGrows(Next(st, e).0, Next(st, e).1);
    GrowsTransitive(st, Next(st, e).0, Run(st, e));
  }

  // ---------------------------------------------------------------------
  // Transitions
  // ---------------------------------------------------------------------

  /** In `start`, HOOK_START ends in `build` and SERVER_CONFIGURE stores the server; EMIT_FILE is dropped. */
  lemma StartTransitions(st: Snapshot, hookName: string, server: Server, id: string, file: EmittedFile)
    requires st.phase == Phase.Start
    ensures Run(st, HookStart(hookName)) == st.(phase := Build)
    ensures Run(st, ServerConfigure(server)) == st.(phase := Starting, server := Some(server))
    ensures Run(st, EmitFile(id, file)) == st
  {
  }

  /** `build` is final: nothing moves it. */
  lemma BuildIsFinal(st: Snapshot, e: TrackerEvent)
    requires st.phase == Build
    ensures Run(st, e) == st
  {
  }

  /** While starting, EMIT_FILE appends the file at the end and sends nothing. */
  lemma StartingBuffers(st: Snapshot, id: string, file: EmittedFile)
    requires st.phase == Starting
    ensures Run(st, EmitFile(id, file)) == st.(files := st.files + [TrackedFile(id, file, false, Missing)])
  {
  }

  /** While starting, ERROR records the error and goes to `serve.error`. */
  lemma StartingError(st: Snapshot, id: Value, error: Value)
    requires st.phase == Starting
    ensures Run(st, ErrorEvent(id, error)) == st.(phase := ServeError, lastError := error)
    ensures FilesWritten(Run(st, ErrorEvent(id, error))).Rejected?
  {
  }

  /** Entering `listening` requests one write per buffered file, in buffer order. */
  lemma ListeningRequestsEachFile(st: Snapshot)
    requires st.phase == Starting
    ensures Next(st, ServerListening).0 == st.(phase := Writing)
    ensures |Next(st, ServerListening).1| == |st.files|
    ensures forall i :: 0 <= i < |st.files| ==> Next(st, ServerListening).1[i] == WriteRequest(st.files[i])
  {
  }

  /** A later EMIT_FILE appends, goes back to `writing` and requests exactly that file's write. */
  lemma ListeningEmit(st: Snapshot, id: string, file: EmittedFile)
    requires st.phase == Writing || st.phase == Ready
    ensures Next(st, EmitFile(id, file)).0.phase == Writing
    ensures Next(st, EmitFile(id, file)).0.files == st.files + [NewFile(id, file)]
    ensures Next(st, EmitFile(id, file)).1 == [WriteRequest(NewFile(id, file))]
  {
  }

  /** EMIT_DONE marks only matching files, then settles on `ready` exactly when all are done. */
  lemma EmitDoneSettles(st: Snapshot, id: string)
    requires st.phase == Writing || st.phase == Ready
    ensures Run(st, EmitDone(id)).files == MarkDone(st.files, id)
    ensures Run(st, EmitDone(id)).phase == Ready <==> AllDone(MarkDone(st.files, id))
    ensures Run(st, EmitDone(id)).phase == Writing <==> !AllDone(MarkDone(st.files, id))
    ensures FilesWritten(Run(st, EmitDone(id))).Resolved? <==> AllDone(MarkDone(st.files, id))
  {
  }

  /** A failed asset check is turned into an ERROR for that file, which marks it and ends in `serve.error`. */
  lemma {:induction false} FailedAssetCheck(st: Snapshot, f: TrackedFile)
    requires st.phase == Writing || st.phase == Ready
    requires PlanAsset(st.server, f).Err?
    ensures Run(st, WriteAsset(f)).phase == ServeError
    ensures Run(st, WriteAsset(f)).lastError == PlanAsset(st.server, f).error
    ensures Run(st, WriteAsset(f)).files == MarkFailed(st.files, Str(f.id), PlanAsset(st.server, f).error)
  {
    var err := ErrorCreator(PlanAsset(st.server, f).error, Str(f.id));
    var r := Next(st, WriteAsset(f));
    assert r == (st, [err]);
    WeightAppend([], [err]);
    assert Drain(st, [err]) == Drain(Next(st, err).0, []);
  }

  /** A passing asset check registers a writer under the file's id and changes nothing else. */
  lemma PassedAssetCheck(st: Snapshot, f: TrackedFile)
    requires st.phase == Writing || st.phase == Ready
    requires PlanAsset(st.server, f).Ok?
    ensures Run(st, WriteAsset(f)) == st.(writers := st.writers[f.id := PlanAsset(st.server, f).value])
  {
  }

  /**
   * The write workers call the creator as ERROR(id, error), so the error
   * lands in `id` and the file id in `error`: no file matches, and the
   * file id, not the failure, becomes `lastError`.
   */
  lemma {:induction false} WorkerFailureMarksNoFile(st: Snapshot, fileId: string, failure: JsError)
    requires st.phase == Writing || st.phase == Ready
    ensures Run(st, WorkerFailure(fileId, failure)).files == st.files
    ensures Run(st, WorkerFailure(fileId, failure)).phase == ServeError
    ensures FilesWritten(Run(st, WorkerFailure(fileId, failure))) == Rejected(Str(fileId))
  {
    var files := MarkFailed(st.files, ErrObj(failure), Str(fileId));
    assert files == st.files;
  }

  /** ERROR in `listening` marks every file whose id matches with the error and `done`. */
  lemma ListeningError(st: Snapshot, id: string, error: Value)
    requires st.phase == Writing || st.phase == Ready
    ensures Run(st, ErrorEvent(Str(id), error)).phase == ServeError
    ensures Run(st, ErrorEvent(Str(id), error)).lastError == error
    ensures forall i :: 0 <= i < |st.files| && st.files[i].id == id ==>
              Run(st, ErrorEvent(Str(id), error)).files[i].done
    ensures Run(st, ErrorEvent(Str(id), error)).files == MarkFailed(st.files, Str(id), error)
  {
  }

  // ---------------------------------------------------------------------
  // The server URL
  // ---------------------------------------------------------------------

  /** `s` shares no character with the placeholder. */
  predicate AvoidsPlaceholder(s: string)
  {
    forall c :: c in s ==> c !in ViteServerUrl
  }

  lemma AvoidsConcat(a: string, b: string)
    requires AvoidsPlaceholder(a) && AvoidsPlaceholder(b)
    ensures AvoidsPlaceholder(a + b)
  {
    forall c | c in a + b ensures c !in ViteServerUrl {
      assert c in a || c in b;
    }
  }

  /** The placeholder is made of underscores and capital letters only. */
  lemma PlaceholderChars()
    ensures forall c :: c in ViteServerUrl ==> c == '_' || 'A' <= c <= 'Z'
  {
    forall c | c in ViteServerUrl ensures c == '_' || 'A' <= c <= 'Z' {
      var i :| 0 <= i < |ViteServerUrl| && ViteServerUrl[i] == c;
    }
  }

  /** A string of lower-case letters, digits and punctuation other than `_` avoids the placeholder. */
  lemma PlainCharsAvoidPlaceholder(s: string)
    requires forall i :: 0 <= i < |s| ==> s[i] != '_' && !('A' <= s[i] <= 'Z')
    ensures AvoidsPlaceholder(s)
  {
    PlaceholderChars();
    forall c | c in s ensures c !in ViteServerUrl {
      var i :| 0 <= i < |s| && s[i] == c;
    }
  }

  /** The server url shares no character with the placeholder when the host does not. */
  lemma UrlAvoidsPlaceholder(server: Server)
    requires server.port.Some?
    requires AvoidsPlaceholder(HostOf(server))
    ensures AvoidsPlaceholder(ServerUrl(server))
  {
    var scheme := if server.https then "https" else "http";
    var digits := NatToString(server.port.value);
    PlainCharsAvoidPlaceholder(scheme);
    PlainCharsAvoidPlaceholder("://");
    PlainCharsAvoidPlaceholder(":");
    PlainCharsAvoidPlaceholder(digits);
    AvoidsConcat(scheme, "://");
    AvoidsConcat(scheme + "://", HostOf(server));
    AvoidsConcat(scheme + "://" + HostOf(server), ":");
    AvoidsConcat(scheme + "://" + HostOf(server) + ":", digits);
  }

  /** After the substitution no placeholder is left, given a host without placeholder characters. */
  lemma NoPlaceholderLeft(server: Option<Server>, f: TrackedFile)
    requires PlanAsset(server, f).Ok? && AssetSource(f.file).Text?
    requires AvoidsPlaceholder(HostOf(server.value))
    ensures !Occurs(PlanAsset(server, f).value.contents.text, ViteServerUrl)
  {
    UrlAvoidsPlaceholder(server.value);
    ReplaceAllRemovesToken(AssetSource(f.file).text, ViteServerUrl, ServerUrl(server.value));
  }

  /** Text without the placeholder is written as it is. */
  lemma {:induction false} TextWithoutPlaceholderUnchanged(server: Option<Server>, f: TrackedFile)
    requires PlanAsset(server, f).Ok? && AssetSource(f.file).Text?
    requires !Occurs(AssetSource(f.file).text, ViteServerUrl)
    ensures PlanAsset(server, f).value.contents == AssetSource(f.file)
  {
    ReplaceAllAbsent(AssetSource(f.file).text, ViteServerUrl, ServerUrl(server.value));
  }
}
