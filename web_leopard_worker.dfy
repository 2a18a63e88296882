/**
 * The Web Worker client of the Leopard speech-to-text engine
 * (binding/web/src/leopard_worker.ts): the set-once WebAssembly sources, option defaults,
 * the rule for staging the model in browser storage, the dispatch of worker responses and
 * the buffer-transfer handling of `process`.
 *
 * The worker thread is an oracle from the request it is sent to the response it sends back;
 * model storage is a map from path to bytes; `fetch` and base64 decoding are function parameters.
 */
module WebLeopardWorker {
  import opened Common

  /** How a promise settles: resolved with a value or rejected with a reason. */
  datatype Settled<T> = Resolved(value: T) | Rejected(reason: string)

  /** The value a set-once field holds after one more call to its setter. */
  function SetOnce(current: Option<string>, value: string): (r: Option<string>)
    ensures r.Some?
    ensures current.Some? ==> r == current
    ensures current.None? ==> r == Some(value)
  {
    if current.None? then Some(value) else current
  }

  /** The value a set-once field holds after its setter is called with each of `values` in turn. */
  function AfterCalls(current: Option<string>, values: seq<string>): Option<string>
    decreases |values|
  {
    if |values| == 0 then current else AfterCalls(SetOnce(current, values[0]), values[1..])
  }

  /** Once set, a set-once field keeps its value whatever the later calls pass. */
  lemma {:induction false} SetFieldIsKept(value: string, values: seq<string>)
    ensures AfterCalls(Some(value), values) == Some(value)
  {
    if |values| > 0 {
      SetFieldIsKept(value, values[1..]);
    }
  }

  /** Of any sequence of calls on an unset field, the first one decides the value. */
  lemma {:induction false} FirstCallWins(values: seq<string>)
    requires |values| > 0
    ensures AfterCalls(None, values) == Some(values[0])
  {
    SetFieldIsKept(values[0], values[1..]);
  }

  /** The static fields `_wasm` and `_wasmSimd` of LeopardWorker; undefined is None. */
  class WasmSources {
    var wasm: Option<string>
    var wasmSimd: Option<string>

    constructor()
      ensures wasm == None && wasmSimd == None
    {
      wasm, wasmSimd := None, None;
    }

    /** `setWasm`: stores the value only while `_wasm` is still undefined. */
    method SetWasm(wasm: string)
      modifies this
      ensures this.wasm == SetOnce(old(this.wasm), wasm)
      ensures wasmSimd == old(wasmSimd)
    {
      if this.wasm.None? {
        this.wasm := Some(wasm);
      }
    }

    /** `setWasmSimd`: stores the value only while `_wasmSimd` is still undefined. */
    method SetWasmSimd(wasmSimd: string)
      modifies this
      ensures this.wasmSimd == SetOnce(old(this.wasmSimd), wasmSimd)
      ensures wasm == old(wasm)
    {
      if this.wasmSimd.None? {
        this.wasmSimd := Some(wasmSimd);
      }
    }
  }

  /** The options the engine itself takes (`LeopardInitConfig`). */
  datatype InitConfig = InitConfig(enableAutomaticPunctuation: Option<bool>)

  /** `LeopardConfig`: every option may be left undefined. */
  datatype LeopardConfig = LeopardConfig(
    modelPath: Option<string>,
    forceWrite: Option<bool>,
    enableAutomaticPunctuation: Option<bool>)

  const DefaultModelPath := "leopard_model"

  /**
   * The options once unpacked: the model path (default "leopard_model"), the force-write flag
   * (default false), and every remaining option, forwarded to the engine untouched.
   */
  datatype ResolvedOptions = ResolvedOptions(modelPath: string, forceWrite: bool, rest: InitConfig)

  /** Destructuring with defaults: an undefined option takes its default; the rest are forwarded. */
  function ResolveOptions(options: LeopardConfig): (o: ResolvedOptions)
    ensures options.modelPath.None? ==> o.modelPath == DefaultModelPath
    ensures options.modelPath.Some? ==> o.modelPath == options.modelPath.value
    ensures o.forceWrite <==> options.forceWrite == Some(true)
    ensures o.rest.enableAutomaticPunctuation == options.enableAutomaticPunctuation
  {
    ResolvedOptions(
      options.modelPath.GetOr(DefaultModelPath),
      options.forceWrite.GetOr(false),
      InitConfig(options.enableAutomaticPunctuation))
  }

  /** The model files kept in browser storage (`PvFile`), by path. */
  class ModelStore {
    var files: map<string, seq<byte>>

    constructor(files: map<string, seq<byte>>)
      ensures this.files == files
    {
      this.files := files;
    }
  }

  /**
   * The staging rule of `fromBase64` and `fromPublicDirectory`: the model bytes are written at
   * `modelPath` when nothing is stored there yet or `forceWrite` is set. No other path changes,
   * and an existing model is kept unless `forceWrite` is set.
   */
  function Staged(files: map<string, seq<byte>>, modelPath: string, forceWrite: bool, data: seq<byte>)
    : (r: map<string, seq<byte>>)
    ensures modelPath in r
    ensures modelPath !in files || forceWrite ==> r[modelPath] == data
    ensures modelPath in files && !forceWrite ==> r[modelPath] == files[modelPath]
    ensures forall p :: p != modelPath ==> (p in r <==> p in files)
    ensures forall p :: p != modelPath && p in files ==> r[p] == files[p]
  {
    if modelPath !in files || forceWrite then files[modelPath := data] else files
  }

  /** The answer of `fetch`: whether it was ok, and the body. */
  datatype FetchResponse = FetchResponse(ok: bool, data: seq<byte>)

  /** The init message posted to the worker thread. */
  datatype InitRequest = InitRequest(
    accessKey: string,
    modelPath: string,
    initConfig: InitConfig,
    wasm: Option<string>,
    wasmSimd: Option<string>)

  /** A message posted to the worker thread, with the buffers listed for transfer. */
  datatype Request =
    | PostInit(init: InitRequest)
    | PostProcess(inputFrame: seq<int16>, transfer: bool, transferable: seq<seq<int16>>)
    | PostRelease

  /** A message from the worker thread; a field the command does not use is ignored. */
  datatype WorkerResponse = WorkerResponse(
    command: string,
    message: string,
    version: string,
    sampleRate: int,
    transcription: string,
    inputFrame: Option<seq<int16>>)

  function UnrecognizedCommandMessage(command: string): string {
    "Unrecognized command: " + command
  }

  /**
   * The `switch` every handler runs: "ok" resolves with the reply; "failed" and "error"
   * reject with the worker's message; any other command rejects naming the command.
   */
  function Dispatch<T>(command: string, message: string, reply: T): (s: Settled<T>)
    ensures s.Resolved? <==> command == "ok"
    ensures s.Resolved? ==> s.value == reply
    ensures command == "failed" || command == "error" ==> s == Rejected(message)
    ensures command != "ok" && command != "failed" && command != "error" ==>
      s == Rejected(UnrecognizedCommandMessage(command))
  {
    match command
    case "ok" => Resolved(reply)
    case "failed" => Rejected(message)
    case "error" => Rejected(message)
    case _ => Rejected(UnrecognizedCommandMessage(command))
  }

  /** Which request the current `onmessage` handler was installed for. */
  datatype Handler = InitHandler | ProcessHandler(transfer: bool, hasTransferCB: bool) | ReleaseHandler

  /** What a handler resolves its promise with. */
  datatype Reply = Initialized(version: string, sampleRate: int) | Transcription(text: string) | Released

  /** The reply the current handler resolves with on an "ok" response. */
  function ReplyTo(handler: Handler, response: WorkerResponse): Reply {
    match handler
    case InitHandler => Initialized(response.version, response.sampleRate)
    case ProcessHandler(_, _) => Transcription(response.transcription)
    case ReleaseHandler => Released
  }

  /** A LeopardWorker: its engine's version and sample rate, and its worker thread's channel. */
  class LeopardWorker {
    const version: string
    const sampleRate: int
    /** The handler currently installed as `_worker.onmessage`. */
    var handler: Handler
    /** The messages posted to the worker thread so far. */
    var posted: seq<Request>

    /** The private constructor: the `version` and `sampleRate` getters return its arguments. */
    constructor(version: string, sampleRate: int, init: InitRequest)
      ensures this.version == version && this.sampleRate == sampleRate
      ensures handler == InitHandler && posted == [PostInit(init)]
    {
      this.version := version;
      this.sampleRate := sampleRate;
      handler := InitHandler;
      posted := [PostInit(init)];
    }

    /**
     * `process`: installs a new handler and posts the frame, listing its buffer as
     * transferable exactly when `transfer` is true (undefined counts as false).
     */
    method Process(pcm: seq<int16>, transfer: Option<bool>, hasTransferCB: bool)
      modifies this
      ensures handler == ProcessHandler(transfer == Some(true), hasTransferCB)
      ensures posted == old(posted) +
        [PostProcess(pcm, transfer == Some(true), if transfer == Some(true) then [pcm] else [])]
    {
      var transfer := transfer.GetOr(false);
      handler := ProcessHandler(transfer, hasTransferCB);
      var transferable := if transfer then [pcm] else [];
      posted := posted + [PostProcess(pcm, transfer, transferable)];
    }

    /** `release`: installs a new handler and posts the release command. */
    method Release()
      modifies this
      ensures handler == ReleaseHandler
      ensures posted == old(posted) + [PostRelease]
    {
      handler := ReleaseHandler;
      posted := posted + [PostRelease];
    }

    /**
     * The installed handler receiving a response. The transfer callback gets the returned frame
     * only when the request asked for transfer, a callback was given and the response carries
     * a frame, whatever the command; then the command settles the promise.
     */
    method OnMessage(response: WorkerResponse) returns (settled: Settled<Reply>, callbackInput: Option<seq<int16>>)
      ensures callbackInput.Some? <==>
        handler.ProcessHandler? && handler.transfer && handler.hasTransferCB && response.inputFrame.Some?
      ensures callbackInput.Some? ==> callbackInput == response.inputFrame
      ensures settled.Resolved? <==> response.command == "ok"
      ensures settled.Resolved? ==> settled.value == ReplyTo(handler, response)
      ensures settled.Rejected? ==> settled == Dispatch(response.command, response.message, ReplyTo(handler, response))
    {
      callbackInput := None;
      if handler.ProcessHandler? && handler.transfer && handler.hasTransferCB && response.inputFrame.Some? {
        callbackInput := response.inputFrame;
      }
      settled := Dispatch(response.command, response.message, ReplyTo(handler, response));
    }
  }

  /**
   * `create`: posts the init request built from its arguments and the current static WASM
   * sources; an "ok" response yields a new LeopardWorker carrying the response's version and
   * sample rate, any other response rejects as Dispatch says.
   */
  method Create(accessKey: string, modelPath: string, initConfig: InitConfig, statics: WasmSources,
                worker: InitRequest -> WorkerResponse)
    returns (request: InitRequest, r: Settled<LeopardWorker>)
    ensures request == InitRequest(accessKey, modelPath, initConfig, statics.wasm, statics.wasmSimd)
    ensures r.Resolved? <==> worker(request).command == "ok"
    ensures r.Resolved? ==>
      fresh(r.value) && r.value.version == worker(request).version &&
      r.value.sampleRate == worker(request).sampleRate && r.value.posted == [PostInit(request)]
    ensures r.Rejected? ==>
      r.reason == Dispatch(worker(request).command, worker(request).message, ()).reason
  {
    request := InitRequest(accessKey, modelPath, initConfig, statics.wasm, statics.wasmSimd);
    var response := worker(request);
    var outcome := Dispatch(response.command, response.message, ReplyTo(InitHandler, response));
    if outcome.Resolved? {
      var w := new LeopardWorker(response.version, response.sampleRate, request);
      r := Resolved(w);
    } else {
      r := Rejected(outcome.reason);
    }
  }

  /**
   * `fromBase64`: the decoded model is written to storage exactly when no model is stored at
   * the model path or `forceWrite` is set; then `create` runs with the resolved path and the
   * remaining options.
   */
  method FromBase64(accessKey: string, modelBase64: string, options: LeopardConfig,
                    store: ModelStore, statics: WasmSources,
                    decode: string -> seq<byte>, worker: InitRequest -> WorkerResponse)
    returns (request: InitRequest, r: Settled<LeopardWorker>)
    modifies store
    ensures var o := ResolveOptions(options);
      store.files == Staged(old(store.files), o.modelPath, o.forceWrite, decode(modelBase64))
    ensures var o := ResolveOptions(options);
      request == InitRequest(accessKey, o.modelPath, o.rest, statics.wasm, statics.wasmSimd)
    ensures r.Resolved? <==> worker(request).command == "ok"
    ensures r.Resolved? ==>
      fresh(r.value) && r.value.version == worker(request).version &&
      r.value.sampleRate == worker(request).sampleRate && r.value.posted == [PostInit(request)]
    ensures r.Rejected? ==>
      r.reason == Dispatch(worker(request).command, worker(request).message, ()).reason
  {
    var o := ResolveOptions(options);
    if !(o.modelPath in store.files) || o.forceWrite {
      store.files := store.files[o.modelPath := decode(modelBase64)];
    }
    request, r := Create(accessKey, o.modelPath, o.rest, statics, worker);
  }

  function FetchFailedMessage(publicPath: string): string {
    "Failed to get model from '" + publicPath + "'"
  }

  /**
   * `fromPublicDirectory`: when the model must be written, a failed fetch rejects before
   * anything is stored or posted; otherwise the fetched bytes are stored, and `create` runs.
   */
  method FromPublicDirectory(accessKey: string, publicPath: string, options: LeopardConfig,
                             store: ModelStore, statics: WasmSources,
                             fetch: string -> FetchResponse, worker: InitRequest -> WorkerResponse)
    returns (request: Option<InitRequest>, r: Settled<LeopardWorker>)
    modifies store
    ensures var o := ResolveOptions(options);
      request.None? <==> (o.modelPath !in old(store.files) || o.forceWrite) && !fetch(publicPath).ok
    ensures request.None? ==> r == Rejected(FetchFailedMessage(publicPath)) && store.files == old(store.files)
    ensures request.Some? ==> var o := ResolveOptions(options);
      store.files == Staged(old(store.files), o.modelPath, o.forceWrite, fetch(publicPath).data) &&
      request.value == InitRequest(accessKey, o.modelPath, o.rest, statics.wasm, statics.wasmSimd) &&
      (r.Resolved? <==> worker(request.value).command == "ok")
    ensures request.Some? && r.Resolved? ==>
      fresh(r.value) && r.value.version == worker(request.value).version &&
      r.value.sampleRate == worker(request.value).sampleRate && r.value.posted == [PostInit(request.value)]
    ensures request.Some? && r.Rejected? ==>
      r.reason == Dispatch(worker(request.value).command, worker(request.value).message, ()).reason
  {
    var o := ResolveOptions(options);
    if !(o.modelPath in store.files) || o.forceWrite {
      var response := fetch(publicPath);
      if !response.ok {
        return None, Rejected(FetchFailedMessage(publicPath));
      }
      store.files := store.files[o.modelPath := response.data];
    }
    var req;
    req, r := Create(accessKey, o.modelPath, o.rest, statics, worker);
    request := Some(req);
  }
}
