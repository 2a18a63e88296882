# Leopard speech-to-text bindings — a Dafny model

Leopard is a closed-source speech-to-text engine shipped as a native library (and as
WebAssembly for browsers). This project models the thin bindings around it and proves what
they promise:

- the Go binding (`binding/go/leopard.go`):
  - status names and `LeopardError` strings;
  - the handle guard of `Init`, `Delete`, `Process` and `ProcessFile`;
  - the "extension not supported" rule of `ProcessFile`;
  - the platform detection that picks the embedded native library.
- the Java binding (`binding/java/src/ai/picovoice/leopard/Leopard.java`):
  - the `Builder`'s validation order and default paths;
  - the constructor's wrapping of `System.load` failures;
  - the remapping of invalid-argument exceptions in `processFile`.
- the Web Worker client (`binding/web/src/leopard_worker.ts`):
  - the set-once WebAssembly sources and the option defaults;
  - the rule for writing the model into browser storage;
  - the `ok` / `failed` / `error` dispatch of worker responses;
  - the buffer-transfer handling of `process`.

The engine itself is never modelled. Each binding receives it as a record of arbitrary total
functions (`GoLeopard.NativeEngine`, `JavaLeopard.NativeLibrary`, and the `worker` function of
the web module), so every contract holds whatever the engine answers.

The outside world becomes parameters:
- whether a file exists is a predicate (`missing`, `Environment.fileExists`);
- `runtime.GOOS`/`GOARCH` and the output of `cat /proc/cpuinfo` are arguments;
- the values the Java `Utils` class supplies form an `Environment`;
- browser storage is a `ModelStore` map;
- `fetch` and base64 decoding are functions.

Where the source mutates state, the model is imperative:
- the Go `Leopard` struct, the Java `Builder`, the static WASM fields and each `LeopardWorker` are classes;
- `getExtensions` and `getLinuxDetails` are loops proved against specification functions;
- `Builder.Build` is proved equal to `BuildSpec`, a function of the builder's old fields.

Files:
- `common.dfy`: `Option`, `int16` and `byte`.
- `text.dfy`: the Go and Java string operations the bindings rely on, each with the property that pins it down:
  - `strings.Split` and its inverse `Join`;
  - `strings.Contains` and `strings.ToLower`;
  - `String.lastIndexOf`;
  - decimal rendering and its reader.
- `go_leopard.dfy`, `java_leopard.dfy`, `web_leopard_worker.dfy`: one module per binding.

Each binding's `process` returns the transcript string.

## Model

| member | source | states |
|---|---|---|
| Text.Split | binding/go/leopard.go:294-296 | `strings.Split` on one separator: at least one piece, no piece holds the separator, and joining the pieces with it gives the input back |
| Text.SplitOfJoin | binding/go/leopard.go:294-296 | splitting a joined text recovers exactly the pieces, so Split and Join are inverse |
| Text.Contains | binding/go/leopard.go:295 | `strings.Contains` is true iff the key occurs at some index of the line |
| Text.ToLower | binding/go/leopard.go:297 | `strings.ToLower` keeps the length and lowers each ASCII capital by 32, leaving every other character |
| Text.LastIndexOf | binding/java/src/ai/picovoice/leopard/Leopard.java:86 | `lastIndexOf` is -1 iff the character is absent; otherwise that index holds it and no later index does |
| Text.NatToDecimal | binding/go/leopard.go:236 | the decimal digits of a natural number, beginning with '0' only for zero, which is exactly "0" |
| Text.IntToDecimal | binding/go/leopard.go:236 | `%d` yields a minus sign exactly for negatives, followed by decimal digits with no leading zero (a lone "0" for zero) |
| Text.ParseIntOfDecimal | binding/go/leopard.go:236 | the `%d` text of every integer reads back as that integer |
| Text.DecimalInjective | binding/go/leopard.go:236 | distinct integers have distinct `%d` texts |
| GoLeopard.StatusName | binding/go/leopard.go:209-238 | the twelve known codes get constant-style names; any other code gets "Unknown error code: " followed by exactly the code's `%d` text, which reads back as the code |
| GoLeopard.ConstantNameIsNotUnknown | binding/go/leopard.go:211-236 | no constant name can be confused with an "Unknown error code: " name |
| GoLeopard.KnownStatusRoundTrip | binding/go/leopard.go:210-234 | each of the twelve names reads back as its own code |
| GoLeopard.UnknownStatusRoundTrip | binding/go/leopard.go:235-236 | an unknown code reads back from its "Unknown error code" name |
| GoLeopard.StatusNameRoundTrip | binding/go/leopard.go:209-238 | every status, known or not, reads back from its name |
| GoLeopard.StatusNameInjective | binding/go/leopard.go:209-238 | distinct statuses never share a name |
| GoLeopard.LeopardError.Error | binding/go/leopard.go:60-62 | the error string starts with the status name and ": ", and the rest is the message verbatim |
| GoLeopard.NameEndOfError | binding/go/leopard.go:60-62 | in an error string the status name ends at the first colon after the optional "Unknown error code: " prefix |
| GoLeopard.ErrorStringRoundTrip | binding/go/leopard.go:60-62 | status and message can both be read back from `Error()`, so the string loses nothing |
| GoLeopard.ErrorStringInjective | binding/go/leopard.go:60-62 | two errors with the same string are the same error |
| GoLeopard.GetExtensions | binding/go/leopard.go:245-252 | the built set includes an extension iff it is one of .flac, .mp3, .ogg, .opus, .wav, .webm |
| GoLeopard.ExtStep | binding/go/leopard.go:194 | appending a character other than '/' and '.' to a path extends a non-empty `filepath.Ext` by that character and keeps it a dot suffix |
| GoLeopard.ExtIsLastDotSuffix | binding/go/leopard.go:194 | `filepath.Ext` is empty iff the last path element has no '.'; otherwise it is a suffix of the path starting at that element's last '.' |
| GoLeopard.Leopard.constructor | binding/go/leopard.go:64-74 | a new struct has the given AccessKey and ModelPath and a zero handle |
| GoLeopard.Leopard.Init | binding/go/leopard.go:107-132 | an empty AccessKey fails first and changes nothing; an empty ModelPath becomes the default model; a missing model fails before the native call; otherwise the native handle is stored and a non-SUCCESS status is returned with "Leopard init failed." |
| GoLeopard.Leopard.Delete | binding/go/leopard.go:135-144 | fails with INVALID_STATE exactly when the handle is zero |
| GoLeopard.Leopard.Process | binding/go/leopard.go:151-172 | checks the handle before the audio, rejects empty audio with INVALID_ARGUMENT, passes a native failure's status through, and returns an empty transcript with every error |
| GoLeopard.Leopard.ProcessFile | binding/go/leopard.go:178-207 | after the handle and file-existence checks, a native failure keeps its status; the message names the extension exactly when the status is INVALID_ARGUMENT and the extension is not listed |
| GoLeopard.MacArch | binding/go/leopard.go:269-275 | "arm64" exactly on arm64, "x86_64" on every other architecture |
| GoLeopard.FirstCpuPart | binding/go/leopard.go:293-300 | the lower-cased last field of the first line containing "CPU part", or "" when no line contains it |
| GoLeopard.ArchInfo | binding/go/leopard.go:278-284 | the core-name suffix is "-aarch64" on arm64 and empty on every other architecture |
| GoLeopard.CpuBoard | binding/go/leopard.go:302-312 | 0xd03 is raspberry-pi with cortex-a53, 0xd07 is jetson with cortex-a57, 0xd08 is raspberry-pi with cortex-a72, each core name followed by the architecture suffix; any other part is fatal |
| GoLeopard.LinuxDetails | binding/go/leopard.go:277-313 | amd64 is ("linux", "x86_64") without reading cpuinfo; otherwise an unreadable cpuinfo is fatal and the first "CPU part" line decides the board |
| GoLeopard.GetLinuxDetails | binding/go/leopard.go:277-313 | the early-exit scan over the cpuinfo lines computes exactly LinuxDetails |
| GoLeopard.LinuxDetailsOfLines | binding/go/leopard.go:286-300 | cpuinfo given as lines is scanned line by line: LinuxDetails of the joined text is decided by FirstCpuPart of those lines |
| GoLeopard.OSDetails | binding/go/leopard.go:254-267 | darwin is ("mac", MacArch), windows is ("windows", "amd64"), linux is exactly LinuxDetails, any other OS is fatal; a detected platform always names a CPU |
| GoLeopard.LibraryPath | binding/go/leopard.go:320-338 | the exact path per OS: darwin is embedded/lib/<os>/<cpu>/libpv_leopard.dylib; linux is embedded/lib/<os>/<cpu>/libpv_leopard.so, or embedded/lib/<os>/libpv_leopard.so when the CPU is empty; windows is embedded/lib/<os>/amd64/libpv_leopard.dll; any other OS is fatal |
| GoLeopard.LibraryPathSeparatesCpus | binding/go/leopard.go:320-338 | on darwin and linux two platforms of the same OS with different CPUs never share a library path |
| GoLeopard.LinuxLibraryInCpuDirectory | binding/go/leopard.go:325-330 | on Linux the detected platform always has a CPU, so the library always comes from the per-CPU directory |
| JavaLeopard.Extension | binding/java/src/ai/picovoice/leopard/Leopard.java:85-86 | no extension iff the path has no '.'; otherwise the text after the last '.', which holds no '.' |
| JavaLeopard.Leopard.ProcessFile | binding/java/src/ai/picovoice/leopard/Leopard.java:81-93 | the native result is kept except for an invalid-argument exception on a path whose extension is not listed, which becomes an invalid-argument exception naming that extension; success and exception class are never changed |
| JavaLeopard.ProcessFileWithoutDot | binding/java/src/ai/picovoice/leopard/Leopard.java:85-91 | a path without '.' always gets the native outcome unchanged |
| JavaLeopard.NewLeopard | binding/java/src/ai/picovoice/leopard/Leopard.java:44-51 | an Exception from `System.load` becomes a base LeopardException with its message; otherwise native init's handle or exception is the outcome |
| JavaLeopard.BuildSpec | binding/java/src/ai/picovoice/leopard/Leopard.java:137-175 | checks run in order environment, AccessKey, library, model, and the first failure is thrown; caller-set paths are kept; success happens iff the environment is supported, the AccessKey is set and every substituted default is available and exists, and then both paths are stored and the outcome is the constructor's |
| JavaLeopard.BuildIgnoresExistenceOfCallerPaths | binding/java/src/ai/picovoice/leopard/Leopard.java:148-172 | file existence matters to build only at the packaged defaults it substitutes, so a caller-set path is never checked |
| JavaLeopard.BuildModelDefault | binding/java/src/ai/picovoice/leopard/Leopard.java:161-172 | an unset model path fails with invalid-argument when resources are unavailable and with an I/O error when the packaged model is missing, with the library default already stored |
| JavaLeopard.Builder.constructor | binding/java/src/ai/picovoice/leopard/Leopard.java:117-120 | all three fields start null |
| JavaLeopard.Builder.SetAccessKey | binding/java/src/ai/picovoice/leopard/Leopard.java:122-125 | stores the key, leaves the other fields, returns the same builder |
| JavaLeopard.Builder.SetLibraryPath | binding/java/src/ai/picovoice/leopard/Leopard.java:127-130 | stores the path, leaves the other fields, returns the same builder |
| JavaLeopard.Builder.SetModelPath | binding/java/src/ai/picovoice/leopard/Leopard.java:132-135 | stores the path, leaves the other fields, returns the same builder |
| JavaLeopard.Builder.Build | binding/java/src/ai/picovoice/leopard/Leopard.java:137-175 | the step-by-step build, including the defaults it stores into the builder, yields exactly BuildSpec of the old fields |
| WebLeopardWorker.SetOnce | binding/web/src/leopard_worker.ts:119-133 | after a setter call the field is set; it keeps an existing value and otherwise takes the argument |
| WebLeopardWorker.SetFieldIsKept | binding/web/src/leopard_worker.ts:119-133 | once set, no sequence of later calls changes the field |
| WebLeopardWorker.FirstCallWins | binding/web/src/leopard_worker.ts:119-133 | from unset, any non-empty sequence of calls leaves the first call's value |
| WebLeopardWorker.WasmSources.constructor | binding/web/src/leopard_worker.ts:29-30 | both static sources start undefined |
| WebLeopardWorker.WasmSources.SetWasm | binding/web/src/leopard_worker.ts:119-123 | `_wasm` follows SetOnce and `_wasmSimd` is untouched |
| WebLeopardWorker.WasmSources.SetWasmSimd | binding/web/src/leopard_worker.ts:129-133 | `_wasmSimd` follows SetOnce and `_wasm` is untouched |
| WebLeopardWorker.ResolveOptions | binding/web/src/leopard_worker.ts:72 | modelPath defaults to "leopard_model", forceWrite is true only when given as true, and the remaining option is forwarded unchanged |
| WebLeopardWorker.Staged | binding/web/src/leopard_worker.ts:74-77 | the model is written iff the path is unused or forceWrite is set; no other path changes |
| WebLeopardWorker.Dispatch | binding/web/src/leopard_worker.ts:151-163 | resolves iff the command is "ok"; "failed" and "error" reject with the worker's message; any other command rejects with "Unrecognized command: " and the command |
| WebLeopardWorker.LeopardWorker.constructor | binding/web/src/leopard_worker.ts:32-50 | the version and sampleRate getters return the constructor's arguments |
| WebLeopardWorker.LeopardWorker.Process | binding/web/src/leopard_worker.ts:191-226 | installs the process handler and posts the frame, listing it for transfer exactly when transfer is true (undefined counts as false) |
| WebLeopardWorker.LeopardWorker.Release | binding/web/src/leopard_worker.ts:231-254 | installs the release handler and posts the release command |
| WebLeopardWorker.LeopardWorker.OnMessage | binding/web/src/leopard_worker.ts:198-213 | the transfer callback receives the returned frame iff transfer was requested, a callback was given and the response carries a frame, whatever the command; the promise resolves iff the command is "ok" |
| WebLeopardWorker.Create | binding/web/src/leopard_worker.ts:146-177 | posts an init request carrying the arguments and the current static sources; "ok" yields a new worker with the response's version and sample rate, anything else rejects as Dispatch says |
| WebLeopardWorker.FromBase64 | binding/web/src/leopard_worker.ts:67-79 | stores the decoded model following Staged, then returns what `create` gives for the resolved path and the remaining options: on "ok" a new worker with the response's version and sample rate, otherwise the rejection Dispatch gives |
| WebLeopardWorker.FromPublicDirectory | binding/web/src/leopard_worker.ts:96-113 | when the model must be written and the fetch is not ok, rejects with "Failed to get model from '<publicPath>'" without storing or posting; otherwise stores following Staged and returns what `create` gives: on "ok" a new worker with the response's version and sample rate, otherwise the rejection Dispatch gives |

## Left out

- The native engine and JNI code: the engine is a parameter, so every contract holds for any engine. The C shims behind `nativeInit`, `nativeProcess`, `nativeProcessFile` and `nativeDelete` are not part of this model.
- GoLeopard.Leopard.Delete: does not model `nativeDelete`'s effect on the handle, because that code is not part of this model; the handle is left unchanged.
- GoLeopard.Leopard.Init: stores the handle the native init reports whenever native init is reached; how `nativeInit` writes it is not part of this model.
- JavaLeopard.Leopard.Process: a single native call passing `pcm.length` as the sample count; nothing beyond that to prove.
- `SampleRate` and `Version` (Go), `getSampleRate`, `getVersion` and `delete()` (Java): single calls into the native library with no logic in the binding.
- File extraction in Go (`extractFile`, `embeddedFS`, `MkdirAll`, `WriteFile`, the temporary directory): file-system effects. `extractLib` is modelled only by the path it chooses (`LibraryPath`); the model file `extractDefaultModel` returns is `Init`'s `defaultModelFile` parameter.
- `log.Fatalf` is modelled as a `Fatal` result; the process exit itself is not modelled.
- Text.ToLower: handles ASCII letters only, not Unicode case mapping; cpuinfo part numbers are ASCII.
- GoLeopard.ExtIsLastDotSuffix: `filepath.Ext` is modelled for '/' separators only; Windows '\' separators are not modelled.
- Go `PvStatus` is a machine `int`; the model uses unbounded integers, which agree for every status the native library returns.
- The Java `Utils` class (platform checks, packaged paths, `getValidFileExtensions`) is not part of this model; its answers are the `Environment` and `validExtensions` parameters.
- JavaLeopard.NewLeopard: `System.load` failures that are `Error`s (such as `UnsatisfiedLinkError`) escape the `catch (Exception)`; the model covers only the caught exceptions.
- Java `null` arguments are not modelled: the model's sequences and strings are never null. In the source a null `pcm` fails at `pcm.length` before the native call; a null `path` reaches native `processFile` first and is dereferenced by the binding only in the invalid-argument `catch`.
- WebLeopardWorker: Promises, `async` ordering, `postMessage` delivery, the `Worker` object's lifecycle and `terminate()` are not modelled; each request is paired with the response the `worker` function gives.
- WebLeopardWorker.FromPublicDirectory: `PvFile.open(modelPath, "w")` runs before the fetch and may create the file; the storage helper is not part of this model, so a failed fetch leaves the store unchanged.
- WebLeopardWorker.LeopardWorker.OnMessage: hands the callback the returned frame itself, not a fresh `Int16Array` over its buffer.
- `LeopardConfig` keys other than `modelPath`, `forceWrite` and `enableAutomaticPunctuation`, and explicit `null` option values, are not modelled.
- `binding/web/src/index.ts` (module wiring), the React hook, the demos and the tests: outside the bindings' decision logic.
