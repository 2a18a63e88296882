/**
 * The Go binding of the Leopard speech-to-text engine (binding/go/leopard.go): status names
 * and error strings, the lifecycle guard around the native library, the "extension not
 * supported" rule of ProcessFile, and the platform detection that picks the native library.
 *
 * The native library is a record of arbitrary total functions (`NativeEngine`); every contract
 * below holds for every choice of them. Whether a path exists is a predicate parameter.
 */
module GoLeopard {
  import opened Common
  import opened Text

  /** `PvStatus`: a status code returned by the native library. */
  type PvStatus = int

  const SUCCESS: PvStatus := 0
  const OUT_OF_MEMORY: PvStatus := 1
  const IO_ERROR: PvStatus := 2
  const INVALID_ARGUMENT: PvStatus := 3
  const STOP_ITERATION: PvStatus := 4
  const KEY_ERROR: PvStatus := 5
  const INVALID_STATE: PvStatus := 6
  const RUNTIME_ERROR: PvStatus := 7
  const ACTIVATION_ERROR: PvStatus := 8
  const ACTIVATION_LIMIT_REACHED: PvStatus := 9
  const ACTIVATION_THROTTLED: PvStatus := 10
  const ACTIVATION_REFUSED: PvStatus := 11

  /** The twelve codes the binding gives a name of their own. */
  predicate IsKnownStatus(status: PvStatus) {
    SUCCESS <= status <= ACTIVATION_REFUSED
  }

  /** A name spelled like a Go constant: upper-case letters and underscores only. */
  predicate IsConstantName(name: string) {
    |name| > 0 && forall c :: c in name ==> 'A' <= c <= 'Z' || c == '_'
  }

  const UnknownStatusPrefix := "Unknown error code: "

  /** A name of the form "Unknown error code: " followed by text without a colon. */
  predicate IsUnknownName(name: string) {
    StartsWith(name, UnknownStatusPrefix) && |name| > |UnknownStatusPrefix| &&
    ':' !in name[|UnknownStatusPrefix|..]
  }

  /**
   * `pvStatusToString`: each known code has its constant's name; any other code is rendered
   * as "Unknown error code: " followed by the code in decimal, which can be read back.
   */
  function StatusName(status: PvStatus): (name: string)
    ensures IsKnownStatus(status) ==> IsConstantName(name)
    ensures !IsKnownStatus(status) ==>
      IsUnknownName(name) && ParseInt(name[|UnknownStatusPrefix|..]) == Some(status) &&
      name[|UnknownStatusPrefix|..] == IntToDecimal(status)
  {
    match status
    case 0 => "SUCCESS"
    case 1 => "OUT_OF_MEMORY"
    case 2 => "IO_ERROR"
    case 3 => "INVALID_ARGUMENT"
    case 4 => "STOP_ITERATION"
    case 5 => "KEY_ERROR"
    case 6 => "INVALID_STATE"
    case 7 => "RUNTIME_ERROR"
    case 8 => "ACTIVATION_ERROR"
    case 9 => "ACTIVATION_LIMIT_REACHED"
    case 10 => "ACTIVATION_THROTTLED"
    case 11 => "ACTIVATION_REFUSED"
    case _ =>
      var name := UnknownStatusPrefix + IntToDecimal(status);
      ParseIntOfDecimal(status);
      assert name[|UnknownStatusPrefix|..] == IntToDecimal(status);
      name
  }

  /** Reads a status back from its name: the inverse of StatusName. */
  function StatusFromName(name: string): Option<PvStatus> {
    if StartsWith(name, UnknownStatusPrefix) then ParseInt(name[|UnknownStatusPrefix|..])
    else if name == "SUCCESS" then Some(SUCCESS)
    else if name == "OUT_OF_MEMORY" then Some(OUT_OF_MEMORY)
    else if name == "IO_ERROR" then Some(IO_ERROR)
    else if name == "INVALID_ARGUMENT" then Some(INVALID_ARGUMENT)
    else if name == "STOP_ITERATION" then Some(STOP_ITERATION)
    else if name == "KEY_ERROR" then Some(KEY_ERROR)
    else if name == "INVALID_STATE" then Some(INVALID_STATE)
    else if name == "RUNTIME_ERROR" then Some(RUNTIME_ERROR)
    else if name == "ACTIVATION_ERROR" then Some(ACTIVATION_ERROR)
    else if name == "ACTIVATION_LIMIT_REACHED" then Some(ACTIVATION_LIMIT_REACHED)
    else if name == "ACTIVATION_THROTTLED" then Some(ACTIVATION_THROTTLED)
    else if name == "ACTIVATION_REFUSED" then Some(ACTIVATION_REFUSED)
    else None
  }

  /** Every status, known or not, can be read back from its name. */
  lemma StatusNameRoundTrip(status: PvStatus)
    ensures StatusFromName(StatusName(status)) == Some(status)
  {
    if IsKnownStatus(status) {
      KnownStatusRoundTrip(status);
    } else {
      UnknownStatusRoundTrip(status);
    }
  }

  /** A constant name never starts with "Unknown error code: ", whose colon it cannot hold. */
  lemma ConstantNameIsNotUnknown(name: string)
    requires IsConstantName(name)
    ensures !StartsWith(name, UnknownStatusPrefix)
  {
    if |UnknownStatusPrefix| <= |name| {
      assert name[18] in name;
      assert name[..|UnknownStatusPrefix|][18] == name[18] != UnknownStatusPrefix[18];
    }
  }

  /** The twelve constant names are read back as their codes. */
  lemma KnownStatusRoundTrip(status: PvStatus)
    requires IsKnownStatus(status)
    ensures StatusFromName(StatusName(status)) == Some(status)
  {
    ConstantNameIsNotUnknown(StatusName(status));
  }

  /** A name "Unknown error code: <n>" is read back through its decimal part. */
  lemma UnknownStatusRoundTrip(status: PvStatus)
    requires !IsKnownStatus(status)
    ensures StatusFromName(StatusName(status)) == Some(status)
  {
  }

  /** Distinct statuses have distinct names: the mapping is total and one-to-one. */
  lemma StatusNameInjective(a: PvStatus, b: PvStatus)
    requires a != b
    ensures StatusName(a) != StatusName(b)
  {
    StatusNameRoundTrip(a);
    StatusNameRoundTrip(b);
  }

  /** The error returned by every failing call: a status and a message. */
  datatype LeopardError = LeopardError(statusCode: PvStatus, message: string) {
    /** `LeopardError.Error()`: the status name, ": ", then the message. */
    function Error(): (s: string)
      ensures StartsWith(s, StatusName(statusCode) + ": ")
      ensures s[|StatusName(statusCode)| + 2..] == message
    {
      var s := StatusName(statusCode) + ": " + message;
      assert s[|StatusName(statusCode)| + 2..] == message;
      s
    }
  }

  /**
   * Where the status name ends in an error string: at the first colon, looking past
   * "Unknown error code: " when the string starts with it.
   */
  function NameEnd(s: string): nat {
    var start := if StartsWith(s, UnknownStatusPrefix) then |UnknownStatusPrefix| else 0;
    if ':' in s[start..] then start + IndexOf(s[start..], ':') else |s|
  }

  /** In an error string, NameEnd finds the end of the status name. */
  lemma NameEndOfError(name: string, s: string)
    requires IsConstantName(name) || IsUnknownName(name)
    requires StartsWith(s, name + ": ")
    ensures NameEnd(s) == |name|
  {
    assert s[..|name|] == name && s[|name|] == ':';
    if IsConstantName(name) {
      assert s[1] == ':' || s[1] in name;
      assert !StartsWith(s, UnknownStatusPrefix);
      assert ':' !in name;
    } else {
      var start := |UnknownStatusPrefix|;
      assert StartsWith(s, UnknownStatusPrefix);
      assert s[start..][..|name| - start] == name[start..];
      assert s[start..][|name| - start] == ':';
    }
  }

  /** Reads an error back from its error string. */
  function ErrorFromString(s: string): Option<LeopardError> {
    var k := NameEnd(s);
    if k + 2 <= |s| then
      match StatusFromName(s[..k])
      case Some(status) => Some(LeopardError(status, s[k + 2..]))
      case None => None
    else None
  }

  /** `Error()` loses nothing: the status and the message can be read back from the string. */
  lemma ErrorStringRoundTrip(e: LeopardError)
    ensures ErrorFromString(e.Error()) == Some(e)
  {
    var name := StatusName(e.statusCode);
    NameEndOfError(name, e.Error());
    assert e.Error()[..|name|] == name;
    StatusNameRoundTrip(e.statusCode);
  }

  /** Two errors with the same error string are the same error. */
  lemma ErrorStringInjective(e1: LeopardError, e2: LeopardError)
    requires e1.Error() == e2.Error()
    ensures e1 == e2
  {
    ErrorStringRoundTrip(e1);
    ErrorStringRoundTrip(e2);
  }

  /** What the native init call reports: a status and the instance handle it wrote. */
  datatype NativeInit = NativeInit(status: PvStatus, handle: nat)

  /** What the native process calls report: a status and a transcript. */
  datatype NativeTranscript = NativeTranscript(status: PvStatus, transcript: string)

  /**
   * The native library: `nativeInit` on (AccessKey, ModelPath), `nativeProcess` on
   * (handle, pcm) and `nativeProcessFile` on (handle, path).
   */
  datatype NativeEngine = NativeEngine(
    init: (string, string) -> NativeInit,
    process: (nat, seq<int16>) -> NativeTranscript,
    processFile: (nat, string) -> NativeTranscript)

  const NotInitializedMessage := "Leopard has not been initialized or has already been deleted"
  const NoAccessKeyMessage := "No AccessKey provided to Leopard"
  const InitFailedMessage := "Leopard init failed."
  const EmptyAudioMessage := "Audio data must not be empty"
  const ProcessFailedMessage := "Leopard process failed."

  function ModelNotFoundMessage(modelPath: string): string {
    "Specified model file could not be found at " + modelPath
  }

  function FileNotFoundMessage(audioPath: string): string {
    "Specified file could not be found at '" + audioPath + "'"
  }

  function UnsupportedExtensionMessage(extension: string): string {
    "Specified file with extension '" + extension + "' is not supported"
  }

  /** The audio file extensions the binding accepts, in the order `getExtensions` lists them. */
  const ExtensionList: seq<string> := [".flac", ".mp3", ".ogg", ".opus", ".wav", ".webm"]

  /** `leopardExts`: a set of extensions kept as the keys of a map. */
  datatype LeopardExts = LeopardExts(values: map<string, ()>) {
    /** `includes`: membership of the extension among the keys. */
    function Includes(extension: string): (ok: bool)
      ensures ok <==> extension in values
    {
      extension in values
    }
  }

  /** `getExtensions`: a map holding exactly the listed extensions. */
  method GetExtensions() returns (exts: LeopardExts)
    ensures forall e :: exts.Includes(e) <==> e in ExtensionList
  {
    var values: map<string, ()> := map[];
    for i := 0 to |ExtensionList|
      invariant forall e :: e in values <==> e in ExtensionList[..i]
    {
      values := values[ExtensionList[i] := ()];
    }
    exts := LeopardExts(values);
  }

  /** The last element of a '/'-separated path: the text after its last '/'. */
  function LastElement(path: string): string {
    path[LastIndexOf(path, '/') + 1..]
  }

  /**
   * Go's `filepath.Ext` on '/'-separated paths, scanning back from the end: the suffix of
   * the last path element that starts at its last '.', or "" when that element has none.
   */
  function Ext(path: string): string
    decreases |path|
  {
    if |path| == 0 || path[|path| - 1] == '/' then ""
    else if path[|path| - 1] == '.' then "."
    else
      var e := Ext(path[..|path| - 1]);
      if e == "" then "" else e + [path[|path| - 1]]
  }

  /** Appending a character other than '/' extends the last element by that character. */
  lemma LastElementSnoc(init: string, c: char)
    requires c != '/'
    ensures LastElement(init + [c]) == LastElement(init) + [c]
  {
    var path := init + [c];
    assert path[..|path| - 1] == init;
    assert LastIndexOf(path, '/') == LastIndexOf(init, '/');
  }

  /**
   * Ext is empty exactly when the last element has no '.'; otherwise it is a suffix of the
   * path that starts with '.' and holds no other '.' and no '/'.
   */
  lemma {:induction false} ExtIsLastDotSuffix(path: string)
    ensures Ext(path) == "" <==> '.' !in LastElement(path)
    ensures Ext(path) != "" ==>
      Ext(path)[0] == '.' && EndsWith(path, Ext(path)) && '.' !in Ext(path)[1..] && '/' !in Ext(path)
    decreases |path|
  {
    if |path| == 0 {
    } else if path[|path| - 1] == '/' {
      assert LastIndexOf(path, '/') == |path| - 1;
    } else {
      var init, c := path[..|path| - 1], path[|path| - 1];
      assert path == init + [c];
      LastElementSnoc(init, c);
      if c == '.' {
        assert '.' in LastElement(path);
      } else {
        ExtIsLastDotSuffix(init);
        ExtStep(init, c, Ext(init));
      }
    }
  }

  /** Appending a character that is neither '/' nor '.' extends a non-empty Ext by it. */
  lemma ExtSnoc(init: string, c: char)
    requires c != '/' && c != '.'
    ensures Ext(init + [c]) == (if Ext(init) == "" then "" else Ext(init) + [c])
  {
    var path := init + [c];
    assert path[..|path| - 1] == init;
  }

  /** A dot suffix without another '.' or any '/' stays one when a plain character is appended. */
  lemma DotSuffixSnoc(init: string, c: char, e: string)
    requires c != '/' && c != '.'
    requires e != "" && e[0] == '.' && EndsWith(init, e) && '.' !in e[1..] && '/' !in e
    ensures (e + [c])[0] == '.' && EndsWith(init + [c], e + [c])
    ensures '.' !in (e + [c])[1..] && '/' !in e + [c]
  {
    var path := init + [c];
    assert (e + [c])[1..] == e[1..] + [c];
    assert path[|path| - |e| - 1..] == init[|init| - |e|..] + [c];
  }

  /** The inductive step of ExtIsLastDotSuffix for a character that is neither '/' nor '.'. */
  lemma ExtStep(init: string, c: char, e: string)
    requires c != '/' && c != '.' && e == Ext(init)
    requires e != "" ==> e[0] == '.' && EndsWith(init, e) && '.' !in e[1..] && '/' !in e
    ensures Ext(init + [c]) == (if e == "" then "" else e + [c])
    ensures e != "" ==>
      (e + [c])[0] == '.' && EndsWith(init + [c], e + [c]) && '.' !in (e + [c])[1..] && '/' !in e + [c]
  {
    ExtSnoc(init, c);
    if e != "" {
      DotSuffixSnoc(init, c, e);
    }
  }

  /**
   * `Leopard`: the instance struct. The handle is zero until init reaches the native library;
   * Init replaces an empty ModelPath with the default model file.
   */
  class Leopard {
    var handle: nat
    var accessKey: string
    var modelPath: string

    /** `Leopard{AccessKey: accessKey, ModelPath: modelPath}`: the handle starts at zero. */
    constructor(accessKey: string, modelPath: string)
      ensures this.handle == 0 && this.accessKey == accessKey && this.modelPath == modelPath
    {
      this.handle := 0;
      this.accessKey := accessKey;
      this.modelPath := modelPath;
    }

    /**
     * `Init`: an empty AccessKey fails before anything else is touched; an empty ModelPath
     * becomes the default model file; a model path that `missing` reports fails before the
     * native library is reached; otherwise the native status is passed through.
     * `missing(p)` stands for `os.IsNotExist` of `os.Stat(p)`.
     */
    method Init(defaultModelFile: string, missing: string -> bool, native: NativeEngine)
      returns (err: Option<LeopardError>)
      modifies this
      ensures accessKey == old(accessKey)
      ensures old(accessKey) == "" ==>
        err == Some(LeopardError(INVALID_ARGUMENT, NoAccessKeyMessage)) &&
        modelPath == old(modelPath) && handle == old(handle)
      ensures old(accessKey) != "" ==>
        modelPath == (if old(modelPath) == "" then defaultModelFile else old(modelPath))
      ensures old(accessKey) != "" && missing(modelPath) ==>
        err == Some(LeopardError(INVALID_ARGUMENT, ModelNotFoundMessage(modelPath))) && handle == old(handle)
      ensures old(accessKey) != "" && !missing(modelPath) ==>
        var r := native.init(accessKey, modelPath);
        handle == r.handle &&
        err == (if r.status == SUCCESS then None else Some(LeopardError(r.status, InitFailedMessage)))
      ensures err == None ==> accessKey != "" && !missing(modelPath)
    {
      if accessKey == "" {
        return Some(LeopardError(INVALID_ARGUMENT, NoAccessKeyMessage));
      }
      if modelPath == "" {
        modelPath := defaultModelFile;
      }
      if missing(modelPath) {
        return Some(LeopardError(INVALID_ARGUMENT, ModelNotFoundMessage(modelPath)));
      }
      var ret := native.init(accessKey, modelPath);
      handle := ret.handle;
      if ret.status != SUCCESS {
        return Some(LeopardError(ret.status, InitFailedMessage));
      }
      return None;
    }

    /** `Delete`: fails with INVALID_STATE exactly when the handle is zero. */
    method Delete() returns (err: Option<LeopardError>)
      ensures err.Some? <==> handle == 0
      ensures err.Some? ==> err.value == LeopardError(INVALID_STATE, NotInitializedMessage)
    {
      if handle == 0 {
        return Some(LeopardError(INVALID_STATE, NotInitializedMessage));
      }
      return None;
    }

    /**
     * `Process`: the handle is checked before the audio; empty audio fails with
     * INVALID_ARGUMENT; a native failure is passed through with an empty transcript.
     */
    method Process(pcm: seq<int16>, native: NativeEngine) returns (transcript: string, err: Option<LeopardError>)
      ensures handle == 0 ==> err == Some(LeopardError(INVALID_STATE, NotInitializedMessage))
      ensures handle != 0 && |pcm| == 0 ==> err == Some(LeopardError(INVALID_ARGUMENT, EmptyAudioMessage))
      ensures handle != 0 && |pcm| > 0 ==>
        var r := native.process(handle, pcm);
        if r.status == SUCCESS then transcript == r.transcript && err == None
        else err == Some(LeopardError(r.status, ProcessFailedMessage))
      ensures err.Some? ==> transcript == ""
    {
      if handle == 0 {
        return "", Some(LeopardError(INVALID_STATE, NotInitializedMessage));
      }
      if |pcm| == 0 {
        return "", Some(LeopardError(INVALID_ARGUMENT, EmptyAudioMessage));
      }
      var ret := native.process(handle, pcm);
      if ret.status != SUCCESS {
        return "", Some(LeopardError(ret.status, ProcessFailedMessage));
      }
      return ret.transcript, None;
    }

    /**
     * `ProcessFile`: after the handle and existence checks, a native failure keeps its status;
     * only an INVALID_ARGUMENT on a file whose extension is not listed gets the
     * "extension not supported" message.
     */
    method ProcessFile(audioPath: string, missing: string -> bool, native: NativeEngine)
      returns (transcript: string, err: Option<LeopardError>)
      ensures handle == 0 ==> err == Some(LeopardError(INVALID_STATE, NotInitializedMessage))
      ensures handle != 0 && missing(audioPath) ==>
        err == Some(LeopardError(INVALID_ARGUMENT, FileNotFoundMessage(audioPath)))
      ensures handle != 0 && !missing(audioPath) ==>
        var r := native.processFile(handle, audioPath);
        var ext := Ext(audioPath);
        (r.status == SUCCESS ==> transcript == r.transcript && err == None) &&
        (r.status != SUCCESS ==> err.Some? && err.value.statusCode == r.status) &&
        (r.status == INVALID_ARGUMENT && ext !in ExtensionList ==>
          err.Some? && err.value.message == UnsupportedExtensionMessage(ext)) &&
        (r.status != SUCCESS && (r.status != INVALID_ARGUMENT || ext in ExtensionList) ==>
          err.Some? && err.value.message == ProcessFailedMessage)
      ensures err.Some? ==> transcript == ""
    {
      if handle == 0 {
        return "", Some(LeopardError(INVALID_STATE, NotInitializedMessage));
      }
      if missing(audioPath) {
        return "", Some(LeopardError(INVALID_ARGUMENT, FileNotFoundMessage(audioPath)));
      }
      var ret := native.processFile(handle, audioPath);
      if ret.status != SUCCESS {
        if ret.status == INVALID_ARGUMENT {
          var fileExtension := Ext(audioPath);
          // the package-level `validExtensions`
          var validExtensions := GetExtensions();
          if !validExtensions.Includes(fileExtension) {
            return "", Some(LeopardError(INVALID_ARGUMENT, UnsupportedExtensionMessage(fileExtension)));
          }
        }
        return "", Some(LeopardError(ret.status, ProcessFailedMessage));
      }
      return ret.transcript, None;
    }
  }

  /** A result that ends the process through `log.Fatalf` instead of returning. */
  datatype Fatal<T> = Ok(value: T) | Fatal(message: string)

  /** The (osName, cpu) pair that selects the native library directory. */
  datatype Platform = Platform(osName: string, cpu: string)

  /** The output of `cat /proc/cpuinfo`, or the error running it. */
  datatype CommandOutput = Output(text: string) | CommandError(error: string)

  /** `getMacArch`: "arm64" on arm64 machines, "x86_64" on every other architecture. */
  function MacArch(goarch: string): (arch: string)
    ensures arch == "arm64" <==> goarch == "arm64"
    ensures arch != "arm64" ==> arch == "x86_64"
  {
    if goarch == "arm64" then "arm64" else "x86_64"
  }

  const CpuPartKey := "CPU part"

  /** The lower-cased last space-separated field of a line of cpuinfo. */
  function CpuPartField(line: string): string {
    var fields := Split(line, ' ');
    ToLower(fields[|fields| - 1])
  }

  /** The CPU part named by the first line that contains "CPU part", or "" when none does. */
  function FirstCpuPart(lines: seq<string>): (part: string)
    ensures (forall i :: 0 <= i < |lines| ==> !Contains(lines[i], CpuPartKey)) ==> part == ""
    ensures forall i ::
      (0 <= i < |lines| && Contains(lines[i], CpuPartKey) &&
       forall j :: 0 <= j < i ==> !Contains(lines[j], CpuPartKey)) ==>
        part == CpuPartField(lines[i])
  {
    if |lines| == 0 then ""
    else if Contains(lines[0], CpuPartKey) then CpuPartField(lines[0])
    else
      var part := FirstCpuPart(lines[1..]);
      assert forall i :: 1 <= i < |lines| ==> lines[1..][i - 1] == lines[i];
      part
  }

  /** The board and core of a known ARM CPU part; any other part is fatal. */
  function CpuBoard(cpuPart: string, archInfo: string): (r: Fatal<Platform>)
    ensures r.Ok? <==> cpuPart in {"0xd03", "0xd07", "0xd08"}
    ensures r.Ok? ==> r.value.osName in {"raspberry-pi", "jetson"} && EndsWith(r.value.cpu, archInfo)
    ensures cpuPart == "0xd03" ==> r == Ok(Platform("raspberry-pi", "cortex-a53" + archInfo))
    ensures cpuPart == "0xd07" ==> r == Ok(Platform("jetson", "cortex-a57" + archInfo))
    ensures cpuPart == "0xd08" ==> r == Ok(Platform("raspberry-pi", "cortex-a72" + archInfo))
  {
    match cpuPart
    case "0xd03" => Ok(Platform("raspberry-pi", "cortex-a53" + archInfo))
    case "0xd07" => Ok(Platform("jetson", "cortex-a57" + archInfo))
    case "0xd08" => Ok(Platform("raspberry-pi", "cortex-a72" + archInfo))
    case _ => Fatal("Unsupported CPU:\n" + cpuPart)
  }

  /** The suffix `getLinuxDetails` appends to the core name: "-aarch64" on arm64 only. */
  function ArchInfo(goarch: string): (suffix: string)
    ensures goarch == "arm64" ==> suffix == "-aarch64"
    ensures goarch != "arm64" ==> suffix == ""
  {
    if goarch == "arm64" then "-aarch64" else ""
  }

  /**
   * `getLinuxDetails`: amd64 is ("linux", "x86_64") without reading cpuinfo; otherwise the
   * first "CPU part" line decides the board, and an unreadable cpuinfo or an unknown part is fatal.
   */
  function LinuxDetails(goarch: string, cpuInfo: CommandOutput): (r: Fatal<Platform>)
    ensures goarch == "amd64" ==> r == Ok(Platform("linux", "x86_64"))
    ensures goarch != "amd64" && cpuInfo.CommandError? ==> r.Fatal?
    ensures goarch != "amd64" && cpuInfo.Output? ==>
      r == CpuBoard(FirstCpuPart(Split(cpuInfo.text, '\n')), ArchInfo(goarch))
  {
    if goarch == "amd64" then Ok(Platform("linux", "x86_64"))
    else
      match cpuInfo
      case CommandError(e) => Fatal("Failed to get CPU details: " + e)
      case Output(text) => CpuBoard(FirstCpuPart(Split(text, '\n')), ArchInfo(goarch))
  }

  /** `getLinuxDetails` as the source runs it: a scan of the lines that stops at the first match. */
  method GetLinuxDetails(goarch: string, cpuInfo: CommandOutput) returns (r: Fatal<Platform>)
    ensures r == LinuxDetails(goarch, cpuInfo)
  {
    var archInfo := "";
    if goarch == "amd64" {
      return Ok(Platform("linux", "x86_64"));
    } else if goarch == "arm64" {
      archInfo := "-aarch64";
    }
    if cpuInfo.CommandError? {
      return Fatal("Failed to get CPU details: " + cpuInfo.error);
    }
    var lines := Split(cpuInfo.text, '\n');
    var cpuPart := "";
    var i := 0;
    while i < |lines|
      invariant 0 <= i <= |lines|
      invariant cpuPart == ""
      invariant FirstCpuPart(lines[i..]) == FirstCpuPart(lines)
    {
      if Contains(lines[i], CpuPartKey) {
        cpuPart := CpuPartField(lines[i]);
        break;
      }
      assert lines[i..][1..] == lines[i + 1..];
      i := i + 1;
    }
    r := CpuBoard(cpuPart, archInfo);
  }

  /** On non-amd64 Linux, cpuinfo given as lines is scanned line by line. */
  lemma LinuxDetailsOfLines(goarch: string, lines: seq<string>)
    requires goarch != "amd64"
    requires |lines| >= 1 && forall i :: 0 <= i < |lines| ==> '\n' !in lines[i]
    ensures LinuxDetails(goarch, Output(Join(lines, '\n'))) == CpuBoard(FirstCpuPart(lines), ArchInfo(goarch))
  {
    SplitOfJoin(lines, '\n');
  }

  /** `getOS`: the platform pair for each supported GOOS; any other GOOS is fatal. */
  function OSDetails(goos: string, goarch: string, cpuInfo: CommandOutput): (r: Fatal<Platform>)
    ensures r.Ok? <==> (goos in {"darwin", "windows"} || (goos == "linux" && LinuxDetails(goarch, cpuInfo).Ok?))
    ensures r.Ok? ==> r.value.cpu != ""
    ensures goos == "darwin" ==> r == Ok(Platform("mac", MacArch(goarch)))
    ensures goos == "linux" ==> r == LinuxDetails(goarch, cpuInfo)
    ensures goos == "windows" ==> r == Ok(Platform("windows", "amd64"))
  {
    match goos
    case "darwin" => Ok(Platform("mac", MacArch(goarch)))
    case "linux" => LinuxDetails(goarch, cpuInfo)
    case "windows" => Ok(Platform("windows", "amd64"))
    case _ => Fatal(goos + " is not a supported OS")
  }

  /**
   * `extractLib`'s choice of the embedded library path: under the platform's OS directory, in
   * the CPU's own directory on macOS and Linux (when a CPU is named) and in "amd64" on Windows,
   * ending with the OS's library file; an unsupported GOOS is fatal.
   */
  function LibraryPath(goos: string, p: Platform): (r: Fatal<string>)
    ensures r.Ok? <==> goos in {"darwin", "linux", "windows"}
    ensures goos == "darwin" ==> r == Ok("embedded/lib/" + p.osName + "/" + p.cpu + "/libpv_leopard.dylib")
    ensures goos == "linux" ==>
      r == Ok(if p.cpu == "" then "embedded/lib/" + p.osName + "/libpv_leopard.so"
              else "embedded/lib/" + p.osName + "/" + p.cpu + "/libpv_leopard.so")
    ensures goos == "windows" ==> r == Ok("embedded/lib/" + p.osName + "/amd64/libpv_leopard.dll")
  {
    match goos
    case "darwin" => Ok("embedded/lib/" + p.osName + "/" + p.cpu + "/libpv_leopard.dylib")
    case "linux" =>
      if p.cpu == "" then Ok("embedded/lib/" + p.osName + "/libpv_leopard.so")
      else Ok("embedded/lib/" + p.osName + "/" + p.cpu + "/libpv_leopard.so")
    case "windows" => Ok("embedded/lib/" + p.osName + "/amd64/libpv_leopard.dll")
    case _ => Fatal(goos + " is not a supported OS")
  }

  /**
   * On Linux the detected platform always names a CPU, so `extractLib` always takes its
   * per-CPU branch and never the `cpu == ""` one.
   */
  lemma LinuxLibraryInCpuDirectory(goarch: string, cpuInfo: CommandOutput)
    requires OSDetails("linux", goarch, cpuInfo).Ok?
    ensures var p := OSDetails("linux", goarch, cpuInfo).value;
      p.cpu != "" && LibraryPath("linux", p) == Ok("embedded/lib/" + p.osName + "/" + p.cpu + "/libpv_leopard.so")
  {
  }

  /** On macOS and Linux, two platforms of one OS with different CPUs load different libraries. */
  lemma LibraryPathSeparatesCpus(goos: string, p: Platform, q: Platform)
    requires goos in {"darwin", "linux"} && p.osName == q.osName && p.cpu != "" && q.cpu != ""
    requires LibraryPath(goos, p) == LibraryPath(goos, q)
    ensures p.cpu == q.cpu
  {
    var head := "embedded/lib/" + p.osName + "/";
    var tail := if goos == "darwin" then "/libpv_leopard.dylib" else "/libpv_leopard.so";
    var a, b := LibraryPath(goos, p).value, LibraryPath(goos, q).value;
    assert a == head + p.cpu + tail && b == head + q.cpu + tail;
    assert |p.cpu| == |q.cpu|;
    assert p.cpu == a[|head|..|head| + |p.cpu|] == b[|head|..|head| + |q.cpu|] == q.cpu;
  }
}
