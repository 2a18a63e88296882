/**
 * The Java binding of the Leopard speech-to-text engine
 * (binding/java/src/ai/picovoice/leopard/Leopard.java): the Builder's validation order and
 * default paths, and the remapping of invalid-argument errors in processFile.
 *
 * The JNI methods and System.load are a record of arbitrary total functions (`NativeLibrary`);
 * the `Utils` queries and `File.exists` form the `Environment`.
 */
module JavaLeopard {
  import opened Common
  import opened Text

  /** The LeopardException classes the binding throws or catches. */
  datatype ExceptionClass =
    | Base                        // LeopardException itself
    | InvalidArgument             // LeopardInvalidArgumentException
    | IOFailure                   // LeopardIOException
    | RuntimeFailure              // LeopardRuntimeException
    | OtherSubclass(name: string) // any other subclass the native code throws

  datatype LeopardException = LeopardException(cls: ExceptionClass, message: string)

  /** The outcome of a Java call: a returned value or a thrown LeopardException. */
  datatype Thrown<T> = Returned(value: T) | Threw(exception: LeopardException)

  /**
   * The native side: `System.load` (None when the library loads, Some(message) when it throws
   * an Exception), and the JNI methods `init`, `process` and `processFile`.
   */
  datatype NativeLibrary = NativeLibrary(
    load: string -> Option<string>,
    init: (string, string) -> Thrown<int>,
    process: (int, seq<int16>, int) -> Thrown<string>,
    processFile: (int, string) -> Thrown<string>)

  function UnsupportedExtensionMessage(extension: string): string {
    "Specified file with extension '" + extension + "' is not supported"
  }

  /**
   * The extension `processFile` reports: the text after the last '.' of the whole path
   * (directories included), or None when the path has no '.'.
   */
  function Extension(path: string): (ext: Option<string>)
    ensures ext.None? <==> '.' !in path
    ensures ext.Some? ==> '.' !in ext.value && EndsWith(path, "." + ext.value)
  {
    if '.' in path then
      var i := LastIndexOf(path, '.');
      assert path[i..] == "." + path[i + 1..];
      Some(path[i + 1..])
    else None
  }

  /** An instance: the handle the native `init` returned. */
  datatype Leopard = Leopard(libraryHandle: int) {

    /** `process`: the samples go to the native call with their own count as `numSamples`. */
    function Process(pcm: seq<int16>, native: NativeLibrary): (r: Thrown<string>)
      ensures r == native.process(libraryHandle, pcm, |pcm|)
    {
      native.process(libraryHandle, pcm, |pcm|)
    }

    /**
     * `processFile`: the native result is returned unchanged, except that an invalid-argument
     * exception on a path whose extension is not listed becomes a new invalid-argument
     * exception naming that extension.
     */
    function ProcessFile(path: string, validExtensions: seq<string>, native: NativeLibrary): (r: Thrown<string>)
      ensures var n := native.processFile(libraryHandle, path);
        (r.Returned? <==> n.Returned?) &&
        (r.Returned? ==> r == n) &&
        (r.Threw? ==> r.exception.cls == n.exception.cls)
      ensures var n := native.processFile(libraryHandle, path);
        r != n ==>
          (n.Threw? && n.exception.cls == InvalidArgument &&
           Extension(path).Some? && Extension(path).value !in validExtensions)
      ensures var n := native.processFile(libraryHandle, path);
        n.Threw? && n.exception.cls == InvalidArgument &&
        Extension(path).Some? && Extension(path).value !in validExtensions ==>
          r == Threw(LeopardException(InvalidArgument, UnsupportedExtensionMessage(Extension(path).value)))
    {
      var n := native.processFile(libraryHandle, path);
      match n
      case Returned(_) => n
      case Threw(e) =>
        if e.cls == InvalidArgument && '.' in path then
          var extension := path[LastIndexOf(path, '.') + 1..];
          if extension !in validExtensions then
            Threw(LeopardException(InvalidArgument, UnsupportedExtensionMessage(extension)))
          else n
        else n
    }
  }

  /** A path without '.' never has its exception replaced. */
  lemma ProcessFileWithoutDot(h: Leopard, path: string, validExtensions: seq<string>, native: NativeLibrary)
    requires '.' !in path
    ensures h.ProcessFile(path, validExtensions, native) == native.processFile(h.libraryHandle, path)
  {
  }

  /**
   * `new Leopard(accessKey, libraryPath, modelPath)`: an Exception from System.load is wrapped
   * in a LeopardException; otherwise the native init decides.
   */
  function NewLeopard(accessKey: string, libraryPath: string, modelPath: string, native: NativeLibrary): (r: Thrown<Leopard>)
    ensures native.load(libraryPath).Some? ==>
      r == Threw(LeopardException(Base, native.load(libraryPath).value))
    ensures native.load(libraryPath).None? ==>
      match native.init(accessKey, modelPath)
      case Returned(h) => r == Returned(Leopard(h))
      case Threw(e) => r == Threw(e)
  {
    match native.load(libraryPath)
    case Some(failure) => Threw(LeopardException(Base, failure))
    case None =>
      match native.init(accessKey, modelPath)
      case Returned(h) => Returned(Leopard(h))
      case Threw(e) => Threw(e)
  }

  /**
   * What `build` consults besides the builder: `Utils.isEnvironmentSupported`,
   * `Utils.isResourcesAvailable`, the packaged LIBRARY_PATH and MODEL_PATH, and `File.exists`.
   */
  datatype Environment = Environment(
    supported: bool,
    resourcesAvailable: bool,
    packagedLibraryPath: string,
    packagedModelPath: string,
    fileExists: string -> bool)

  const UnsupportedEnvironmentMessage :=
    "Could not initialize Leopard. Execution environment not currently supported by Leopard Java."
  const NullAccessKeyMessage := "AccessKey must not be null"
  const DefaultLibraryUnavailableMessage :=
    "Default library unavailable. Please provide a native Leopard library path (-l <library_path>)."
  const DefaultModelUnavailableMessage :=
    "Default model unavailable. Please provide a valid Leopard model path (-m <model_path>)."

  function LibraryNotFoundMessage(libraryPath: string): string {
    "Couldn't find library file at '" + libraryPath + "'"
  }

  function ModelNotFoundMessage(modelPath: string): string {
    "Couldn't find model file at '" + modelPath + "'"
  }

  /** The builder's path fields after `build`, and what `build` returned or threw. */
  datatype BuildState = BuildState(libraryPath: Option<string>, modelPath: Option<string>, outcome: Thrown<Leopard>)

  /**
   * `Builder.build`: the environment, the AccessKey, the library path and the model path are
   * checked in that order and the first failure is thrown. A missing path is replaced by the
   * packaged default, which is stored in the builder and must exist; a path the caller set is
   * never checked.
   */
  function BuildSpec(accessKey: Option<string>, libraryPath: Option<string>, modelPath: Option<string>,
                     env: Environment, native: NativeLibrary): (s: BuildState)
    ensures !env.supported ==>
      s == BuildState(libraryPath, modelPath, Threw(LeopardException(RuntimeFailure, UnsupportedEnvironmentMessage)))
    ensures env.supported && accessKey.None? ==>
      s == BuildState(libraryPath, modelPath, Threw(LeopardException(InvalidArgument, NullAccessKeyMessage)))
    ensures env.supported && accessKey.Some? && libraryPath.None? && !env.resourcesAvailable ==>
      s == BuildState(None, modelPath, Threw(LeopardException(InvalidArgument, DefaultLibraryUnavailableMessage)))
    ensures (env.supported && accessKey.Some? && libraryPath.None? && env.resourcesAvailable &&
             !env.fileExists(env.packagedLibraryPath)) ==>
        s == BuildState(Some(env.packagedLibraryPath), modelPath,
          Threw(LeopardException(IOFailure, LibraryNotFoundMessage(env.packagedLibraryPath))))
    ensures libraryPath.Some? ==> s.libraryPath == libraryPath
    ensures modelPath.Some? ==> s.modelPath == modelPath
    ensures s.outcome.Returned? ==>
      env.supported && accessKey.Some? && s.libraryPath.Some? && s.modelPath.Some? &&
      (libraryPath.None? ==> s.libraryPath == Some(env.packagedLibraryPath) && env.fileExists(env.packagedLibraryPath)) &&
      (modelPath.None? ==> s.modelPath == Some(env.packagedModelPath) && env.fileExists(env.packagedModelPath)) &&
      s.outcome == NewLeopard(accessKey.value, s.libraryPath.value, s.modelPath.value, native)
    ensures (env.supported && accessKey.Some? &&
             (libraryPath.Some? || (env.resourcesAvailable && env.fileExists(env.packagedLibraryPath))) &&
             (modelPath.Some? || (env.resourcesAvailable && env.fileExists(env.packagedModelPath)))) ==>
      var lib := libraryPath.GetOr(env.packagedLibraryPath);
      var model := modelPath.GetOr(env.packagedModelPath);
      s == BuildState(Some(lib), Some(model), NewLeopard(accessKey.value, lib, model, native))
  {
    if !env.supported then
      BuildState(libraryPath, modelPath, Threw(LeopardException(RuntimeFailure, UnsupportedEnvironmentMessage)))
    else if accessKey.None? then
      BuildState(libraryPath, modelPath, Threw(LeopardException(InvalidArgument, NullAccessKeyMessage)))
    else if libraryPath.None? && !env.resourcesAvailable then
      BuildState(libraryPath, modelPath, Threw(LeopardException(InvalidArgument, DefaultLibraryUnavailableMessage)))
    else
      var lib := libraryPath.GetOr(env.packagedLibraryPath);
      if libraryPath.None? && !env.fileExists(lib) then
        BuildState(Some(lib), modelPath, Threw(LeopardException(IOFailure, LibraryNotFoundMessage(lib))))
      else if modelPath.None? && !env.resourcesAvailable then
        BuildState(Some(lib), modelPath, Threw(LeopardException(InvalidArgument, DefaultModelUnavailableMessage)))
      else
        var model := modelPath.GetOr(env.packagedModelPath);
        if modelPath.None? && !env.fileExists(model) then
          BuildState(Some(lib), Some(model), Threw(LeopardException(IOFailure, ModelNotFoundMessage(model))))
        else
          BuildState(Some(lib), Some(model), NewLeopard(accessKey.value, lib, model, native))
  }

  /**
   * `build` asks `File.exists` only about the packaged defaults it substitutes: two file
   * systems that agree on those give the same outcome, whatever the caller's paths are.
   */
  lemma BuildIgnoresExistenceOfCallerPaths(accessKey: Option<string>, libraryPath: Option<string>,
                                           modelPath: Option<string>, env: Environment,
                                           fileExists': string -> bool, native: NativeLibrary)
    requires libraryPath.None? ==> fileExists'(env.packagedLibraryPath) == env.fileExists(env.packagedLibraryPath)
    requires modelPath.None? ==> fileExists'(env.packagedModelPath) == env.fileExists(env.packagedModelPath)
    ensures BuildSpec(accessKey, libraryPath, modelPath, env, native) ==
            BuildSpec(accessKey, libraryPath, modelPath, env.(fileExists := fileExists'), native)
  {
  }

  /**
   * The model-path checks: with a valid environment, AccessKey and library path, a missing
   * model path fails with invalid-argument when resources are unavailable and with an I/O
   * error when the packaged model does not exist; the library default is already stored.
   */
  lemma BuildModelDefault(accessKey: string, libraryPath: Option<string>, env: Environment, native: NativeLibrary)
    requires env.supported
    requires libraryPath.Some? || (env.resourcesAvailable && env.fileExists(env.packagedLibraryPath))
    ensures var s := BuildSpec(Some(accessKey), libraryPath, None, env, native);
      var lib := libraryPath.GetOr(env.packagedLibraryPath);
      (!env.resourcesAvailable ==>
        s == BuildState(Some(lib), None, Threw(LeopardException(InvalidArgument, DefaultModelUnavailableMessage)))) &&
      (env.resourcesAvailable && !env.fileExists(env.packagedModelPath) ==>
        s == BuildState(Some(lib), Some(env.packagedModelPath),
          Threw(LeopardException(IOFailure, ModelNotFoundMessage(env.packagedModelPath)))))
  {
  }

  /** `Leopard.Builder`: three nullable fields, each set by its own setter. */
  class Builder {
    var accessKey: Option<string>
    var libraryPath: Option<string>
    var modelPath: Option<string>

    constructor()
      ensures accessKey == None && libraryPath == None && modelPath == None
    {
      accessKey, libraryPath, modelPath := None, None, None;
    }

    /** `setAccessKey`: stores the argument and returns the same builder. */
    method SetAccessKey(accessKey: Option<string>) returns (b: Builder)
      modifies this
      ensures b == this && this.accessKey == accessKey
      ensures libraryPath == old(libraryPath) && modelPath == old(modelPath)
    {
      this.accessKey := accessKey;
      return this;
    }

    /** `setLibraryPath`: stores the argument and returns the same builder. */
    method SetLibraryPath(libraryPath: Option<string>) returns (b: Builder)
      modifies this
      ensures b == this && this.libraryPath == libraryPath
      ensures accessKey == old(accessKey) && modelPath == old(modelPath)
    {
      this.libraryPath := libraryPath;
      return this;
    }

    /** `setModelPath`: stores the argument and returns the same builder. */
    method SetModelPath(modelPath: Option<string>) returns (b: Builder)
      modifies this
      ensures b == this && this.modelPath == modelPath
      ensures accessKey == old(accessKey) && libraryPath == old(libraryPath)
    {
      this.modelPath := modelPath;
      return this;
    }

    /** `build`: validates step by step, storing each default path it substitutes. */
    method Build(env: Environment, native: NativeLibrary) returns (r: Thrown<Leopard>)
      modifies this
      ensures accessKey == old(accessKey)
      ensures BuildState(libraryPath, modelPath, r) ==
              BuildSpec(old(accessKey), old(libraryPath), old(modelPath), env, native)
    {
      if !env.supported {
        return Threw(LeopardException(RuntimeFailure, UnsupportedEnvironmentMessage));
      }
      if accessKey.None? {
        return Threw(LeopardException(InvalidArgument, NullAccessKeyMessage));
      }
      if libraryPath.None? {
        if env.resourcesAvailable {
          libraryPath := Some(env.packagedLibraryPath);
        } else {
          return Threw(LeopardException(InvalidArgument, DefaultLibraryUnavailableMessage));
        }
        if !env.fileExists(libraryPath.value) {
          return Threw(LeopardException(IOFailure, LibraryNotFoundMessage(libraryPath.value)));
        }
      }
      if modelPath.None? {
        if env.resourcesAvailable {
          modelPath := Some(env.packagedModelPath);
        } else {
          return Threw(LeopardException(InvalidArgument, DefaultModelUnavailableMessage));
        }
        if !env.fileExists(modelPath.value) {
          return Threw(LeopardException(IOFailure, ModelNotFoundMessage(modelPath.value)));
        }
      }
      r := NewLeopard(accessKey.value, libraryPath.value, modelPath.value, native);
    }
  }
}
