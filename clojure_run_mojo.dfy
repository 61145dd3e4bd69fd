/**
 * The `clojure:run` goal of the Clojure Maven plugin (ClojureRunMojo):
 * it checks that exactly one of `script` and `mainClass` is configured,
 * turns one or several script paths into a single script to hand to
 * clojure.main (writing a loader file of `(load-file "...")` lines when
 * there are several), splits `args` on single spaces, and hands an entry
 * point name with an argument list to the plugin's runner.
 *
 * The spec functions (MergedScript, Execution) say what the two Java
 * methods compute; the methods MergeScripts and Execute follow the Java
 * code step by step and are proved equal to them.
 */
module ClojureRunMojo {
  import opened Wrappers
  import opened JavaStrings

  /** The exceptions that reach or leave `execute`. */
  datatype Exception =
    | MojoExecutionException(message: string, cause: Option<Exception>)
    | IOException(message: string)
    | OtherException(className: string, message: string)

  /** A value, or the exception a Java method throws instead. */
  datatype Result<T> = Ok(value: T) | Thrown(error: Exception)

  /** The mojo's parameters as Maven injects them; None is Java null. */
  datatype Config = Config(
    script: Option<string>,
    scripts: Option<seq<Option<string>>>,
    mainClass: Option<string>,
    args: Option<string>)

  /** What File.createTempFile and the FileWriter do: give a path, or fail with an IOException. */
  datatype TempFile = Created(path: string) | WriteFailed(ioMessage: string)

  /**
   * The parts of the JVM and the file system the mojo consults.
   * `fileExists` is `File.exists()`, which also holds for directories.
   */
  datatype Environment = Environment(
    fileExists: string -> bool,
    lineSeparator: string,
    tempFile: TempFile)

  /**
   * The result of mergeScripts: the single script, passed on as written,
   * or a freshly written temporary loader file with its contents.
   */
  datatype Merged = Unchanged(path: string) | Generated(path: string, loader: string)

  /** The entry point and arguments handed to callClojureWith. */
  datatype Call = Call(entryName: string, arguments: seq<string>)

  /**
   * How `execute` ends: it throws before reaching the runner, or it reaches
   * the call `callClojureWith(..., call)` and then returns normally (None)
   * or throws. An exception in Invoked covers both what the runner throws
   * and what evaluating the call's other arguments throws
   * (getSourceDirectories, getRunWithClasspathElements), in which case the
   * runner is never actually entered.
   */
  datatype Outcome =
    | Rejected(error: Exception)
    | Invoked(call: Call, thrown: Option<Exception>)

  const NotBothMessage := "Specify either 'script' or 'mainClass - not both."
  const NeitherMessage := "Specify either 'script' or 'mainClass'."
  const UndefinedScriptMessage := "<script> is undefined"
  const EmptyScriptsMessage := "<scripts> is defined but has no <script> entries"
  const EmptyEntryMessage := "<script> entry cannot be empty"
  const NotFoundSuffix := " cannot be found"
  const ClojureMain := "clojure.main"
  const LoadPrefix := "(load-file \""
  const LoadSuffix := "\")"

  /** `new MojoExecutionException(message)`. */
  function Mojo(message: string): Exception
  {
    MojoExecutionException(message, None)
  }

  /**
   * The catch clauses of execute: a MojoExecutionException is rethrown as
   * it is, any other java.lang.Exception is wrapped, keeping its message,
   * with itself as the cause.
   */
  function Wrap(e: Exception): (r: Exception)
    ensures r.MojoExecutionException? && r.message == e.message
    ensures e.MojoExecutionException? ==> r == e
    ensures !e.MojoExecutionException? ==> r.cause == Some(e)
  {
    if e.MojoExecutionException? then e else MojoExecutionException(e.message, Some(e))
  }

  // ---------------------------------------------------------------------
  // mergeScripts
  // ---------------------------------------------------------------------

  /** The check applied to one entry of the path list, or None when it passes. */
  function EntryError(entry: Option<string>, fileExists: string -> bool): (r: Option<Exception>)
    ensures r.None? <==> entry.Some? && !IsBlank(entry.value) && fileExists(entry.value)
    ensures r.Some? ==> r.value.MojoExecutionException? && r.value.cause.None?
  {
    if entry.None? || IsBlank(entry.value) then Some(Mojo(EmptyEntryMessage))
    else if !fileExists(entry.value) then Some(Mojo(entry.value + NotFoundSuffix))
    else None
  }

  /**
   * The validation loop over the path list: the first failing entry's
   * exception, or every path when all pass.
   */
  function ValidatePaths(paths: seq<Option<string>>, fileExists: string -> bool): (r: Result<seq<string>>)
    ensures r.Ok? ==> |r.value| == |paths| && forall i :: 0 <= i < |paths| ==> paths[i] == Some(r.value[i])
    ensures r.Thrown? ==> r.error.MojoExecutionException?
  {
    if paths == [] then Ok([])
    else match EntryError(paths[0], fileExists)
      case Some(e) => Thrown(e)
      case None =>
        match ValidatePaths(paths[1..], fileExists)
        case Thrown(e) => Thrown(e)
        case Ok(rest) => Ok([paths[0].value] + rest)
  }

  /** The line written to the loader for one path; the path is not escaped. */
  function LoadLine(path: string, lineSeparator: string): (r: string)
    ensures |r| == |LoadPrefix| + |path| + |LoadSuffix| + |lineSeparator|
    ensures r[..|LoadPrefix|] == LoadPrefix
    ensures r[|LoadPrefix|..|LoadPrefix| + |path|] == path
    ensures r[|LoadPrefix| + |path|..] == LoadSuffix + lineSeparator
  {
    LoadPrefix + path + LoadSuffix + lineSeparator
  }

  /** The whole loader file: one line per path, in order. */
  function LoaderText(paths: seq<string>, lineSeparator: string): (r: string)
    ensures r == "" <==> paths == []
    ensures paths != [] ==> LoadPrefix <= r
  {
    if paths == [] then "" else LoadLine(paths[0], lineSeparator) + LoaderText(paths[1..], lineSeparator)
  }

  /** The path list of a configuration with no null entries. */
  function Present(files: seq<string>): seq<Option<string>>
  {
    if files == [] then [] else [Some(files[0])] + Present(files[1..])
  }

  /** A list whose every entry is a non-blank existing path passes, and yields those paths. */
  lemma {:induction false} ValidatePathsAllGood(files: seq<string>, fileExists: string -> bool)
    requires forall j :: 0 <= j < |files| ==> !IsBlank(files[j]) && fileExists(files[j])
    ensures ValidatePaths(Present(files), fileExists) == Ok(files)
  {
    if files != [] {
      ValidatePathsAllGood(files[1..], fileExists);
      assert files == [files[0]] + files[1..];
    }
  }

  /** The loader text of two lists one after the other is the concatenation of theirs. */
  lemma {:induction false} LoaderTextAppend(a: seq<string>, b: seq<string>, lineSeparator: string)
    ensures LoaderText(a + b, lineSeparator) == LoaderText(a, lineSeparator) + LoaderText(b, lineSeparator)
  {
    if a != [] {
      assert (a + b)[1..] == a[1..] + b;
      LoaderTextAppend(a[1..], b, lineSeparator);
    } else {
      assert a + b == b;
    }
  }

  /** Writing one more path appends exactly its line. */
  lemma LoaderTextSnoc(paths: seq<string>, path: string, lineSeparator: string)
    ensures LoaderText(paths + [path], lineSeparator) == LoaderText(paths, lineSeparator) + LoadLine(path, lineSeparator)
  {
    LoaderTextAppend(paths, [path], lineSeparator);
    assert LoaderText([path], lineSeparator) == LoadLine(path, lineSeparator) + LoaderText([], lineSeparator);
  }

  /** What mergeScripts returns or throws. */
  function MergedScript(script: Option<string>, scripts: Option<seq<Option<string>>>, env: Environment): (r: Result<Merged>)
    ensures r.Thrown? ==> r.error.MojoExecutionException?
  {
    if script.None? || IsBlank(script.value) then Thrown(Mojo(UndefinedScriptMessage))
    else if scripts.None? then Ok(Unchanged(script.value))
    else if |scripts.value| == 0 then Thrown(Mojo(EmptyScriptsMessage))
    else match ValidatePaths([script] + scripts.value, env.fileExists)
      case Thrown(e) => Thrown(e)
      case Ok(files) =>
        match env.tempFile
        case WriteFailed(msg) => Thrown(MojoExecutionException(msg, Some(IOException(msg))))
        case Created(path) => Ok(Generated(path, LoaderText(files, env.lineSeparator)))
  }

  /** The first entry that fails its check decides the exception of the validation loop. */
  lemma {:induction false} ValidatePathsFirstError(paths: seq<Option<string>>, fileExists: string -> bool, i: nat)
    requires i < |paths|
    requires forall j :: 0 <= j < i ==> EntryError(paths[j], fileExists).None?
    requires EntryError(paths[i], fileExists).Some?
    ensures ValidatePaths(paths, fileExists) == Thrown(EntryError(paths[i], fileExists).value)
  {
    if i > 0 {
      ValidatePathsFirstError(paths[1..], fileExists, i - 1);
    }
  }

  /** The validation loop passes exactly when every entry passes its check. */
  lemma {:induction false} ValidatePathsOkIff(paths: seq<Option<string>>, fileExists: string -> bool)
    ensures ValidatePaths(paths, fileExists).Ok? <==> forall j :: 0 <= j < |paths| ==> EntryError(paths[j], fileExists).None?
  {
    if paths != [] {
      ValidatePathsOkIff(paths[1..], fileExists);
      if ValidatePaths(paths, fileExists).Ok? {
        forall j | 0 <= j < |paths| ensures EntryError(paths[j], fileExists).None? {
          if j > 0 {
            assert paths[j] == paths[1..][j - 1];
          }
        }
      }
      if forall j :: 0 <= j < |paths| ==> EntryError(paths[j], fileExists).None? {
        assert EntryError(paths[0], fileExists).None?;
        assert forall j :: 0 <= j < |paths| - 1 ==> paths[1..][j] == paths[j + 1];
      }
    }
  }

  /**
   * The first loop of mergeScripts: each entry, left to right, must be
   * non-null and non-blank and must name an existing file; the first that
   * is not ends the loop with its exception.
   */
  method CheckPaths(paths: seq<Option<string>>, fileExists: string -> bool) returns (failure: Option<Exception>)
    ensures failure.None? <==> ValidatePaths(paths, fileExists).Ok?
    ensures failure.Some? ==> ValidatePaths(paths, fileExists) == Thrown(failure.value)
  {
    var i := 0;
    while i < |paths|
      invariant 0 <= i <= |paths|
      invariant forall j :: 0 <= j < i ==> EntryError(paths[j], fileExists).None?
    {
      var scriptFile := paths[i];
      if scriptFile.None? || IsBlank(scriptFile.value) {
        ValidatePathsFirstError(paths, fileExists, i);
        return Some(Mojo(EmptyEntryMessage));
      }
      if !fileExists(scriptFile.value) {
        ValidatePathsFirstError(paths, fileExists, i);
        return Some(Mojo(scriptFile.value + NotFoundSuffix));
      }
      i := i + 1;
    }
    ValidatePathsOkIff(paths, fileExists);
    return None;
  }

  /**
   * The second loop of mergeScripts: one `(load-file "<path>")` write and
   * one line-separator write per path, in order, into the loader file.
   */
  method WriteLoader(paths: seq<Option<string>>, ghost files: seq<string>, lineSeparator: string)
    returns (text: string)
    requires |files| == |paths| && forall i :: 0 <= i < |paths| ==> paths[i] == Some(files[i])
    ensures text == LoaderText(files, lineSeparator)
  {
    text := "";
    var i := 0;
    while i < |paths|
      invariant 0 <= i <= |paths|
      invariant text == LoaderText(files[..i], lineSeparator)
    {
      ghost var written := text;
      text := text + LoadPrefix + paths[i].value + LoadSuffix;
      text := text + lineSeparator;
      assert text == written + LoadLine(files[i], lineSeparator);
      LoaderTextSnoc(files[..i], files[i], lineSeparator);
      assert files[..i + 1] == files[..i] + [files[i]];
      i := i + 1;
    }
    assert files[..|paths|] == files;
  }

  /** mergeScripts, step by step: the checks, the path list, then the two loops. */
  method MergeScripts(script: Option<string>, scripts: Option<seq<Option<string>>>, env: Environment)
    returns (r: Result<Merged>)
    ensures r == MergedScript(script, scripts, env)
  {
    if script.None? || IsBlank(script.value) {
      return Thrown(Mojo(UndefinedScriptMessage));
    }
    if scripts.None? {
      return Ok(Unchanged(script.value));
    } else if |scripts.value| == 0 {
      return Thrown(Mojo(EmptyScriptsMessage));
    }

    var paths := [script];
    paths := paths + scripts.value;
    var failure := CheckPaths(paths, env.fileExists);
    if failure.Some? {
      return Thrown(failure.value);
    }

    match env.tempFile {
      case WriteFailed(msg) =>
        return Thrown(MojoExecutionException(msg, Some(IOException(msg))));
      case Created(tempPath) =>
        var text := WriteLoader(paths, ValidatePaths(paths, env.fileExists).value, env.lineSeparator);
        return Ok(Generated(tempPath, text));
    }
  }

  // ---------------------------------------------------------------------
  // execute
  // ---------------------------------------------------------------------

  /** `args.split(" ")`, or no arguments when args is null. */
  function ArgumentList(args: Option<string>): (r: seq<string>)
    ensures args.None? ==> r == []
    ensures forall i :: 0 <= i < |r| ==> Space !in r[i]
  {
    if args.None? then []
    else
      SplitPiecesHaveNoSpace(args.value);
      Split(args.value)
  }

  /** The body of the try block: the call to make, or the exception mergeScripts throws. */
  function Dispatch(cfg: Config, env: Environment): (r: Result<Call>)
    requires cfg.script.Some? || cfg.mainClass.Some?
    ensures r.Ok? ==> r.value.entryName == if cfg.script.Some? then ClojureMain else cfg.mainClass.value
    ensures r.Thrown? ==> cfg.script.Some? && r.error.MojoExecutionException?
  {
    if cfg.script.Some? then
      match MergedScript(cfg.script, cfg.scripts, env)
      case Thrown(e) => Thrown(e)
      case Ok(m) => Ok(Call(ClojureMain, [m.path] + ArgumentList(cfg.args)))
    else
      Ok(Call(cfg.mainClass.value, ArgumentList(cfg.args)))
  }

  /**
   * What execute does, given what callClojureWith throws if it is called
   * (None: it returns normally).
   */
  function Execution(cfg: Config, env: Environment, runnerThrows: Option<Exception>): (r: Outcome)
    ensures (cfg.script.Some? <==> cfg.mainClass.Some?) ==> r.Rejected? && r.error.MojoExecutionException? && r.error.cause.None?
    ensures r.Invoked? ==> r.call.entryName == if cfg.script.Some? then ClojureMain else cfg.mainClass.value
    ensures r.Invoked? ==> (r.thrown.None? <==> runnerThrows.None?)
  {
    if cfg.script.Some? && cfg.mainClass.Some? then Rejected(Mojo(NotBothMessage))
    else if cfg.script.None? && cfg.mainClass.None? then Rejected(Mojo(NeitherMessage))
    else match Dispatch(cfg, env)
      case Thrown(e) => Rejected(Wrap(e))
      case Ok(call) =>
        Invoked(call, if runnerThrows.None? then None else Some(Wrap(runnerThrows.value)))
  }

  /** execute, step by step: the mode checks, then the try block and its catch clauses. */
  method Execute(cfg: Config, env: Environment, runnerThrows: Option<Exception>) returns (r: Outcome)
    ensures r == Execution(cfg, env, runnerThrows)
  {
    if cfg.script.Some? && cfg.mainClass.Some? {
      return Rejected(Mojo(NotBothMessage));
    }
    if cfg.script.None? && cfg.mainClass.None? {
      return Rejected(Mojo(NeitherMessage));
    }

    var call: Call;
    if cfg.script.Some? {
      var merged := MergeScripts(cfg.script, cfg.scripts, env);
      if merged.Thrown? {
        return Rejected(Wrap(merged.error));
      }
      var clojureArguments := [merged.value.path];
      if cfg.args.Some? {
        clojureArguments := clojureArguments + Split(cfg.args.value);
      }
      call := Call(ClojureMain, clojureArguments);
    } else {
      call := Call(cfg.mainClass.value, if cfg.args.None? then [] else Split(cfg.args.value));
    }

    match runnerThrows {
      case None => r := Invoked(call, None);
      case Some(e) => r := Invoked(call, Some(Wrap(e)));
    }
  }
}
