/**
 * What the run goal promises, stated over the spec functions of
 * ClojureRunMojo: the mode checks, the order of mergeScripts' checks,
 * the loader file's line structure, the argument list of each mode, and
 * the handling of exceptions thrown by the runner.
 */
module ClojureRunProperties {
  import opened Wrappers
  import opened JavaStrings
  import opened ClojureRunMojo

  // ---------------------------------------------------------------------
  // Mode selection in execute
  // ---------------------------------------------------------------------

  /** Both script and mainClass set: the "not both" error, whatever else is configured. */
  lemma BothModesRejected(cfg: Config, env: Environment, runnerThrows: Option<Exception>)
    requires cfg.script.Some? && cfg.mainClass.Some?
    ensures Execution(cfg, env, runnerThrows) == Rejected(MojoExecutionException(NotBothMessage, None))
  {
  }

  /** Neither script nor mainClass set: the "Specify either" error. */
  lemma NoModeRejected(cfg: Config, env: Environment, runnerThrows: Option<Exception>)
    requires cfg.script.None? && cfg.mainClass.None?
    ensures Execution(cfg, env, runnerThrows) == Rejected(MojoExecutionException(NeitherMessage, None))
  {
  }

  // ---------------------------------------------------------------------
  // mergeScripts: the order of its checks
  // ---------------------------------------------------------------------

  /**
   * A null script, or one that trims to the empty string, is rejected as
   * undefined before `scripts` is looked at.
   */
  lemma BlankScriptRejected(script: Option<string>, scripts: Option<seq<Option<string>>>, env: Environment)
    requires script.None? || Trim(script.value) == ""
    ensures MergedScript(script, scripts, env) == Thrown(MojoExecutionException(UndefinedScriptMessage, None))
  {
    if script.Some? {
      BlankIffTrimEmpty(script.value);
    }
  }

  /**
   * With `scripts` null the script is returned exactly as given, whatever
   * the file system holds and whether or not a temporary file could be
   * written: nothing is checked and nothing is written.
   */
  lemma SingleScriptPassedThrough(script: string, env: Environment)
    requires !IsBlank(script)
    ensures MergedScript(Some(script), None, env) == Ok(Unchanged(script))
  {
  }

  /** A declared but empty `scripts` list is rejected. */
  lemma EmptyScriptsRejected(script: string, env: Environment)
    requires !IsBlank(script)
    ensures MergedScript(Some(script), Some([]), env) == Thrown(MojoExecutionException(EmptyScriptsMessage, None))
  {
  }

  /**
   * The path list is [script] ++ scripts, checked left to right: the first
   * entry that fails decides the error, and for that entry the null/blank
   * check comes before the existence check.
   */
  lemma MergeFailsAtFirstBadEntry(script: string, scripts: seq<Option<string>>, env: Environment, i: nat)
    requires !IsBlank(script) && |scripts| > 0
    requires i <= |scripts|
    requires forall j :: 0 <= j < i ==> EntryError(([Some(script)] + scripts)[j], env.fileExists).None?
    requires EntryError(([Some(script)] + scripts)[i], env.fileExists).Some?
    ensures var entry := ([Some(script)] + scripts)[i];
      MergedScript(Some(script), Some(scripts), env) ==
        if entry.None? || IsBlank(entry.value) then Thrown(MojoExecutionException(EmptyEntryMessage, None))
        else Thrown(MojoExecutionException(entry.value + NotFoundSuffix, None))
  {
    var paths := [Some(script)] + scripts;
    ValidatePathsFirstError(paths, env.fileExists, i);
  }

  /**
   * A loader file is produced exactly when the script is defined, `scripts`
   * is a non-empty list, every entry of [script] ++ scripts passes, and the
   * temporary file can be written.
   */
  lemma GeneratedIff(script: Option<string>, scripts: Option<seq<Option<string>>>, env: Environment)
    ensures (MergedScript(script, scripts, env).Ok? && MergedScript(script, scripts, env).value.Generated?)
      <==> (&& script.Some? && !IsBlank(script.value)
            && scripts.Some? && |scripts.value| > 0
            && (forall j :: 0 <= j < |scripts.value| + 1 ==> EntryError(([script] + scripts.value)[j], env.fileExists).None?)
            && env.tempFile.Created?)
  {
    if script.Some? && !IsBlank(script.value) && scripts.Some? && |scripts.value| > 0 {
      ValidatePathsOkIff([script] + scripts.value, env.fileExists);
    }
  }

  /** The path list [script] ++ scripts passes when each of its entries does. */
  lemma ValidatePathsScriptThenFiles(script: string, files: seq<string>, fileExists: string -> bool)
    requires !IsBlank(script) && fileExists(script)
    requires forall j :: 0 <= j < |files| ==> !IsBlank(files[j]) && fileExists(files[j])
    ensures ValidatePaths([Some(script)] + Present(files), fileExists) == Ok([script] + files)
  {
    ValidatePathsAllGood(files, fileExists);
    var paths := [Some(script)] + Present(files);
    assert paths[1..] == Present(files);
  }

  /** Once the path list has passed, the merge writes its loader text to the temporary file. */
  lemma MergedScriptOfValidPaths(script: string, scripts: seq<Option<string>>, files: seq<string>, env: Environment)
    requires !IsBlank(script) && |scripts| > 0
    requires ValidatePaths([Some(script)] + scripts, env.fileExists) == Ok(files)
    requires env.tempFile.Created?
    ensures MergedScript(Some(script), Some(scripts), env)
      == Ok(Generated(env.tempFile.path, LoaderText(files, env.lineSeparator)))
  {
  }

  /**
   * When every entry passes, the result is the temporary file, holding the
   * loader text of [script] ++ scripts in that order.
   */
  lemma GeneratedLoaderListsAllPaths(script: string, files: seq<string>, env: Environment)
    requires |files| > 0
    requires !IsBlank(script) && env.fileExists(script)
    requires forall j :: 0 <= j < |files| ==> !IsBlank(files[j]) && env.fileExists(files[j])
    requires env.tempFile.Created?
    ensures MergedScript(Some(script), Some(Present(files)), env)
      == Ok(Generated(env.tempFile.path, LoaderText([script] + files, env.lineSeparator)))
  {
    ValidatePathsScriptThenFiles(script, files, env.fileExists);
    MergedScriptOfValidPaths(script, Present(files), [script] + files, env);
  }

  /**
   * When every entry passes but the temporary file cannot be created or
   * written, the IOException's message becomes that of a
   * MojoExecutionException whose cause is the IOException.
   */
  lemma IOFailureWrapped(script: string, scripts: seq<Option<string>>, env: Environment)
    requires !IsBlank(script) && |scripts| > 0
    requires forall j :: 0 <= j < |scripts| + 1 ==> EntryError(([Some(script)] + scripts)[j], env.fileExists).None?
    requires env.tempFile.WriteFailed?
    ensures MergedScript(Some(script), Some(scripts), env)
      == Thrown(MojoExecutionException(env.tempFile.ioMessage, Some(IOException(env.tempFile.ioMessage))))
  {
    ValidatePathsOkIff([Some(script)] + scripts, env.fileExists);
  }

  /**
   * The path checks come before the temporary file: when some entry fails,
   * the error is the same whatever the temporary file and line separator.
   */
  lemma ValidationPrecedesWriting(script: string, scripts: seq<Option<string>>, env: Environment, tempFile: TempFile, lineSeparator: string)
    requires !IsBlank(script) && |scripts| > 0
    requires exists j :: 0 <= j < |scripts| + 1 && EntryError(([Some(script)] + scripts)[j], env.fileExists).Some?
    ensures MergedScript(Some(script), Some(scripts), env).Thrown?
    ensures MergedScript(Some(script), Some(scripts), env)
      == MergedScript(Some(script), Some(scripts), env.(tempFile := tempFile, lineSeparator := lineSeparator))
  {
    ValidatePathsOkIff([Some(script)] + scripts, env.fileExists);
  }

  /**
   * Running the merge twice on the same input, with two different
   * temporary files, writes the same loader text into each.
   */
  lemma LoaderIndependentOfTempPath(script: Option<string>, scripts: seq<Option<string>>, env: Environment, path1: string, path2: string)
    ensures var r1 := MergedScript(script, Some(scripts), env.(tempFile := Created(path1)));
      var r2 := MergedScript(script, Some(scripts), env.(tempFile := Created(path2)));
      && (r1.Ok? <==> r2.Ok?)
      && (r1.Ok? ==> r1.value.Generated? && r2.value.Generated?
                     && r1.value.path == path1 && r2.value.path == path2
                     && r1.value.loader == r2.value.loader)
  {
  }

  // ---------------------------------------------------------------------
  // The loader file
  // ---------------------------------------------------------------------

  /** The position of the first double quote in s, or |s| when there is none. */
  function IndexOfQuote(s: string): (k: nat)
    ensures k <= |s|
    ensures k < |s| ==> s[k] == '"'
    ensures forall j :: 0 <= j < k ==> s[j] != '"'
  {
    if s == [] || s[0] == '"' then 0 else 1 + IndexOfQuote(s[1..])
  }

  /**
   * Reads one `(load-file "<path>")` line followed by the line separator
   * off the front of text, where the path ends at its first double quote:
   * the path and what follows the line.
   */
  function ReadLine(text: string, lineSeparator: string): (r: Option<(string, string)>)
    ensures r.Some? ==> |r.value.1| < |text|
  {
    if !(LoadPrefix <= text) then None
    else
      var body := text[|LoadPrefix|..];
      var k := IndexOfQuote(body);
      var close := LoadSuffix + lineSeparator;
      if !(close <= body[k..]) then None
      else Some((body[..k], body[k + |close|..]))
  }

  /** Reads a loader file back, line by line, into its path list. */
  function ParseLoader(text: string, lineSeparator: string): Option<seq<string>>
    decreases |text|
  {
    if text == [] then Some([])
    else match ReadLine(text, lineSeparator)
      case None => None
      case Some((path, tail)) =>
        match ParseLoader(tail, lineSeparator)
        case None => None
        case Some(rest) => Some([path] + rest)
  }

  /** In a quote-free path followed by a quote, the first quote is the one after the path. */
  lemma {:induction false} IndexOfQuoteAfterPath(p: string, rest: string)
    requires '"' !in p
    requires rest != [] && rest[0] == '"'
    ensures IndexOfQuote(p + rest) == |p|
  {
    if p != [] {
      assert (p + rest)[1..] == p[1..] + rest;
      IndexOfQuoteAfterPath(p[1..], rest);
    }
  }

  /** The line written for a quote-free path reads back as that path, leaving what follows. */
  lemma ReadLineOfLoadLine(p: string, tail: string, lineSeparator: string)
    requires '"' !in p
    ensures ReadLine(LoadLine(p, lineSeparator) + tail, lineSeparator) == Some((p, tail))
  {
    var close := LoadSuffix + lineSeparator;
    var text := LoadLine(p, lineSeparator) + tail;
    var body := p + (close + tail);
    assert text == LoadPrefix + body;
    assert text[|LoadPrefix|..] == body;
    IndexOfQuoteAfterPath(p, close + tail);
    assert body[..|p|] == p;
    assert body[|p|..] == close + tail;
    assert body[|p| + |close|..] == tail;
  }

  /** Reading one line of a quote-free path, then whatever follows. */
  lemma ParseLoaderLine(p: string, tail: string, lineSeparator: string)
    requires '"' !in p
    ensures ParseLoader(LoadLine(p, lineSeparator) + tail, lineSeparator)
      == if ParseLoader(tail, lineSeparator).None? then None
         else Some([p] + ParseLoader(tail, lineSeparator).value)
  {
    ReadLineOfLoadLine(p, tail, lineSeparator);
    assert LoadLine(p, lineSeparator) + tail != [];
  }

  /**
   * The loader holds one line per path, in order: reading it back gives
   * the path list, provided no path contains a double quote (paths are
   * written without escaping).
   */
  lemma {:induction false} LoaderRoundTrip(paths: seq<string>, lineSeparator: string)
    requires forall i :: 0 <= i < |paths| ==> '"' !in paths[i]
    ensures ParseLoader(LoaderText(paths, lineSeparator), lineSeparator) == Some(paths)
  {
    if paths != [] {
      LoaderRoundTrip(paths[1..], lineSeparator);
      ParseLoaderLine(paths[0], LoaderText(paths[1..], lineSeparator), lineSeparator);
      assert paths == [paths[0]] + paths[1..];
    }
  }

  /** Two quote-free path lists with the same loader text are the same list. */
  lemma LoaderTextInjective(a: seq<string>, b: seq<string>, lineSeparator: string)
    requires forall i :: 0 <= i < |a| ==> '"' !in a[i]
    requires forall i :: 0 <= i < |b| ==> '"' !in b[i]
    requires LoaderText(a, lineSeparator) == LoaderText(b, lineSeparator)
    ensures a == b
  {
    LoaderRoundTrip(a, lineSeparator);
    LoaderRoundTrip(b, lineSeparator);
  }

  /**
   * Because paths are not escaped, one path that embeds the end of a line
   * and the start of the next produces the same loader as two paths.
   */
  lemma UnescapedPathForgesSecondLine(x: string, y: string, lineSeparator: string)
    ensures LoaderText([x + LoadSuffix + lineSeparator + LoadPrefix + y], lineSeparator)
         == LoaderText([x, y], lineSeparator)
  {
    var forged := x + LoadSuffix + lineSeparator + LoadPrefix + y;
    assert LoaderText([forged], lineSeparator) == LoadLine(forged, lineSeparator) + LoaderText([], lineSeparator);
    assert LoaderText([y], lineSeparator) == LoadLine(y, lineSeparator) + LoaderText([], lineSeparator);
    assert [x, y][1..] == [y];
    assert LoaderText([x, y], lineSeparator) == LoadLine(x, lineSeparator) + LoaderText([y], lineSeparator);
  }

  // ---------------------------------------------------------------------
  // The call made by execute
  // ---------------------------------------------------------------------

  /**
   * Script mode: clojure.main is run with the merged path followed by the
   * words of args (nothing more when args is null).
   */
  lemma ScriptModeCall(cfg: Config, env: Environment, runnerThrows: Option<Exception>)
    requires cfg.script.Some? && cfg.mainClass.None?
    requires MergedScript(cfg.script, cfg.scripts, env).Ok?
    ensures Execution(cfg, env, runnerThrows).Invoked?
    ensures Execution(cfg, env, runnerThrows).call.entryName == "clojure.main"
    ensures Execution(cfg, env, runnerThrows).call.arguments
      == [MergedScript(cfg.script, cfg.scripts, env).value.path]
         + (if cfg.args.None? then [] else Split(cfg.args.value))
  {
  }

  /** Script mode: an exception from mergeScripts leaves execute unchanged, before any call. */
  lemma ScriptModeMergeFailure(cfg: Config, env: Environment, runnerThrows: Option<Exception>)
    requires cfg.script.Some? && cfg.mainClass.None?
    requires MergedScript(cfg.script, cfg.scripts, env).Thrown?
    ensures Execution(cfg, env, runnerThrows) == Rejected(MergedScript(cfg.script, cfg.scripts, env).error)
  {
  }

  /**
   * Main-class mode: mainClass is run with the words of args, or with no
   * arguments when args is null; scripts is ignored.
   */
  lemma MainClassModeCall(cfg: Config, env: Environment, runnerThrows: Option<Exception>)
    requires cfg.script.None? && cfg.mainClass.Some?
    ensures Execution(cfg, env, runnerThrows).Invoked?
    ensures Execution(cfg, env, runnerThrows).call.entryName == cfg.mainClass.value
    ensures Execution(cfg, env, runnerThrows).call.arguments
      == if cfg.args.None? then [] else Split(cfg.args.value)
  {
  }

  /**
   * An exception from the runner does not change the call that was made;
   * it leaves execute as a MojoExecutionException with the same message,
   * the very same one if it already was one, otherwise one whose cause is
   * the original.
   */
  lemma RunnerExceptionWrappedOnce(cfg: Config, env: Environment, e: Exception)
    requires Execution(cfg, env, None).Invoked?
    ensures Execution(cfg, env, Some(e)).Invoked?
    ensures Execution(cfg, env, Some(e)).call == Execution(cfg, env, None).call
    ensures Execution(cfg, env, None).thrown == None
    ensures var t := Execution(cfg, env, Some(e)).thrown;
      && t.Some? && t.value.MojoExecutionException? && t.value.message == e.message
      && (e.MojoExecutionException? ==> t.value == e)
      && (!e.MojoExecutionException? ==> t.value.cause == Some(e))
  {
  }

  /** Every way execute can fail is a MojoExecutionException. */
  lemma EveryFailureIsMojoExecutionException(cfg: Config, env: Environment, runnerThrows: Option<Exception>)
    ensures Execution(cfg, env, runnerThrows).Rejected? ==> Execution(cfg, env, runnerThrows).error.MojoExecutionException?
    ensures Execution(cfg, env, runnerThrows).Invoked? && Execution(cfg, env, runnerThrows).thrown.Some?
      ==> Execution(cfg, env, runnerThrows).thrown.value.MojoExecutionException?
  {
  }

  /** Wrapping is idempotent: a wrapped exception is never wrapped again. */
  lemma WrapIdempotent(e: Exception)
    ensures Wrap(Wrap(e)) == Wrap(e)
  {
  }

  // ---------------------------------------------------------------------
  // Worked examples
  // ---------------------------------------------------------------------

  /** "foo bar baz" becomes three arguments in order. */
  lemma SplitThreeWords()
    ensures Split("foo bar baz") == ["foo", "bar", "baz"]
  {
    assert Join(["foo", "bar", "baz"]) == "foo bar baz";
    SplitJoin(["foo", "bar", "baz"]);
  }

  /** With no space in it, the empty string splits into one empty argument. */
  lemma SplitEmpty()
    ensures Split("") == [""]
  {
  }

  /** A lone space splits into no arguments at all: both of its fields are trailing empties. */
  lemma SplitLoneSpace()
    ensures Split(" ") == []
  {
    assert Fields(" ") == [[], []] by {
      assert " "[1..] == [];
    }
  }

  /** A leading space gives a leading empty argument, which is kept. */
  lemma SplitLeadingSpace()
    ensures Split(" a") == ["", "a"]
  {
    assert Join(["", "a"]) == " a";
    SplitJoin(["", "a"]);
  }

  /** The fields of "a  b ": an empty one between the two spaces and one after the last. */
  lemma FieldsOfInteriorAndTrailingSpace()
    ensures Fields("a  b ") == ["a", "", "b", ""]
  {
    var f := ["a", "", "b", ""];
    assert Join(f) == "a  b ";
    FieldsJoin(f);
  }

  /** A double space gives an interior empty argument; the trailing one is dropped. */
  lemma SplitInteriorAndTrailingSpace()
    ensures Split("a  b ") == ["a", "", "b"]
  {
    FieldsOfInteriorAndTrailingSpace();
    var f := ["a", "", "b", ""];
    assert "a  b "[1] == Space;
    assert DropTrailingEmpty(f) == DropTrailingEmpty(f[..3]);
    assert f[..3] == ["a", "", "b"];
  }

  /** Two existing scripts give a loader with one line for each, a.clj first. */
  lemma TwoScriptsExample(env: Environment)
    requires env.fileExists("a.clj") && env.fileExists("b.clj")
    requires env.tempFile.Created?
    ensures MergedScript(Some("a.clj"), Some([Some("b.clj")]), env)
      == Ok(Generated(env.tempFile.path, LoadLine("a.clj", env.lineSeparator) + LoadLine("b.clj", env.lineSeparator)))
  {
    assert "a.clj"[0] == 'a' && "b.clj"[0] == 'b';
    assert Present(["b.clj"]) == [Some("b.clj")];
    GeneratedLoaderListsAllPaths("a.clj", ["b.clj"], env);
    assert ["a.clj"] + ["b.clj"] == ["a.clj", "b.clj"];
    assert ["a.clj", "b.clj"][1..] == ["b.clj"];
    var sep := env.lineSeparator;
    assert LoaderText(["b.clj"], sep) == LoadLine("b.clj", sep) + LoaderText([], sep);
    assert LoadLine("b.clj", sep) + "" == LoadLine("b.clj", sep);
    assert LoaderText(["a.clj", "b.clj"], sep) == LoadLine("a.clj", sep) + LoaderText(["b.clj"], sep);
  }

  /** mainClass without args runs that class with no arguments. */
  lemma MainClassWithoutArgsExample(env: Environment)
    ensures Execution(Config(None, None, Some("com.example.Main"), None), env, None)
      == Invoked(Call("com.example.Main", []), None)
  {
  }
}
