# clojure:run — a Dafny model of ClojureRunMojo

This project models the `clojure:run` goal of the Clojure Maven plugin.
The goal checks that exactly one of `script` and `mainClass` is configured.
In script mode it merges `script` and the optional `scripts` list into one entry path. With several scripts it writes a temporary loader file of `(load-file "<path>")` lines.
It splits `args` on single spaces, as Java's `String.split(" ")` does.
It then hands an entry-point name and an argument list to the plugin's runner.
Every `java.lang.Exception` it throws is a `MojoExecutionException`: one raised inside its `try` block that is not already one is wrapped (`ClojureRunMojo.java:132-136`).

Files:

- `wrappers.dfy`: `Option`. `None` stands for a Java `null`.
- `java_strings.dfy`: `String.trim()` and its blankness test (`s.trim().equals("")`), and `String.split(" ")` with the default limit 0. It also proves what split does to joined words.
- `clojure_run_mojo.dfy`:
  - the specification functions `MergedScript` (what `mergeScripts` returns or throws) and `Execution` (how `execute` ends);
  - the methods `MergeScripts`, `CheckPaths`, `WriteLoader` and `Execute`, which follow the Java code step by step. `MergeScripts` and `Execute` are proved equal to those two functions; their loops `CheckPaths` and `WriteLoader` are proved equal to `ValidatePaths` and `LoaderText`.
- `clojure_run_properties.dfy`: the promised behaviour, as lemmas over the specification functions. It also holds a reader for the loader file, used to prove that the loader text records the path list.

The environment is taken as parameters (`Environment`):
- whether a path exists, as a predicate `fileExists`: it stands for `new File(path).exists()` (`ClojureRunMojo.java:81`), which also holds for directories, so a directory entry passes the checks and gets its own load-file line;
- the `line.separator` system property;
- what happens when the temporary file is created and written (`TempFile`): a path, or an `IOException` message.

What `callClojureWith` throws is a parameter of `Execution`/`Execute`; `None` means it returns normally. The same parameter stands for an exception raised while evaluating the call's other arguments (`getSourceDirectories`, `getRunWithClasspathElements`, `ClojureRunMojo.java:123-124` and `:128`), in which case the runner itself is never entered.

`IsBlank(s)` is defined as "every character is at most `' '`". Lemma `BlankIffTrimEmpty` proves this is the same as `Trim(s) == ""`, where `Trim` models `String.trim()` character by character.

About the result of `mergeScripts`:
- `mergeScripts` returns `testFile.getPath()` (`ClojureRunMojo.java:95`): the path `File.createTempFile` gave, modelled as `Created(path)`.
- A loader file is written only when `script` is non-blank, `scripts` is non-null and non-empty, every entry of `[script] ++ scripts` passes the checks at `ClojureRunMojo.java:77-84`, and the temporary file can be created (lemma `GeneratedIff`).

## Model

| member | source | states |
|---|---|---|
| ClojureRunMojo.Wrap | src/main/java/com/theoryinpractise/clojure/ClojureRunMojo.java:132-136 | the catch clauses: the result is always a MojoExecutionException with the original message; a MojoExecutionException is kept as is, any other exception becomes the cause |
| ClojureRunMojo.EntryError | src/main/java/com/theoryinpractise/clojure/ClojureRunMojo.java:78-83 | the check on one entry: no error exactly when the entry is non-null, non-blank and names an existing file or directory; an error is a MojoExecutionException without a cause |
| ClojureRunMojo.LoadLine | src/main/java/com/theoryinpractise/clojure/ClojureRunMojo.java:91-92 | the text written for one path: `(load-file "`, then the path unchanged, then `")` and the line separator |
| ClojureRunMojo.LoaderText | src/main/java/com/theoryinpractise/clojure/ClojureRunMojo.java:90-93 | the whole loader file: empty exactly when there are no paths, and otherwise it starts with a load-file line |
| ClojureRunMojo.ArgumentList | src/main/java/com/theoryinpractise/clojure/ClojureRunMojo.java:130 | the argument array of `args`: empty when args is null, otherwise `args.split(" ")`, none of whose elements contains a space |
| ClojureRunMojo.Dispatch | src/main/java/com/theoryinpractise/clojure/ClojureRunMojo.java:110-130 | the try block: the call goes to clojure.main in script mode and to mainClass otherwise; only script mode can throw, and then a MojoExecutionException from mergeScripts |
| ClojureRunMojo.Execution | src/main/java/com/theoryinpractise/clojure/ClojureRunMojo.java:101-137 | what execute does: with both or neither mode set it rejects with a cause-free MojoExecutionException; when it reaches the runner the entry name follows the mode, and it throws after the call exactly when the runner does |
| ClojureRunMojo.ValidatePaths | src/main/java/com/theoryinpractise/clojure/ClojureRunMojo.java:77-84 | when the validation loop passes it yields one path per entry, each the entry's non-null value; when it fails, the exception is a MojoExecutionException |
| ClojureRunMojo.ValidatePathsFirstError | src/main/java/com/theoryinpractise/clojure/ClojureRunMojo.java:77-84 | if every entry before position i passes and entry i fails, the loop throws entry i's exception |
| ClojureRunMojo.ValidatePathsOkIff | src/main/java/com/theoryinpractise/clojure/ClojureRunMojo.java:77-84 | the loop passes if and only if every entry is non-null, non-blank and names an existing file or directory |
| ClojureRunMojo.ValidatePathsAllGood | src/main/java/com/theoryinpractise/clojure/ClojureRunMojo.java:77-84 | a list of non-blank existing paths passes and yields exactly those paths |
| ClojureRunMojo.CheckPaths | src/main/java/com/theoryinpractise/clojure/ClojureRunMojo.java:77-84 | the loop with early exit reports no failure exactly when the validation passes; otherwise it reports the exception of the first failing entry |
| ClojureRunMojo.LoaderTextAppend | src/main/java/com/theoryinpractise/clojure/ClojureRunMojo.java:90-93 | the loader text of a concatenated path list is the concatenation of the loader texts |
| ClojureRunMojo.LoaderTextSnoc | src/main/java/com/theoryinpractise/clojure/ClojureRunMojo.java:90-93 | writing one more path appends exactly its `(load-file "<path>")` line and separator |
| ClojureRunMojo.WriteLoader | src/main/java/com/theoryinpractise/clojure/ClojureRunMojo.java:90-93 | the write loop (two writes per path) leaves the loader text of the path list, in order |
| ClojureRunMojo.MergedScript | src/main/java/com/theoryinpractise/clojure/ClojureRunMojo.java:63-99 | whatever mergeScripts throws is a MojoExecutionException |
| ClojureRunMojo.MergeScripts | src/main/java/com/theoryinpractise/clojure/ClojureRunMojo.java:63-99 | the step-by-step mergeScripts returns or throws what MergedScript says |
| ClojureRunMojo.Execute | src/main/java/com/theoryinpractise/clojure/ClojureRunMojo.java:101-137 | the step-by-step execute ends as Execution says: same rejection, or same call and same wrapped runner exception |
| ClojureRunProperties.BothModesRejected | src/main/java/com/theoryinpractise/clojure/ClojureRunMojo.java:102-104 | with both script and mainClass set, execute fails with the "not both" message and no cause, whatever else is configured or the runner would do |
| ClojureRunProperties.NoModeRejected | src/main/java/com/theoryinpractise/clojure/ClojureRunMojo.java:105-107 | with neither set, execute fails with the "Specify either" message |
| ClojureRunProperties.BlankScriptRejected | src/main/java/com/theoryinpractise/clojure/ClojureRunMojo.java:64-66 | a null script, or one whose trim() is empty, fails with "<script> is undefined" whatever scripts and the environment are |
| ClojureRunProperties.SingleScriptPassedThrough | src/main/java/com/theoryinpractise/clojure/ClojureRunMojo.java:67-68 | with scripts null, a non-blank script is returned exactly as given, for every file system and temp-file outcome (no existence check, nothing written) |
| ClojureRunProperties.EmptyScriptsRejected | src/main/java/com/theoryinpractise/clojure/ClojureRunMojo.java:69-70 | an empty scripts array fails with "<scripts> is defined but has no <script> entries" |
| ClojureRunProperties.MergeFailsAtFirstBadEntry | src/main/java/com/theoryinpractise/clojure/ClojureRunMojo.java:73-84 | over [script] ++ scripts, the first failing entry decides the error: "<script> entry cannot be empty" when it is null or blank, otherwise "<path> cannot be found" |
| ClojureRunProperties.GeneratedIff | src/main/java/com/theoryinpractise/clojure/ClojureRunMojo.java:63-95 | a loader file results if and only if the script is defined, scripts is non-empty, every entry of [script] ++ scripts passes, and the temporary file can be written |
| ClojureRunProperties.ValidatePathsScriptThenFiles | src/main/java/com/theoryinpractise/clojure/ClojureRunMojo.java:73-84 | a path list of a good script followed by good files passes and yields script then files |
| ClojureRunProperties.MergedScriptOfValidPaths | src/main/java/com/theoryinpractise/clojure/ClojureRunMojo.java:86-95 | once the path list passes and the temp file is created, the result is that file with the loader text of the validated paths |
| ClojureRunProperties.GeneratedLoaderListsAllPaths | src/main/java/com/theoryinpractise/clojure/ClojureRunMojo.java:73-95 | when every entry is good, the result is the temporary file holding the loader text of [script] ++ scripts in that order |
| ClojureRunProperties.IOFailureWrapped | src/main/java/com/theoryinpractise/clojure/ClojureRunMojo.java:96-97 | when every entry passes but the temporary file cannot be created or written, mergeScripts throws a MojoExecutionException with the IOException's message and the IOException as its cause |
| ClojureRunProperties.ValidationPrecedesWriting | src/main/java/com/theoryinpractise/clojure/ClojureRunMojo.java:77-98 | when some entry fails, the merge fails with the same error whatever the temp file and line separator would be: no output before validation ends |
| ClojureRunProperties.LoaderIndependentOfTempPath | src/main/java/com/theoryinpractise/clojure/ClojureRunMojo.java:86-95 | two runs with different temporary files succeed or fail together, return their own paths, and write identical loader text |
| ClojureRunProperties.ReadLineOfLoadLine | src/main/java/com/theoryinpractise/clojure/ClojureRunMojo.java:91-92 | the line written for a quote-free path reads back as exactly that path, leaving what follows untouched |
| ClojureRunProperties.ParseLoaderLine | src/main/java/com/theoryinpractise/clojure/ClojureRunMojo.java:91-92 | reading back one line written for a quote-free path gives that path, followed by whatever the rest reads as |
| ClojureRunProperties.LoaderRoundTrip | src/main/java/com/theoryinpractise/clojure/ClojureRunMojo.java:90-93 | reading the loader text back gives exactly the path list, one line per path in order, when no path contains a double quote |
| ClojureRunProperties.LoaderTextInjective | src/main/java/com/theoryinpractise/clojure/ClojureRunMojo.java:90-93 | different quote-free path lists never produce the same loader text |
| ClojureRunProperties.UnescapedPathForgesSecondLine | src/main/java/com/theoryinpractise/clojure/ClojureRunMojo.java:91 | because paths are not escaped, one path can produce the same loader text as two paths |
| ClojureRunProperties.ScriptModeCall | src/main/java/com/theoryinpractise/clojure/ClojureRunMojo.java:110-125 | in script mode, clojure.main is called with the merged path followed by split(args), or the path alone when args is null |
| ClojureRunProperties.ScriptModeMergeFailure | src/main/java/com/theoryinpractise/clojure/ClojureRunMojo.java:132-133 | a mergeScripts exception is rethrown by execute unchanged and no call is made |
| ClojureRunProperties.MainClassModeCall | src/main/java/com/theoryinpractise/clojure/ClojureRunMojo.java:126-130 | in main-class mode, mainClass is called with split(args), or no arguments when args is null; scripts plays no part |
| ClojureRunProperties.RunnerExceptionWrappedOnce | src/main/java/com/theoryinpractise/clojure/ClojureRunMojo.java:132-136 | a runner exception does not change the call; it leaves execute as the same MojoExecutionException, or as a new one with the same message whose cause is the original |
| ClojureRunProperties.EveryFailureIsMojoExecutionException | src/main/java/com/theoryinpractise/clojure/ClojureRunMojo.java:101-137 | every exception execute throws, before or after the call, is a MojoExecutionException |
| ClojureRunProperties.WrapIdempotent | src/main/java/com/theoryinpractise/clojure/ClojureRunMojo.java:132-136 | an exception is wrapped at most once |
| ClojureRunProperties.TwoScriptsExample | src/main/java/com/theoryinpractise/clojure/ClojureRunMojo.java:73-95 | script a.clj with scripts [b.clj], both existing, gives a loader of the a.clj line then the b.clj line |
| ClojureRunProperties.MainClassWithoutArgsExample | src/main/java/com/theoryinpractise/clojure/ClojureRunMojo.java:126-130 | a main class without args is called with an empty argument array |
| ClojureRunProperties.SplitThreeWords | src/main/java/com/theoryinpractise/clojure/ClojureRunMojo.java:117 | "foo bar baz" splits into three arguments in order |
| ClojureRunProperties.SplitEmpty | src/main/java/com/theoryinpractise/clojure/ClojureRunMojo.java:130 | "" splits into one empty argument |
| ClojureRunProperties.SplitLoneSpace | src/main/java/com/theoryinpractise/clojure/ClojureRunMojo.java:130 | " " splits into no arguments |
| ClojureRunProperties.SplitLeadingSpace | src/main/java/com/theoryinpractise/clojure/ClojureRunMojo.java:117 | a leading space gives a leading empty argument, which is kept |
| ClojureRunProperties.FieldsOfInteriorAndTrailingSpace | src/main/java/com/theoryinpractise/clojure/ClojureRunMojo.java:117 | "a  b " has the fields a, "", b, "" between its single spaces |
| ClojureRunProperties.SplitInteriorAndTrailingSpace | src/main/java/com/theoryinpractise/clojure/ClojureRunMojo.java:117 | an interior empty argument is kept and a trailing one is dropped |
| JavaStrings.Trim | src/main/java/com/theoryinpractise/clojure/ClojureRunMojo.java:64 | `String.trim()`: no longer than its input, and a non-empty result starts and ends with a character above ' ' |
| JavaStrings.IsBlank | src/main/java/com/theoryinpractise/clojure/ClojureRunMojo.java:78 | defines the blank test as every character being at most ' ' (BlankIffTrimEmpty proves this is `trim().equals("")`) |
| JavaStrings.Split | src/main/java/com/theoryinpractise/clojure/ClojureRunMojo.java:117 | defines `split(" ")` with limit 0: the string itself when it has no space, otherwise its fields without trailing empties (characterised by SplitIsFieldsWithoutTrailingEmpty, SplitPiecesHaveNoSpace and SplitJoin) |
| JavaStrings.TrimLeadingKeepsSuffix | src/main/java/com/theoryinpractise/clojure/ClojureRunMojo.java:64 | trim() removes a leading run of characters at most ' ' and stops at the first character above ' ' |
| JavaStrings.TrimTrailingKeepsPrefix | src/main/java/com/theoryinpractise/clojure/ClojureRunMojo.java:64 | trim() removes a trailing run of characters at most ' ' and stops at the last character above ' ' |
| JavaStrings.BlankIffTrimEmpty | src/main/java/com/theoryinpractise/clojure/ClojureRunMojo.java:78 | s.trim().equals("") holds if and only if every character of s is at most ' ' |
| JavaStrings.Fields | src/main/java/com/theoryinpractise/clojure/ClojureRunMojo.java:117 | the single-space fields of a string: at least one, none containing a space |
| JavaStrings.DropTrailingEmpty | src/main/java/com/theoryinpractise/clojure/ClojureRunMojo.java:117 | removes exactly the trailing empty strings: a prefix of the input, ending in a non-empty string, with only empties after it |
| JavaStrings.JoinFields | src/main/java/com/theoryinpractise/clojure/ClojureRunMojo.java:117 | joining the fields with single spaces rebuilds the string |
| JavaStrings.FieldsJoin | src/main/java/com/theoryinpractise/clojure/ClojureRunMojo.java:117 | the fields of space-free words joined by single spaces are those words |
| JavaStrings.SplitPiecesHaveNoSpace | src/main/java/com/theoryinpractise/clojure/ClojureRunMojo.java:117 | no argument produced by split(" ") contains a space |
| JavaStrings.SplitIsFieldsWithoutTrailingEmpty | src/main/java/com/theoryinpractise/clojure/ClojureRunMojo.java:117 | when the string contains a space, split(" ") is the field list with its trailing empty strings removed (a string without a space, "" included, splits into itself alone) |
| JavaStrings.SplitJoin | src/main/java/com/theoryinpractise/clojure/ClojureRunMojo.java:117 | splitting space-free words joined by single spaces gives back the words, provided the last one is not empty |

## Left out

- Real file system access: `new File(..).exists()` is the predicate `fileExists`. `File.createTempFile` and `FileWriter` are the `TempFile` parameter. The temporary file's name, its uniqueness and the fact that it is never deleted are not modelled.
- An `IOException` can come from creating, opening, writing or closing the file. All of these are one `WriteFailed` outcome. A partially written file left behind by a failure is not modelled.
- The `FileWriter` is modelled as the string it accumulates. Buffering and the character encoding are not modelled.
- `callClojureWith`, `getSourceDirectories`, `getRunWithClasspathElements` and `outputDirectory` belong to the plugin's base mojo, which is not part of this model. The model stops at the entry name and argument list handed to `callClojureWith`. What that call throws is a parameter.
- The `getLog().debug` line, Maven's parameter annotations and injection: these are framework glue with no effect on the result.
- `System.getProperty("line.separator")` is the `lineSeparator` parameter.
- `String.split` is modelled for the literal single-space pattern with limit 0 only. General regular expressions are not modelled.
- Java strings are UTF-16 code units; the model uses Dafny `char`. Only comparisons with `' '` matter here, and they agree.
- The `Exception` datatype covers `java.lang.Exception` subclasses only. A `java.lang.Error` (or any other non-Exception `Throwable`) thrown by `mergeScripts` or `callClojureWith` is not caught at `ClojureRunMojo.java:134` and leaves `execute` unwrapped. The model does not represent it, so the statement that every failure is a `MojoExecutionException` is about Exceptions only.
- MergedScript: a runtime exception from `File.createTempFile` or the `FileWriter` (a `SecurityException`, say) is not caught by `catch (IOException e)` at `ClojureRunMojo.java:96`. It leaves `mergeScripts` as it is and is then wrapped by `execute`. The `TempFile` parameter models only the `IOException` outcome, so this path is not modelled.
- `Exception.getMessage()` may return null in Java. The model always carries a message string.
- LoaderRoundTrip: requires that no path contain a double quote, because paths are written without escaping. UnescapedPathForgesSecondLine shows what goes wrong otherwise. The file is then read by the Clojure reader, where a backslash inside a string starts an escape, so a path holding a backslash (a Windows path such as `C:\work\a.clj`) is not loaded as written: LoaderRoundTrip shows that the text records the paths, not that clojure.main loads them.
