# Jack compiler wrapper, modelled in Dafny

This project models vogar's wrapper around the Jack compiler (`vogar.commands.Jack`):

- **Tool location** (`locator.dfy`, module `ToolLocator`). The static initializer decides `JACK_JAR` and `JILL_JAR`. Jack uses the `JACK_JAR` environment variable when it names an existing file. Otherwise it uses `$ANDROID_BUILD_TOP/prebuilts/sdk/tools/jack.jar` when that exists. Otherwise it is absent. Jill has only its default location. The host is a value `Host(getenv, fileExists, absolutePath)`. The result is a value `ToolPaths(jackJar, jillJar)` that is passed on explicitly. `FirstExisting` is a second, independent reading of the precedence ("first existing candidate"), and a lemma shows that both readings agree.
- **The command builder** (`command.dfy`, module `Command`). This is the part of `Command.Builder` the wrapper uses, written as a class with an ordered `args: seq<string>` and an `env: map<string, string>`. It has a copy constructor that derives a new builder. Running a command is an `Executor` oracle that is given the final arguments and environment. It returns either output lines or a `Failed(command, output)` value, which stands for `CommandFailedException`.
- **The facade** (`jack.dfy`, module `JackCompiler`). Class `Jack` owns one template builder:
  - every configuration method appends its fixed flag and value in place and returns the same instance;
  - `SetEnvVar` writes one environment entry;
  - `Compile` derives a fresh builder, appends the files' paths and runs it. It has no `modifies` clause, so Dafny proves that the template is unchanged;
  - `GetJackCompiler` fails with `IllegalState` when no Jack jar was located;
  - `ConvertJarToJackLib` checks that the input exists, computes the output path by an anchored `.jar` → `.jack` rewrite, checks for Jill, and runs Jill. The checks happen in that order.

Java's exceptions are the `Error` datatype inside a `Result`. An unset `ANDROID_BUILD_TOP` gives Java the text `"null"` in `sdkTop + "/prebuilts/..."`. `RootText` models that text exactly.

## Model

| member | source | states |
|---|---|---|
| ToolLocator.Locate | src/vogar/commands/Jack.java:39-66 | a located Jack jar exists and is either the `JACK_JAR` override or the default under the build root; Jill is present exactly when its default path exists, and then it is that path |
| ToolLocator.FirstExisting | src/vogar/commands/Jack.java:45-59 | reference reading of the precedence: the result is an existing candidate, and it is absent exactly when no candidate exists |
| ToolLocator.FirstExistingIsEarliest | src/vogar/commands/Jack.java:45-59 | the chosen candidate is the earliest existing one: every candidate before it is missing (proof by induction) |
| ToolLocator.JackCandidates | src/vogar/commands/Jack.java:40-49 | the candidates in order of precedence: two candidates exactly when `JACK_JAR` is set, the first being its value, and the default always last |
| ToolLocator.JackJarIsFirstExistingCandidate | src/vogar/commands/Jack.java:40-59 | the initializer's choice for `JACK_JAR` equals the first existing candidate, override before default |
| ToolLocator.JackJarPrecedence | src/vogar/commands/Jack.java:47-59 | the override when it is set and exists; otherwise the default when it exists; otherwise absent |
| ToolLocator.OverrideWinsRegardlessOfDefault | src/vogar/commands/Jack.java:49-53 | two hosts with the same existing override resolve Jack to that override, whatever their build roots hold |
| ToolLocator.JillJarPresentIff | src/vogar/commands/Jack.java:61-65 | Jill has no override: present, as its default path, exactly when that path exists |
| Command.Builder.constructor | src/vogar/commands/Jack.java:118 | a new builder starts with no arguments and an empty environment |
| Command.Builder.Copy | src/vogar/commands/Jack.java:210 | the derived builder starts with the parent's arguments and environment; the parent is not in its frame |
| Command.Builder.Args | src/vogar/commands/Jack.java:128 | the arguments become the old ones followed by the new ones, in order; the environment is unchanged |
| Command.Builder.Env | src/vogar/commands/Jack.java:198 | the environment gets exactly the one entry updated (last write wins); the arguments are unchanged |
| Command.Builder.Execute | src/vogar/commands/Jack.java:212 | the executor is given exactly the builder's arguments and environment, and its outcome is returned unchanged |
| JackCompiler.ReplaceSuffix | src/vogar/commands/Jack.java:96 | when the input ends with the suffix, the result ends with the replacement and keeps the same stem; otherwise the input is returned unchanged |
| JackCompiler.OutPath | src/vogar/commands/Jack.java:96 | a trailing `.jar` becomes `.jack` with the stem kept, a path without one is unchanged, and the result never ends in `.jar` |
| JackCompiler.OutPathOfStem | src/vogar/commands/Jack.java:96 | for every stem, `stem + ".jar"` becomes `stem + ".jack"`; only the final suffix is touched |
| JackCompiler.OutPathIdempotent | src/vogar/commands/Jack.java:96 | rewriting an output path again changes nothing |
| JackCompiler.OutPathRoundTrip | src/vogar/commands/Jack.java:96 | turning the trailing `.jack` back into `.jar` restores the original jar path |
| JackCompiler.OutPathExamples | src/vogar/commands/Jack.java:96 | `/x/Foo.jar` becomes `/x/Foo.jack`, `/x/Foo.jar.jar` becomes `/x/Foo.jar.jack`, and `/x/Foo.zip` is unchanged |
| JackCompiler.ConvertJarToJackLib | src/vogar/commands/Jack.java:90-113 | success only when the input exists, Jill was located and Jill's run succeeded, and then the result is the rewritten path; `IllegalArgument` exactly when the input is missing; never `IllegalState` |
| JackCompiler.ConvertRejectsMissingInputFirst | src/vogar/commands/Jack.java:91-94 | a missing input gives `IllegalArgument` with its message, whatever the executor would do, so nothing runs |
| JackCompiler.ConvertWithoutJill | src/vogar/commands/Jack.java:106-110 | an existing input without Jill gives a command failure with an empty command and the single hint line, without running anything |
| JackCompiler.ConvertRunsJill | src/vogar/commands/Jack.java:96-105 | otherwise Jill runs on exactly `java -jar <abs jill> <jar> --output <out>`; success returns the output path, and a failure is passed on unchanged |
| JackCompiler.Paths | src/vogar/commands/Jack.java:211 | the files' string forms, one per file, in the collection's order |
| JackCompiler.Jack.constructor | src/vogar/commands/Jack.java:122-125 | a fresh template holding exactly the given arguments and an empty environment |
| JackCompiler.Jack.FromString | src/vogar/commands/Jack.java:117-120 | a fresh template holding the tokens of the argument string and an empty environment |
| JackCompiler.Jack.GetJackCompiler | src/vogar/commands/Jack.java:74-81 | fails with `IllegalState("Jack library not found, cannot use jack.")` exactly when no Jack jar was located; otherwise a fresh template `["java", "-jar", abs(JACK_JAR)]` with an empty environment |
| JackCompiler.Jack.ImportFile | src/vogar/commands/Jack.java:127-130 | appends exactly `--import`, path; environment unchanged; returns the same instance |
| JackCompiler.Jack.ImportMeta | src/vogar/commands/Jack.java:132-135 | appends exactly `--import-meta`, dir; environment unchanged; returns the same instance |
| JackCompiler.Jack.ImportResource | src/vogar/commands/Jack.java:137-140 | appends exactly `--import-resource`, dir; environment unchanged; returns the same instance |
| JackCompiler.Jack.IncrementalFolder | src/vogar/commands/Jack.java:142-145 | appends exactly `--incremental--folder`, dir, spelled as the source spells it; environment unchanged; returns the same instance |
| JackCompiler.Jack.MultiDex | src/vogar/commands/Jack.java:147-150 | appends exactly `--multi-dex`, mode; environment unchanged; returns the same instance |
| JackCompiler.Jack.OutputDex | src/vogar/commands/Jack.java:152-155 | appends exactly `--output-dex`, dir; environment unchanged; returns the same instance |
| JackCompiler.Jack.OutputJack | src/vogar/commands/Jack.java:157-160 | appends exactly `--output-jack`, path; environment unchanged; returns the same instance |
| JackCompiler.Jack.Processor | src/vogar/commands/Jack.java:162-165 | appends exactly `--processor`, names; environment unchanged; returns the same instance |
| JackCompiler.Jack.ProcessorPath | src/vogar/commands/Jack.java:167-170 | appends exactly `--processorpath`, path; environment unchanged; returns the same instance |
| JackCompiler.Jack.Verbose | src/vogar/commands/Jack.java:172-175 | appends exactly `--verbose`, mode; environment unchanged; returns the same instance |
| JackCompiler.Jack.AddAnnotationProcessor | src/vogar/commands/Jack.java:177-180 | appends exactly `-A`, processor; environment unchanged; returns the same instance |
| JackCompiler.Jack.SetProperty | src/vogar/commands/Jack.java:182-185 | appends exactly `-D`, property; environment unchanged; returns the same instance |
| JackCompiler.Jack.SetClassPath | src/vogar/commands/Jack.java:187-190 | appends exactly `-cp`, classPath; environment unchanged; returns the same instance |
| JackCompiler.Jack.SetDebug | src/vogar/commands/Jack.java:192-195 | appends only `-g`; environment unchanged; returns the same instance |
| JackCompiler.Jack.SetEnvVar | src/vogar/commands/Jack.java:197-200 | the template's environment maps the key to the value (last write wins); arguments unchanged; returns the same instance |
| JackCompiler.Jack.Compile | src/vogar/commands/Jack.java:202-213 | runs the template's arguments followed by the files' paths in order, under the template's environment; the template is outside the frame, so it is unchanged |
| JackCompiler.CompileTwice | src/vogar/commands/Jack.java:202-205 | two compiles on one template each see the template's arguments and their own files only, so they do not observe each other |
| JackCompiler.ChainedConfiguration | src/vogar/commands/Jack.java:127-200 | chained calls on one instance: two imports append two `--import` pairs in call order, `-g` follows them, and a key set twice keeps its last value |

## Left out

- Process execution (`Command.Builder.execute`, exit codes, output capture) is an `Executor` oracle. `Command.java` is not part of this model.
- `Command.Builder.Copy`: the model assumes that `Command.Builder(Builder)` copies the parent's argument list and environment by value, so the child shares no list or map with the parent. `Compile` and `CompileTwice` prove that the template is unchanged, and that proof rests on this assumption. The only text in the source that backs it is the comment on `compile` at `src/vogar/commands/Jack.java:203-205`, which says that compiling does not dirty the `Jack` instance. Other builder settings, such as the working directory, are not modelled.
- Filesystem, environment and paths (`File.exists`, `System.getenv`, `File.getAbsolutePath`) are the `Host` functions. A `File` is identified with its path string, so `File`'s own path normalisation is folded into those functions.
- `JackCompiler.Jack.FromString`: the splitting rule of `Command.Builder.args(String)` lives in `Command.java`, which this model does not cover, so it is the uninterpreted parameter `tokenize`.
- `Log` and the `System.out.println` diagnostic printed when Jill fails (line 102) are not modelled. `Strings.objectsToStrings` is not modelled as code, but its effect is: `Paths` (and the loop in `Compile`) gives one string per file, in order, taking `File.toString` to be the file's path.
- `JackCompiler.OutPath`: Java's regular expression `\.jar$` also matches before a final line terminator. The model uses the plain "ends with `.jar`" reading.
- Tool locations are computed once per process in the source. Here they form a `ToolPaths` value that callers pass on.
