/**
 * The Jack compiler wrapper: acquiring a compiler once its jar is located,
 * converting a jar into a Jack library with Jill, configuring a reusable
 * command template through chained calls, and compiling files with it.
 */
module JackCompiler {
  import opened Wrappers
  import opened Command
  import opened ToolLocator

  /** The exceptions the wrapper raises or passes on. */
  datatype Error =
    | IllegalState(message: string)
    | IllegalArgument(message: string)
    | CommandFailed(command: seq<string>, output: seq<string>)

  /** A file handed to compile; its string form is its path. */
  datatype File = File(path: string)

  const JackMissingMessage := "Jack library not found, cannot use jack."
  const JillMissingHint := "Jill could not be found, did you run lunch?"
  const JarSuffix := ".jar"
  const JackSuffix := ".jack"

  function NoSuchJarMessage(jarPath: string): string
  {
    "No such jar file to convert: " + jarPath
  }

  // ---------------------------------------------------------------------------
  // The output path of a conversion: a trailing ".jar" becomes ".jack".

  predicate EndsWith(s: string, suffix: string)
  {
    |suffix| <= |s| && s[|s| - |suffix|..] == suffix
  }

  /** Replaces `from` by `to` when `s` ends with it; anything else is left as is. */
  function ReplaceSuffix(s: string, from: string, to: string): (r: string)
    ensures EndsWith(s, from) ==> EndsWith(r, to) && r[..|r| - |to|] == s[..|s| - |from|]
    ensures !EndsWith(s, from) ==> r == s
  {
    if EndsWith(s, from) then s[..|s| - |from|] + to else s
  }

  /** The anchored rewrite of a jar path into the path of its Jack library. */
  function OutPath(jarPath: string): (outPath: string)
    ensures EndsWith(jarPath, JarSuffix) ==>
      |outPath| == |jarPath| + 1 && EndsWith(outPath, JackSuffix) &&
      outPath[..|jarPath| - |JarSuffix|] == jarPath[..|jarPath| - |JarSuffix|]
    ensures !EndsWith(jarPath, JarSuffix) ==> outPath == jarPath
    ensures !EndsWith(outPath, JarSuffix)
  {
    var r := ReplaceSuffix(jarPath, JarSuffix, JackSuffix);
    assert !EndsWith(r, JarSuffix) by {
      if EndsWith(jarPath, JarSuffix) {
        assert r[|r| - |JackSuffix|..][|JackSuffix| - 1] == r[|r| - 1];
        assert r[|r| - 1] == 'k' && JarSuffix[|JarSuffix| - 1] == 'r';
        assert r[|r| - |JarSuffix|..][|JarSuffix| - 1] == r[|r| - 1];
      }
    }
    r
  }

  /** Only the final suffix is rewritten, whatever the stem holds. */
  lemma OutPathOfStem(stem: string)
    ensures OutPath(stem + JarSuffix) == stem + JackSuffix
  {
  }

  /** Rewriting twice is rewriting once: no trailing ".jar" survives the first. */
  lemma OutPathIdempotent(jarPath: string)
    ensures OutPath(OutPath(jarPath)) == OutPath(jarPath)
  {
  }

  /** The rewrite is undone by turning the trailing ".jack" back into ".jar". */
  lemma OutPathRoundTrip(jarPath: string)
    requires EndsWith(jarPath, JarSuffix)
    ensures ReplaceSuffix(OutPath(jarPath), JackSuffix, JarSuffix) == jarPath
  {
  }

  lemma OutPathExamples()
    ensures OutPath("/x/Foo.jar") == "/x/Foo.jack"
    ensures OutPath("/x/Foo.jar.jar") == "/x/Foo.jar.jack"
    ensures OutPath("/x/Foo.zip") == "/x/Foo.zip"
  {
  }

  // ---------------------------------------------------------------------------
  // Jar to Jack library conversion.

  /** The command that runs Jill on a jar. */
  function JillCommand(host: Host, jillJar: string, jarPath: string): seq<string>
  {
    ["java", "-jar", host.absolutePath(jillJar), jarPath, "--output", OutPath(jarPath)]
  }

  /** convertJarToJackLib: the input must exist, Jill must have been located, and
      Jill's run must succeed; the result is the computed output path. */
  function ConvertJarToJackLib(tools: ToolPaths, host: Host, jarPath: string, exec: Executor): (r: Result<string, Error>)
    ensures r.Success? ==>
      && r.value == OutPath(jarPath)
      && host.fileExists(jarPath)
      && tools.jillJar.Some?
      && exec(JillCommand(host, tools.jillJar.value, jarPath), map[]).Lines?
    ensures (r.Failure? && r.error.IllegalArgument?) <==> !host.fileExists(jarPath)
    ensures !(r.Failure? && r.error.IllegalState?)
  {
    if !host.fileExists(jarPath) then
      Failure(IllegalArgument(NoSuchJarMessage(jarPath)))
    else
      var outPath := OutPath(jarPath);
      if tools.jillJar.Some? then
        match exec(JillCommand(host, tools.jillJar.value, jarPath), map[])
        case Lines(_) => Success(outPath)
        case Failed(command, output) => Failure(CommandFailed(command, output))
      else
        Failure(CommandFailed([], [JillMissingHint]))
  }

  /** A missing input is reported before anything runs: the executor is never consulted. */
  lemma ConvertRejectsMissingInputFirst(tools: ToolPaths, host: Host, jarPath: string, exec1: Executor, exec2: Executor)
    requires !host.fileExists(jarPath)
    ensures ConvertJarToJackLib(tools, host, jarPath, exec1) == Failure(IllegalArgument(NoSuchJarMessage(jarPath)))
    ensures ConvertJarToJackLib(tools, host, jarPath, exec1) == ConvertJarToJackLib(tools, host, jarPath, exec2)
  {
  }

  /** A missing Jill is a command failure with an empty command and one hint line,
      again without running anything. */
  lemma ConvertWithoutJill(tools: ToolPaths, host: Host, jarPath: string, exec1: Executor, exec2: Executor)
    requires host.fileExists(jarPath) && tools.jillJar.None?
    ensures ConvertJarToJackLib(tools, host, jarPath, exec1) == Failure(CommandFailed([], [JillMissingHint]))
    ensures ConvertJarToJackLib(tools, host, jarPath, exec1) == ConvertJarToJackLib(tools, host, jarPath, exec2)
  {
  }

  /** With input and Jill present, Jill runs on exactly the fixed command; its
      failure is passed on unchanged and its output lines are dropped. */
  lemma ConvertRunsJill(tools: ToolPaths, host: Host, jarPath: string, exec: Executor)
    requires host.fileExists(jarPath) && tools.jillJar.Some?
    ensures var command := ["java", "-jar", host.absolutePath(tools.jillJar.value), jarPath, "--output", OutPath(jarPath)];
      ConvertJarToJackLib(tools, host, jarPath, exec) ==
        match exec(command, map[])
        case Lines(_) => Success(OutPath(jarPath))
        case Failed(c, o) => Failure(CommandFailed(c, o))
  {
  }

  // ---------------------------------------------------------------------------
  // The compiler facade.

  /** The string forms of the files, in the collection's order. */
  function Paths(files: seq<File>): (r: seq<string>)
    ensures |r| == |files|
    ensures forall i :: 0 <= i < |files| ==> r[i] == files[i].path
  {
    if files == [] then [] else [files[0].path] + Paths(files[1..])
  }

  class Jack {
    /** The reusable command template. */
    const builder: Builder

    /** Jack(Log, Collection<String>): a template holding exactly the given arguments. */
    constructor (jackArgs: seq<string>)
      ensures fresh(builder)
      ensures builder.args == jackArgs && builder.env == map[]
    {
      var b := new Builder();
      b.Args(jackArgs);
      builder := b;
    }

    /** Jack(Log, String): the string is split into arguments by `tokenize`. */
    constructor FromString(jackArgs: string, tokenize: string -> seq<string>)
      ensures fresh(builder)
      ensures builder.args == tokenize(jackArgs) && builder.env == map[]
    {
      var b := new Builder();
      b.Args(tokenize(jackArgs));
      builder := b;
    }

    /** getJackCompiler: fails when no Jack jar was located, otherwise runs it with java -jar. */
    static method GetJackCompiler(tools: ToolPaths, host: Host) returns (r: Result<Jack, Error>)
      ensures r.Failure? <==> tools.jackJar.None?
      ensures r.Failure? ==> r.error == IllegalState(JackMissingMessage)
      ensures r.Success? ==>
        && fresh(r.value.builder)
        && r.value.builder.args == ["java", "-jar", host.absolutePath(tools.jackJar.value)]
        && r.value.builder.env == map[]
    {
      if tools.jackJar.Some? {
        var jack := new Jack(["java", "-jar", host.absolutePath(tools.jackJar.value)]);
        r := Success(jack);
      } else {
        r := Failure(IllegalState(JackMissingMessage));
      }
    }

    method ImportFile(path: string) returns (self: Jack)
      modifies builder
      ensures self == this
      ensures builder.args == old(builder.args) + ["--import", path]
      ensures builder.env == old(builder.env)
    {
      builder.Args(["--import", path]);
      self := this;
    }

    method ImportMeta(dir: string) returns (self: Jack)
      modifies builder
      ensures self == this
      ensures builder.args == old(builder.args) + ["--import-meta", dir]
      ensures builder.env == old(builder.env)
    {
      builder.Args(["--import-meta", dir]);
      self := this;
    }

    method ImportResource(dir: string) returns (self: Jack)
      modifies builder
      ensures self == this
      ensures builder.args == old(builder.args) + ["--import-resource", dir]
      ensures builder.env == old(builder.env)
    {
      builder.Args(["--import-resource", dir]);
      self := this;
    }

    /** The flag is spelled "--incremental--folder", as the wrapper passes it. */
    method IncrementalFolder(dir: string) returns (self: Jack)
      modifies builder
      ensures self == this
      ensures builder.args == old(builder.args) + ["--incremental--folder", dir]
      ensures builder.env == old(builder.env)
    {
      builder.Args(["--incremental--folder", dir]);
      self := this;
    }

    method MultiDex(mode: string) returns (self: Jack)
      modifies builder
      ensures self == this
      ensures builder.args == old(builder.args) + ["--multi-dex", mode]
      ensures builder.env == old(builder.env)
    {
      builder.Args(["--multi-dex", mode]);
      self := this;
    }

    method OutputDex(dir: string) returns (self: Jack)
      modifies builder
      ensures self == this
      ensures builder.args == old(builder.args) + ["--output-dex", dir]
      ensures builder.env == old(builder.env)
    {
      builder.Args(["--output-dex", dir]);
      self := this;
    }

    method OutputJack(path: string) returns (self: Jack)
      modifies builder
      ensures self == this
      ensures builder.args == old(builder.args) + ["--output-jack", path]
      ensures builder.env == old(builder.env)
    {
      builder.Args(["--output-jack", path]);
      self := this;
    }

    method Processor(names: string) returns (self: Jack)
      modifies builder
      ensures self == this
      ensures builder.args == old(builder.args) + ["--processor", names]
      ensures builder.env == old(builder.env)
    {
      builder.Args(["--processor", names]);
      self := this;
    }

    method ProcessorPath(path: string) returns (self: Jack)
      modifies builder
      ensures self == this
      ensures builder.args == old(builder.args) + ["--processorpath", path]
      ensures builder.env == old(builder.env)
    {
      builder.Args(["--processorpath", path]);
      self := this;
    }

    method Verbose(mode: string) returns (self: Jack)
      modifies builder
      ensures self == this
      ensures builder.args == old(builder.args) + ["--verbose", mode]
      ensures builder.env == old(builder.env)
    {
      builder.Args(["--verbose", mode]);
      self := this;
    }

    method AddAnnotationProcessor(processor: string) returns (self: Jack)
      modifies builder
      ensures self == this
      ensures builder.args == old(builder.args) + ["-A", processor]
      ensures builder.env == old(builder.env)
    {
      builder.Args(["-A", processor]);
      self := this;
    }

    method SetProperty(property: string) returns (self: Jack)
      modifies builder
      ensures self == this
      ensures builder.args == old(builder.args) + ["-D", property]
      ensures builder.env == old(builder.env)
    {
      builder.Args(["-D", property]);
      self := this;
    }

    method SetClassPath(classPath: string) returns (self: Jack)
      modifies builder
      ensures self == this
      ensures builder.args == old(builder.args) + ["-cp", classPath]
      ensures builder.env == old(builder.env)
    {
      builder.Args(["-cp", classPath]);
      self := this;
    }

    /** The one flag without a value. */
    method SetDebug() returns (self: Jack)
      modifies builder
      ensures self == this
      ensures builder.args == old(builder.args) + ["-g"]
      ensures builder.env == old(builder.env)
    {
      builder.Args(["-g"]);
      self := this;
    }

    /** Sets an environment entry of the template; the arguments stay as they were. */
    method SetEnvVar(key: string, value: string) returns (self: Jack)
      modifies builder
      ensures self == this
      ensures builder.env == old(builder.env)[key := value]
      ensures builder.args == old(builder.args)
    {
      builder.Env(key, value);
      self := this;
    }

    /** Runs the template's command with the files' paths appended, in order. The
        template is outside every frame here, so it is the same afterwards: the
        files go only into a freshly derived builder. */
    method Compile(files: seq<File>, exec: Executor) returns (r: ExecResult)
      ensures r == exec(builder.args + Paths(files), builder.env)
    {
      var child := new Builder.Copy(builder);
      var strings: seq<string> := [];
      for i := 0 to |files|
        invariant strings == Paths(files[..i])
      {
        assert files[..i + 1] == files[..i] + [files[i]];
        strings := strings + [files[i].path];
      }
      assert files[..|files|] == files;
      child.Args(strings);
      r := child.Execute(exec);
    }
  }

  /** Two compiles on one template each see the template and their own files only. */
  method CompileTwice(jack: Jack, first: seq<File>, second: seq<File>, exec: Executor)
    returns (r1: ExecResult, r2: ExecResult)
    ensures r1 == exec(jack.builder.args + Paths(first), jack.builder.env)
    ensures r2 == exec(jack.builder.args + Paths(second), jack.builder.env)
  {
    r1 := jack.Compile(first, exec);
    r2 := jack.Compile(second, exec);
  }

  /** Chained configuration: value flags accumulate in call order, while a repeated
      environment key keeps only its last value. */
  method ChainedConfiguration(jack: Jack, a: string, b: string, key: string, v1: string, v2: string)
    modifies jack.builder
    ensures jack.builder.args == old(jack.builder.args) + ["--import", a, "--import", b, "-g"]
    ensures jack.builder.env == old(jack.builder.env)[key := v2]
  {
    var j := jack.ImportFile(a);
    j := j.ImportFile(b);
    j := j.SetEnvVar(key, v1);
    j := j.SetDebug();
    j := j.SetEnvVar(key, v2);
  }
}
