/**
 * Where the Jack and Jill jars are found: the static initializer of the Jack
 * wrapper. The host (environment variables, the filesystem's existence test and
 * the absolute form of a path) is passed in as a value instead of being read
 * from the process.
 */
module ToolLocator {
  import opened Wrappers

  /** The parts of the host that the wrapper consults. */
  datatype Host = Host(
    getenv: string -> Option<string>,
    fileExists: string -> bool,
    absolutePath: string -> string)

  /** The two tool locations, fixed once per process; None means "not found". */
  datatype ToolPaths = ToolPaths(jackJar: Option<string>, jillJar: Option<string>)

  const BuildTopVar := "ANDROID_BUILD_TOP"
  const JackJarVar := "JACK_JAR"
  const JackRelative := "/prebuilts/sdk/tools/jack.jar"
  const JillRelative := "/prebuilts/sdk/tools/jill.jar"

  /** How Java renders the root in `sdkTop + "..."`: an unset variable reads as "null". */
  function RootText(sdkTop: Option<string>): string
  {
    match sdkTop
    case Some(s) => s
    case None => "null"
  }

  /** The conventional location of the Jack jar under the build tree. */
  function DefaultJackJar(host: Host): string
  {
    RootText(host.getenv(BuildTopVar)) + JackRelative
  }

  /** The conventional location of the Jill jar under the build tree. */
  function DefaultJillJar(host: Host): string
  {
    RootText(host.getenv(BuildTopVar)) + JillRelative
  }

  /** The static initializer: the override for Jack if it names an existing file,
      else the default if it exists, else nothing; Jill has only its default. */
  function Locate(host: Host): (t: ToolPaths)
    ensures t.jackJar.Some? ==> host.fileExists(t.jackJar.value)
    ensures t.jackJar.Some? ==>
      t.jackJar.value == DefaultJackJar(host) || host.getenv(JackJarVar) == Some(t.jackJar.value)
    ensures t.jillJar.Some? <==> host.fileExists(DefaultJillJar(host))
    ensures t.jillJar.Some? ==> t.jillJar.value == DefaultJillJar(host)
  {
    var jackJarEnv := host.getenv(JackJarVar);
    var jackJar :=
      if jackJarEnv.Some? && host.fileExists(jackJarEnv.value) then jackJarEnv
      else if !host.fileExists(DefaultJackJar(host)) then None
      else Some(DefaultJackJar(host));
    var jillJar :=
      if !host.fileExists(DefaultJillJar(host)) then None
      else Some(DefaultJillJar(host));
    ToolPaths(jackJar, jillJar)
  }

  // ---------------------------------------------------------------------------
  // An independent reading of the precedence: the first candidate that exists.

  /** The first path in `candidates` that exists, if any. */
  function FirstExisting(candidates: seq<string>, fileExists: string -> bool): (r: Option<string>)
    ensures r.Some? ==> r.value in candidates && fileExists(r.value)
    ensures r.None? <==> forall i :: 0 <= i < |candidates| ==> !fileExists(candidates[i])
  {
    if candidates == [] then None
    else if fileExists(candidates[0]) then Some(candidates[0])
    else FirstExisting(candidates[1..], fileExists)
  }

  /** FirstExisting picks the earliest existing candidate: every one before it is missing. */
  lemma {:induction false} FirstExistingIsEarliest(candidates: seq<string>, fileExists: string -> bool, i: nat)
    requires i < |candidates| && fileExists(candidates[i])
    requires forall j :: 0 <= j < i ==> !fileExists(candidates[j])
    ensures FirstExisting(candidates, fileExists) == Some(candidates[i])
  {
    if i > 0 {
      assert !fileExists(candidates[0]);
      forall j | 0 <= j < i - 1
        ensures !fileExists(candidates[1..][j])
      {
        assert candidates[1..][j] == candidates[j + 1];
      }
      FirstExistingIsEarliest(candidates[1..], fileExists, i - 1);
    }
  }

  /** The Jack candidates in order of precedence: the override (when set), then the default. */
  function JackCandidates(host: Host): (c: seq<string>)
    ensures |c| >= 1 && c[|c| - 1] == DefaultJackJar(host)
    ensures host.getenv(JackJarVar).Some? <==> |c| == 2
    ensures |c| == 2 ==> c[0] == host.getenv(JackJarVar).value
  {
    match host.getenv(JackJarVar)
    case Some(p) => [p, DefaultJackJar(host)]
    case None => [DefaultJackJar(host)]
  }

  /** The initializer's decision for Jack is "the first existing candidate". */
  lemma JackJarIsFirstExistingCandidate(host: Host)
    ensures Locate(host).jackJar == FirstExisting(JackCandidates(host), host.fileExists)
  {
  }

  /** The three cases of the Jack precedence. */
  lemma JackJarPrecedence(host: Host)
    ensures var env := host.getenv(JackJarVar);
      env.Some? && host.fileExists(env.value) ==> Locate(host).jackJar == env
    ensures var env := host.getenv(JackJarVar);
      !(env.Some? && host.fileExists(env.value)) && host.fileExists(DefaultJackJar(host)) ==>
        Locate(host).jackJar == Some(DefaultJackJar(host))
    ensures var env := host.getenv(JackJarVar);
      !(env.Some? && host.fileExists(env.value)) && !host.fileExists(DefaultJackJar(host)) ==>
        Locate(host).jackJar == None
  {
  }

  /** An existing override wins whatever the build tree holds: two hosts that
      agree on the override and its existence agree on Jack. */
  lemma OverrideWinsRegardlessOfDefault(h1: Host, h2: Host)
    requires h1.getenv(JackJarVar) == h2.getenv(JackJarVar)
    requires var env := h1.getenv(JackJarVar);
      env.Some? && h1.fileExists(env.value) && h2.fileExists(env.value)
    ensures Locate(h1).jackJar == Locate(h2).jackJar == h1.getenv(JackJarVar)
  {
  }

  /** Jill has no override: it is found exactly when its default path exists. */
  lemma JillJarPresentIff(host: Host)
    ensures Locate(host).jillJar == (if host.fileExists(DefaultJillJar(host)) then Some(DefaultJillJar(host)) else None)
  {
  }
}
