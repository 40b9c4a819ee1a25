/**
 * The part of Command.Builder that the Jack wrapper relies on: an ordered
 * argument list and an environment map that are extended in place, a copy
 * constructor that derives an independent builder, and execution, which is an
 * oracle given the final argument list and environment.
 */
module Command {

  /** What running a command yields: its output lines, or a failure carrying the
      command that was run and its diagnostic lines (CommandFailedException). */
  datatype ExecResult = Lines(lines: seq<string>) | Failed(command: seq<string>, output: seq<string>)

  /** The process boundary: runs the arguments under the environment. */
  type Executor = (seq<string>, map<string, string>) -> ExecResult

  class Builder {
    var args: seq<string>
    var env: map<string, string>

    /** A fresh builder with no arguments and no environment entries. */
    constructor ()
      ensures args == [] && env == map[]
    {
      args := [];
      env := map[];
    }

    /** Derives a builder seeded with the parent's arguments and environment.
        The parent is not in any frame here, so it is left as it was. */
    constructor Copy(parent: Builder)
      ensures args == parent.args && env == parent.env
    {
      args := parent.args;
      env := parent.env;
    }

    /** Appends the given arguments, in order, after those already present. */
    method Args(xs: seq<string>)
      modifies this
      ensures args == old(args) + xs
      ensures env == old(env)
    {
      args := args + xs;
    }

    /** Sets one environment entry; a later call for the same key wins. */
    method Env(key: string, value: string)
      modifies this
      ensures env == old(env)[key := value]
      ensures args == old(args)
    {
      env := env[key := value];
    }

    /** Runs the accumulated command; the builder itself is only read. */
    method Execute(exec: Executor) returns (r: ExecResult)
      ensures r == exec(args, env)
    {
      r := exec(args, env);
    }
  }
}
