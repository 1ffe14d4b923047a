/**
 * The parts of the Jenkins host that the plugin leans on: workspace paths
 * (hudson.FilePath), argument lists (hudson.util.ArgumentListBuilder), process
 * launches (hudson.Launcher) and the way a build step ends. None of them belongs
 * to the plugin; they are modelled only as far as the plugin's behaviour needs.
 */
module Host {

  /** A path on the build agent: either built from a plain path string, or a
      relative path resolved under a base directory. How the host joins and
      normalises the two is left abstract. */
  datatype FilePath = Local(path: string) | Under(base: FilePath, rel: string)

  /** What the host decides about paths: whether a path string is absolute
      (FilePath.isAbsolute) and how a FilePath is printed (FilePath.toString). */
  datatype FileSystem = FileSystem(isAbsolute: string -> bool, render: FilePath -> string)

  /** `new FilePath(base, rel)`: an absolute `rel` is used as it is and the base
      is ignored; a relative one is resolved under `base`. */
  function Resolve(fs: FileSystem, base: FilePath, rel: string): (p: FilePath)
    ensures fs.isAbsolute(rel) <==> p == Local(rel)
    ensures !fs.isAbsolute(rel) <==> p == Under(base, rel)
  {
    if fs.isAbsolute(rel) then Local(rel) else Under(base, rel)
  }

  /** One command-line argument: a literal string, or a path that the host
      prints when the process is started. */
  datatype Arg = Text(text: string) | PathArg(path: FilePath)

  /** The argument list of one process, built up by appending. */
  class ArgumentListBuilder {
    var args: seq<Arg>

    constructor (exe: string)
      ensures args == [Text(exe)]
    {
      args := [Text(exe)];
    }

    method Add(a: Arg)
      modifies this
      ensures args == old(args) + [a]
    {
      args := args + [a];
    }
  }

  /** What waiting for a launched process gives: its exit code, or an
      InterruptedException thrown out of the wait. */
  datatype Outcome = Exit(code: int) | Interrupted

  /** One process start: its command line and its working directory. */
  datatype Launch = Launch(cmds: seq<Arg>, pwd: FilePath)

  /** The machine processes are launched on. `script(n)` is what the n-th launch
      (counting from 0) turns out to do; `launched` records every launch in order. */
  class Launcher {
    const script: nat -> Outcome
    var launched: seq<Launch>

    constructor (script: nat -> Outcome)
      ensures this.script == script && launched == []
    {
      this.script := script;
      launched := [];
    }

    /** Start a process and wait for it (ProcStarter.join). */
    method Join(cmds: seq<Arg>, pwd: FilePath) returns (o: Outcome)
      modifies this
      ensures launched == old(launched) + [Launch(cmds, pwd)]
      ensures o == script(|old(launched)|)
    {
      o := script(|launched|);
      launched := launched + [Launch(cmds, pwd)];
    }
  }

  /** How a build step's perform ends: normally, with an AbortException carrying
      its message, or with a NullPointerException. */
  datatype StepResult = Completed | Aborted(message: string) | NullPointer
}
