/**
 * The pure part of NugetCommandBase: which executable is run, and how the
 * command line is put together from the executable, the operation's own
 * arguments and the optional verbosity.
 */
module NugetArguments {
  import opened Wrappers
  import opened Host

  const NonInteractive := "-NonInteractive"
  const Verbosity := "-Verbosity"

  /** The executable used when the global configuration names none. */
  const DefaultNugetExe := ".nuget\\NuGet.exe"

  /** `getNugetExe()`: the configured executable whenever one is set, even an
      empty string; the default only when the setting is null. */
  function NugetExe(configured: Option<string>): (exe: string)
    ensures configured.Some? ==> exe == configured.value
    ensures configured.None? ==> exe == DefaultNugetExe
  {
    match configured
    case Some(path) => path
    case None => DefaultNugetExe
  }

  /** The verbosity is passed on exactly when it is set and non-empty, and then
      verbatim: it is not checked against Normal, Quiet or Detailed. */
  function VerbositySuffix(nugetVerbosity: Option<string>): (suffix: seq<Arg>)
    ensures suffix != [] <==> nugetVerbosity.Some? && nugetVerbosity.value != ""
    ensures suffix != [] ==> suffix == [Text(Verbosity), Text(nugetVerbosity.value)]
  {
    if nugetVerbosity.Some? && nugetVerbosity.value != "" then
      [Text(Verbosity), Text(nugetVerbosity.value)]
    else
      []
  }

  /** The verbosity that reaches the command line: a null and an empty setting
      both mean none. */
  function EffectiveVerbosity(nugetVerbosity: Option<string>): (r: Option<string>)
  {
    if nugetVerbosity.Some? && nugetVerbosity.value != "" then nugetVerbosity else None
  }

  /** The command line `singleExecute` builds: the executable, what the
      operation's `enrichArguments` appends, then the verbosity suffix. */
  function AssembleCommandLine(exe: string, operationArgs: seq<Arg>, nugetVerbosity: Option<string>): (r: seq<Arg>)
  {
    [Text(exe)] + operationArgs + VerbositySuffix(nugetVerbosity)
  }
}
