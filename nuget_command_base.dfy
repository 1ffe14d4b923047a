/**
 * NugetCommandBase and its two subclasses: one NuGet invocation, with its
 * bounded loop of attempts.
 *
 * Each attempt resets `failed`, builds the command line, launches the process
 * and waits. A wait that ends with an exit code sets `failed` to "the code is
 * not 0" and ends the loop; a wait that is interrupted leaves `failed` false and
 * moves on to the next attempt, if `retryCount` allows one. `execute` answers
 * `!failed` once the loop is over.
 */
module NugetCommandBase {
  import opened Wrappers
  import opened Host
  import opened NugetArguments
  import Repositories
  import PackCommand
  import RestoreCommand

  /** The value `retryCount` starts with. */
  const DefaultRetryCount := 1

  /** The subclass-specific part of a command. */
  datatype Operation =
    | PackNuspec(nuspecPath: FilePath, outputDirectory: FilePath)
    | RestoreProject(nugetRepository: Repositories.NugetRepository, projectPath: FilePath)

  /** What the operation's `enrichArguments` appends. */
  function OperationArguments(operation: Operation): (r: seq<Arg>)
  {
    match operation
    case PackNuspec(nuspecPath, outputDirectory) => PackCommand.PackArguments(nuspecPath, outputDirectory)
    case RestoreProject(nugetRepository, projectPath) => RestoreCommand.RestoreArguments(nugetRepository, projectPath)
  }

  // ---------------------------------------------------------------------------
  // Reading a command line back: the assembled line is unambiguous.
  // ---------------------------------------------------------------------------

  /** What the NuGet executable is asked to do by a command line. */
  datatype Request =
    | PackRequest(nuspecPath: FilePath, outputDirectory: FilePath)
    | RestoreRequest(projectPath: FilePath, source: string)

  datatype Invocation = Invocation(exe: string, request: Request, nugetVerbosity: Option<string>)

  /** The request an operation makes: a restore names only the repository's URL. */
  function RequestOf(operation: Operation): (r: Request)
  {
    match operation
    case PackNuspec(nuspecPath, outputDirectory) => PackRequest(nuspecPath, outputDirectory)
    case RestoreProject(nugetRepository, projectPath) => RestoreRequest(projectPath, nugetRepository.url)
  }

  /** The operation's four leading arguments, read back. */
  function ParseRequest(args: seq<Arg>): (r: Option<Request>)
    requires |args| == 4
  {
    if args[0] == Text("pack") && args[1].PathArg? && args[2] == Text("-OutputDirectory") && args[3].PathArg? then
      Some(PackRequest(args[1].path, args[3].path))
    else if args[0] == Text("restore") && args[1].PathArg? && args[2] == Text("-Source") && args[3].Text? then
      Some(RestoreRequest(args[1].path, args[3].text))
    else
      None
  }

  /** The verbosity suffix, read back: none, or `-Verbosity v` with v non-empty. */
  function ParseVerbosity(args: seq<Arg>): (r: Option<Option<string>>)
  {
    if args == [] then Some(None)
    else if |args| == 2 && args[0] == Text(Verbosity) && args[1].Text? && args[1].text != "" then
      Some(Some(args[1].text))
    else
      None
  }

  /** A whole command line, read back: executable, request, `-NonInteractive`,
      then the verbosity suffix. */
  function ParseCommandLine(cmds: seq<Arg>): (r: Option<Invocation>)
  {
    if |cmds| < 6 || !cmds[0].Text? || cmds[5] != Text(NonInteractive) then None
    else
      match (ParseRequest(cmds[1..5]), ParseVerbosity(cmds[6..]))
      case (Some(request), Some(nugetVerbosity)) => Some(Invocation(cmds[0].text, request, nugetVerbosity))
      case _ => None
  }

  /** Every assembled command line reads back as the executable, the
      operation's request and the effective verbosity: the executable comes
      first, the operation's five arguments follow unchanged and end with
      `-NonInteractive`, and only then comes `-Verbosity v`. */
  lemma {:induction false} ParseAssembled(exe: string, operation: Operation, nugetVerbosity: Option<string>)
    ensures ParseCommandLine(AssembleCommandLine(exe, OperationArguments(operation), nugetVerbosity))
            == Some(Invocation(exe, RequestOf(operation), EffectiveVerbosity(nugetVerbosity)))
  {
    var args := OperationArguments(operation);
    var suffix := VerbositySuffix(nugetVerbosity);
    var cmds := AssembleCommandLine(exe, args, nugetVerbosity);
    assert |args| == 5;
    assert cmds[0] == Text(exe);
    assert cmds[1..5] == args[..4];
    assert cmds[5] == args[4] == Text(NonInteractive);
    assert cmds[6..] == suffix;
    assert ParseRequest(args[..4]) == Some(RequestOf(operation));
    assert ParseVerbosity(suffix) == Some(EffectiveVerbosity(nugetVerbosity));
  }

  // ---------------------------------------------------------------------------
  // What `execute` does, stated over the launches' outcomes.
  // ---------------------------------------------------------------------------

  /** How many attempts the loop `tryNumber <= retryCount`, from tryNumber 1,
      allows at most. */
  function Tries(retryCount: int): (r: nat)
  {
    if retryCount < 0 then 0 else retryCount
  }

  /** An attempt with this outcome leaves `failed` set: only a completed
      process with a non-zero exit code does. */
  predicate LeavesFailed(o: Outcome)
  {
    o.Exit? && o.code != 0
  }

  /** Among the `tries` launches from launch number `start` on, the position of
      the first one that completes, if any. */
  function FirstCompleted(script: nat -> Outcome, start: nat, tries: nat): (r: Option<nat>)
    ensures r.Some? ==> r.value < tries && script(start + r.value).Exit?
    ensures r.Some? ==> forall k :: start <= k < start + r.value ==> script(k).Interrupted?
    ensures r.None? ==> forall k :: start <= k < start + tries ==> script(k).Interrupted?
    decreases tries
  {
    if tries == 0 then None
    else if script(start).Exit? then Some(0)
    else
      match FirstCompleted(script, start + 1, tries - 1)
      case None => None
      case Some(i) => Some(i + 1)
  }

  /** The number of attempts `execute` makes: up to and including the first
      that completes, or all it is allowed when every one is interrupted. */
  function AttemptCount(script: nat -> Outcome, start: nat, tries: nat): (n: nat)
    ensures n <= tries
    ensures tries > 0 ==> n > 0
  {
    match FirstCompleted(script, start, tries)
    case Some(i) => i + 1
    case None => tries
  }

  /** The value of `failed` when `execute` returns: decided by the first
      completed attempt; false when every attempt was interrupted, since each
      attempt clears the flag before waiting; untouched when no attempt is
      allowed at all. */
  function FailedAfter(script: nat -> Outcome, start: nat, tries: nat, failedBefore: bool): (r: bool)
  {
    match FirstCompleted(script, start, tries)
    case Some(i) => LeavesFailed(script(start + i))
    case None => if tries == 0 then failedBefore else false
  }

  /** With the default retry count the loop makes exactly one attempt, whatever
      it turns out to be: nothing is ever retried. */
  lemma DefaultRetryMakesOneAttempt(script: nat -> Outcome, start: nat, failedBefore: bool)
    ensures AttemptCount(script, start, Tries(DefaultRetryCount)) == 1
    ensures FailedAfter(script, start, Tries(DefaultRetryCount), failedBefore) == LeavesFailed(script(start))
  {
  }

  /** The loop stops at the first attempt that completes, and that attempt's
      exit code alone decides the answer. */
  lemma CompletedAttemptDecides(script: nat -> Outcome, start: nat, tries: nat, i: nat, failedBefore: bool)
    requires i < tries && script(start + i).Exit?
    requires forall k :: start <= k < start + i ==> script(k).Interrupted?
    ensures FirstCompleted(script, start, tries) == Some(i)
    ensures AttemptCount(script, start, tries) == i + 1
    ensures FailedAfter(script, start, tries, failedBefore) <==> script(start + i).code != 0
  {
  }

  /** When every allowed attempt is interrupted, all of them are made and the
      command still reports success. */
  lemma InterruptedAttemptsSucceed(script: nat -> Outcome, start: nat, tries: nat, failedBefore: bool)
    requires tries > 0
    requires forall k :: start <= k < start + tries ==> script(k).Interrupted?
    ensures AttemptCount(script, start, tries) == tries
    ensures !FailedAfter(script, start, tries, failedBefore)
  {
  }

  /** Once an attempt is made, what `failed` held before the call no longer
      matters: nothing leaks from an earlier execution. */
  lemma FailedFlagDoesNotLeak(script: nat -> Outcome, start: nat, tries: nat, before1: bool, before2: bool)
    requires tries > 0
    ensures FailedAfter(script, start, tries, before1) == FailedAfter(script, start, tries, before2)
  {
  }

  /** `n` copies of `x`. */
  function Repeat<T>(x: T, n: nat): (s: seq<T>)
    ensures |s| == n && forall i :: 0 <= i < n ==> s[i] == x
  {
    if n == 0 then [] else Repeat(x, n - 1) + [x]
  }

  // ---------------------------------------------------------------------------
  // The command object.
  // ---------------------------------------------------------------------------

  class NugetCommand {
    var retryCount: int
    const configuration: Repositories.NugetGlobalConfiguration
    const workDir: FilePath
    var failed: bool
    const nugetVerbosity: Option<string>
    const operation: Operation

    /** NugetPackCommand's constructor: the nuspec path and output directory
        are kept as given; the rest goes to the base. */
    constructor Pack(configuration: Repositories.NugetGlobalConfiguration, workDir: FilePath,
                     nuspecPath: FilePath, outputDirectory: FilePath, nugetVerbosity: Option<string>)
      ensures this.configuration == configuration && this.workDir == workDir
      ensures this.nugetVerbosity == nugetVerbosity
      ensures operation == PackNuspec(nuspecPath, outputDirectory)
      ensures retryCount == DefaultRetryCount && !failed
    {
      this.configuration := configuration;
      this.workDir := workDir;
      this.nugetVerbosity := nugetVerbosity;
      operation := PackNuspec(nuspecPath, outputDirectory);
      retryCount := DefaultRetryCount;
      failed := false;
    }

    /** NugetRestoreCommand's constructor: the repository and project path are
        kept as given; the rest goes to the base. */
    constructor Restore(configuration: Repositories.NugetGlobalConfiguration, workDir: FilePath,
                        nugetVerbosity: Option<string>, nugetRepository: Repositories.NugetRepository,
                        projectPath: FilePath)
      ensures this.configuration == configuration && this.workDir == workDir
      ensures this.nugetVerbosity == nugetVerbosity
      ensures operation == RestoreProject(nugetRepository, projectPath)
      ensures retryCount == DefaultRetryCount && !failed
    {
      this.configuration := configuration;
      this.workDir := workDir;
      this.nugetVerbosity := nugetVerbosity;
      operation := RestoreProject(nugetRepository, projectPath);
      retryCount := DefaultRetryCount;
      failed := false;
    }

    /** The command line every attempt launches. */
    function CommandLine(): (r: seq<Arg>)
    {
      AssembleCommandLine(NugetExe(configuration.nugetExe), OperationArguments(operation), nugetVerbosity)
    }

    function IsFailed(): (r: bool)
      reads this
    {
      failed
    }

    /** `isSuccess()` is always the negation of `isFailed()`. */
    function IsSuccess(): (success: bool)
      reads this
      ensures success <==> !IsFailed()
    {
      !IsFailed()
    }

    /** `enrichArguments`, dispatched on the subclass. */
    method EnrichArguments(builder: ArgumentListBuilder)
      modifies builder
      ensures builder.args == old(builder.args) + OperationArguments(operation)
    {
      match operation
      case PackNuspec(nuspecPath, outputDirectory) =>
        PackCommand.EnrichArguments(builder, nuspecPath, outputDirectory);
      case RestoreProject(nugetRepository, projectPath) =>
        RestoreCommand.EnrichArguments(builder, nugetRepository, projectPath);
    }

    /** `HandleResult`: a completed process failed exactly when its exit code
        is not 0. */
    method HandleResult(result: int)
      modifies this`failed
      ensures failed <==> result != 0
    {
      failed := result != 0;
    }

    /** `singleExecute`: one attempt. It clears `failed`, launches the command
        line in the working directory, and either records the exit code or
        reports the interruption (the InterruptedException), with `failed`
        still false. */
    method SingleExecute(launcher: Launcher) returns (interrupted: bool)
      modifies this`failed, launcher
      ensures launcher.launched == old(launcher.launched) + [Launch(CommandLine(), workDir)]
      ensures interrupted <==> launcher.script(|old(launcher.launched)|).Interrupted?
      ensures failed == LeavesFailed(launcher.script(|old(launcher.launched)|))
    {
      failed := false;
      var builder := new ArgumentListBuilder(NugetExe(configuration.nugetExe));
      EnrichArguments(builder);
      if nugetVerbosity.Some? && nugetVerbosity.value != "" {
        builder.Add(Text(Verbosity));
        builder.Add(Text(nugetVerbosity.value));
      }
      assert builder.args == CommandLine();
      var outcome := launcher.Join(builder.args, workDir);
      match outcome
      case Interrupted =>
        interrupted := true;
      case Exit(code) =>
        HandleResult(code);
        interrupted := false;
    }

    /** `execute`: attempts until one completes or `retryCount` attempts were
        made, then answers `isSuccess()`. */
    method Execute(launcher: Launcher) returns (success: bool)
      modifies this`failed, launcher
      ensures launcher.launched == old(launcher.launched) +
        Repeat(Launch(CommandLine(), workDir),
               AttemptCount(launcher.script, |old(launcher.launched)|, Tries(retryCount)))
      ensures failed == FailedAfter(launcher.script, |old(launcher.launched)|, Tries(retryCount), old(failed))
      ensures success == !failed
    {
      ghost var start := |launcher.launched|;
      ghost var launch := Launch(CommandLine(), workDir);
      ghost var tries := Tries(retryCount);
      ghost var made: nat := 0;
      var tryNumber := 1;
      var executed := false;
      while !executed && tryNumber <= retryCount
        invariant made == (if executed then tryNumber else tryNumber - 1)
        invariant made <= tries
        invariant launcher.launched == old(launcher.launched) + Repeat(launch, made)
        invariant !executed ==> forall k :: start <= k < start + made ==> launcher.script(k).Interrupted?
        invariant !executed ==> failed == (if made == 0 then old(failed) else false)
        invariant executed ==> FirstCompleted(launcher.script, start, tries) == Some(made - 1)
        invariant executed ==> failed == LeavesFailed(launcher.script(start + made - 1))
        decreases retryCount - tryNumber + (if executed then 0 else 1)
      {
        var interrupted := SingleExecute(launcher);
        made := made + 1;
        if interrupted {
          tryNumber := tryNumber + 1;
        } else {
          CompletedAttemptDecides(launcher.script, start, tries, made - 1, old(failed));
          executed := true;
        }
      }
      if !executed {
        InterruptedOrNone(launcher.script, start, tries, old(failed));
      }
      success := IsSuccess();
    }
  }

  /** When none of the allowed attempts completes, all of them are made. */
  lemma InterruptedOrNone(script: nat -> Outcome, start: nat, tries: nat, failedBefore: bool)
    requires forall k :: start <= k < start + tries ==> script(k).Interrupted?
    ensures FirstCompleted(script, start, tries) == None
    ensures AttemptCount(script, start, tries) == tries
    ensures FailedAfter(script, start, tries, failedBefore) == (if tries == 0 then failedBefore else false)
  {
  }
}
