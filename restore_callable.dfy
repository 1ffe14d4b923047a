/**
 * NugetRestoreCallable: runs the one restore command of a build step on the
 * agent that holds the workspace.
 */
module RestoreCallable {
  import opened Wrappers
  import opened Host
  import opened NugetArguments
  import opened NugetCommandBase
  import Repositories
  import RestoreCommand
  import opened RestoreResults

  /** The command line of the restore command. */
  function RestoreCommandLine(configuration: Repositories.NugetGlobalConfiguration, nugetVerbosity: Option<string>,
                              nugetRepository: Repositories.NugetRepository, projectPath: FilePath): (r: seq<Arg>)
  {
    AssembleCommandLine(NugetExe(configuration.nugetExe),
                        RestoreCommand.RestoreArguments(nugetRepository, projectPath), nugetVerbosity)
  }

  /** `invoke`: builds exactly one restore command (workspace as working
      directory; the stored verbosity, repository and project path), executes
      it once, and returns a one-element list whose result carries the printed
      project path and the answer of `execute`. */
  method Invoke(configuration: Repositories.NugetGlobalConfiguration, nugetVerbosity: Option<string>,
                nugetRepository: Repositories.NugetRepository, projectPath: FilePath, workspace: FilePath,
                fs: FileSystem, launcher: Launcher)
    returns (results: seq<NugetRestoreResult>)
    modifies launcher
    ensures |results| == 1 && fresh(results[0])
    ensures results[0].GetProjectPath() == fs.render(projectPath)
    ensures results[0].IsSuccess() == !LeavesFailed(launcher.script(|old(launcher.launched)|))
    ensures launcher.launched == old(launcher.launched) +
      [Launch(RestoreCommandLine(configuration, nugetVerbosity, nugetRepository, projectPath), workspace)]
  {
    results := [];
    var restoreCommand := new NugetCommand.Restore(configuration, workspace, nugetVerbosity,
                                                   nugetRepository, projectPath);
    DefaultRetryMakesOneAttempt(launcher.script, |launcher.launched|, restoreCommand.failed);
    var success := restoreCommand.Execute(launcher);
    var result := new NugetRestoreResult(fs.render(projectPath), success);
    results := results + [result];
  }
}
