/**
 * NugetRestoreBuilder: the "Restore NuGet packages" build step.
 */
module RestoreBuilder {
  import opened Wrappers
  import opened Host
  import opened NugetCommandBase
  import opened Repositories
  import RestoreCallable
  import opened RestoreResults

  /** The step as configured; the project path may still hold macros. */
  datatype NugetRestoreBuilder =
    NugetRestoreBuilder(nugetRepositoryName: Option<string>, nugetVerbosity: Option<string>, projectPath: string)

  const NoPackagesRestored := "No Nuget packages were restored."
  const RestoreErrors := "There were errors while restoring Nuget packages."

  /** `checkErrors`: an empty list aborts, and so does any unsuccessful result;
      the step passes exactly when the list is non-empty and every result
      succeeded. */
  method CheckErrors(results: seq<NugetRestoreResult>) returns (r: StepResult)
    ensures r == Aborted(NoPackagesRestored) <==> |results| == 0
    ensures r == Aborted(RestoreErrors) <==>
      |results| > 0 && exists i :: 0 <= i < |results| && !results[i].success
    ensures r == Completed <==>
      |results| > 0 && forall i :: 0 <= i < |results| ==> results[i].success
  {
    if |results| == 0 {
      return Aborted(NoPackagesRestored);
    }
    var i := 0;
    while i < |results|
      invariant 0 <= i <= |results|
      invariant forall j :: 0 <= j < i ==> results[j].success
    {
      if !results[i].success {
        return Aborted(RestoreErrors);
      }
      i := i + 1;
    }
    return Completed;
  }

  /** `perform`, with the project path already macro-expanded. The repository
      is looked up and its URL read (for the log line) before anything runs:
      an unknown name ends the step with a NullPointerException and no process
      is launched. Otherwise the one restore command runs in the workspace with
      the configured verbosity and the repository found, and `checkErrors`
      decides the step from its result. */
  method Perform(builder: NugetRestoreBuilder, expandedProjectPath: string, workspace: FilePath,
                 fs: FileSystem, configuration: NugetGlobalConfiguration, launcher: Launcher)
    returns (r: StepResult)
    modifies launcher
    ensures NoMatch(configuration.nugetRepositories, builder.nugetRepositoryName) ==>
      r == NullPointer && launcher.launched == old(launcher.launched)
    ensures forall i :: FirstMatchAt(configuration.nugetRepositories, builder.nugetRepositoryName, i) ==>
      && launcher.launched == old(launcher.launched) +
           [Launch(RestoreCallable.RestoreCommandLine(configuration, builder.nugetVerbosity,
                                                      configuration.nugetRepositories[i],
                                                      Resolve(fs, workspace, expandedProjectPath)),
                   workspace)]
      && r == (if LeavesFailed(launcher.script(|old(launcher.launched)|)) then Aborted(RestoreErrors) else Completed)
  {
    var projectFilePath := Resolve(fs, workspace, expandedProjectPath);
    var nugetRepository := Get(Some(configuration), builder.nugetRepositoryName);
    if nugetRepository.None? {
      // nugetRepository.getUrl() on null
      return NullPointer;
    }
    ghost var k :| FirstMatchAt(configuration.nugetRepositories, builder.nugetRepositoryName, k)
                   && configuration.nugetRepositories[k] == nugetRepository.value;
    forall i | FirstMatchAt(configuration.nugetRepositories, builder.nugetRepositoryName, i)
      ensures i == k
    {
      FirstMatchUnique(configuration.nugetRepositories, builder.nugetRepositoryName, i, k);
    }
    var results := RestoreCallable.Invoke(configuration, builder.nugetVerbosity, nugetRepository.value,
                                          projectFilePath, workspace, fs, launcher);
    r := CheckErrors(results);
  }
}
