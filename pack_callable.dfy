/**
 * NugetPackCallable: runs one pack command per matched nuspec file, in match
 * order, on the agent that holds the workspace.
 */
module PackCallable {
  import opened Wrappers
  import opened Host
  import opened NugetArguments
  import opened NugetCommandBase
  import Repositories
  import PackCommand
  import opened PackResults

  /** The command line of the pack command for one nuspec path. */
  function PackCommandLine(configuration: Repositories.NugetGlobalConfiguration, nugetVerbosity: Option<string>,
                           nuspecPath: string, outputDirectory: FilePath): (r: seq<Arg>)
  {
    AssembleCommandLine(NugetExe(configuration.nugetExe),
                        PackCommand.PackArguments(Local(nuspecPath), outputDirectory), nugetVerbosity)
  }

  /** One launch per nuspec path, in order, all in the workspace and all with
      the same output directory. */
  function PackLaunches(configuration: Repositories.NugetGlobalConfiguration, nugetVerbosity: Option<string>,
                        nuspecPaths: seq<string>, outputDirectory: FilePath, workspace: FilePath): (launches: seq<Launch>)
    ensures |launches| == |nuspecPaths|
  {
    if nuspecPaths == [] then []
    else
      PackLaunches(configuration, nugetVerbosity, nuspecPaths[..|nuspecPaths| - 1], outputDirectory, workspace)
      + [Launch(PackCommandLine(configuration, nugetVerbosity, nuspecPaths[|nuspecPaths| - 1], outputDirectory), workspace)]
  }

  /** Launch i packs nuspec path i, in the workspace, into the shared output
      directory. */
  lemma {:induction false} PackLaunchesAt(configuration: Repositories.NugetGlobalConfiguration,
                                          nugetVerbosity: Option<string>, nuspecPaths: seq<string>,
                                          outputDirectory: FilePath, workspace: FilePath, i: nat)
    requires i < |nuspecPaths|
    ensures PackLaunches(configuration, nugetVerbosity, nuspecPaths, outputDirectory, workspace)[i]
         == Launch(PackCommandLine(configuration, nugetVerbosity, nuspecPaths[i], outputDirectory), workspace)
    decreases |nuspecPaths|
  {
    var last := |nuspecPaths| - 1;
    if i < last {
      PackLaunchesAt(configuration, nugetVerbosity, nuspecPaths[..last], outputDirectory, workspace, i);
    }
  }

  lemma PackLaunchesStep(configuration: Repositories.NugetGlobalConfiguration, nugetVerbosity: Option<string>,
                         nuspecPaths: seq<string>, i: nat, outputDirectory: FilePath, workspace: FilePath)
    requires i < |nuspecPaths|
    ensures PackLaunches(configuration, nugetVerbosity, nuspecPaths[..i + 1], outputDirectory, workspace)
         == PackLaunches(configuration, nugetVerbosity, nuspecPaths[..i], outputDirectory, workspace)
            + [Launch(PackCommandLine(configuration, nugetVerbosity, nuspecPaths[i], outputDirectory), workspace)]
  {
    assert nuspecPaths[..i + 1][..i] == nuspecPaths[..i];
  }

  /** One iteration of `invoke`'s loop: build the pack command for one path,
      execute it once (the default retry count allows no more) and wrap the
      answer in a result. */
  method PackOne(configuration: Repositories.NugetGlobalConfiguration, nugetVerbosity: Option<string>,
                 nuspecPath: string, outputDirectory: FilePath, workspace: FilePath, launcher: Launcher)
    returns (result: NugetPackResult)
    modifies launcher
    ensures fresh(result) && result.GetNuspecFile() == nuspecPath
    ensures result.IsSuccess() == !LeavesFailed(launcher.script(|old(launcher.launched)|))
    ensures launcher.launched == old(launcher.launched) +
      [Launch(PackCommandLine(configuration, nugetVerbosity, nuspecPath, outputDirectory), workspace)]
  {
    var packCommand := new NugetCommand.Pack(configuration, workspace, Local(nuspecPath),
                                             outputDirectory, nugetVerbosity);
    DefaultRetryMakesOneAttempt(launcher.script, |launcher.launched|, packCommand.failed);
    var success := packCommand.Execute(launcher);
    result := new NugetPackResult(nuspecPath, success);
  }

  /** `invoke`: for the matched nuspec paths (the Ant glob is done by the host
      and given here as `nuspecPaths`), resolve the output directory against
      the workspace unless it is absolute, then pack each path once. Result i
      carries path i and the answer of its command's `execute`. */
  method Invoke(configuration: Repositories.NugetGlobalConfiguration, nugetVerbosity: Option<string>,
                nuspecPaths: seq<string>, outputDirectory: string, workspace: FilePath,
                fs: FileSystem, launcher: Launcher)
    returns (results: seq<NugetPackResult>)
    modifies launcher
    ensures |results| == |nuspecPaths|
    ensures forall i :: 0 <= i < |results| ==>
      && fresh(results[i])
      && results[i].GetNuspecFile() == nuspecPaths[i]
      && results[i].IsSuccess() == !LeavesFailed(launcher.script(|old(launcher.launched)| + i))
    ensures launcher.launched == old(launcher.launched) +
      PackLaunches(configuration, nugetVerbosity, nuspecPaths, Resolve(fs, workspace, outputDirectory), workspace)
  {
    var outputDirectoryFilePath := Resolve(fs, workspace, outputDirectory);
    ghost var start := |launcher.launched|;
    results := [];
    for i := 0 to |nuspecPaths|
      invariant |results| == i
      invariant forall j :: 0 <= j < i ==>
        && fresh(results[j])
        && results[j].GetNuspecFile() == nuspecPaths[j]
        && results[j].IsSuccess() == !LeavesFailed(launcher.script(start + j))
      invariant launcher.launched == old(launcher.launched) +
        PackLaunches(configuration, nugetVerbosity, nuspecPaths[..i], outputDirectoryFilePath, workspace)
    {
      var result := PackOne(configuration, nugetVerbosity, nuspecPaths[i], outputDirectoryFilePath, workspace, launcher);
      results := results + [result];
      PackLaunchesStep(configuration, nugetVerbosity, nuspecPaths, i, outputDirectoryFilePath, workspace);
    }
    assert nuspecPaths[..|nuspecPaths|] == nuspecPaths;
  }
}
