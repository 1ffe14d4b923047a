/**
 * NugetRestoreCommand: the arguments of `nuget restore`.
 */
module RestoreCommand {
  import opened Host
  import NugetArguments
  import Repositories

  /** The five arguments `enrichArguments` appends for a restore; the package
      source is the repository's URL. */
  function RestoreArguments(nugetRepository: Repositories.NugetRepository, projectPath: FilePath): (r: seq<Arg>)
  {
    [Text("restore"), PathArg(projectPath), Text("-Source"), Text(nugetRepository.url),
     Text(NugetArguments.NonInteractive)]
  }

  /** `enrichArguments`: appends to what the builder already holds, and leaves
      that prefix alone. The repository is a non-null value here; a missing one
      is caught before a command is ever built (see RestoreBuilder.Perform). */
  method EnrichArguments(builder: ArgumentListBuilder, nugetRepository: Repositories.NugetRepository, projectPath: FilePath)
    modifies builder
    ensures builder.args == old(builder.args) + RestoreArguments(nugetRepository, projectPath)
  {
    builder.Add(Text("restore"));
    builder.Add(PathArg(projectPath));
    builder.Add(Text("-Source"));
    builder.Add(Text(nugetRepository.url));
    builder.Add(Text(NugetArguments.NonInteractive));
  }
}
