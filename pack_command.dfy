/**
 * NugetPackCommand: the arguments of `nuget pack`.
 */
module PackCommand {
  import opened Host
  import NugetArguments

  /** The five arguments `enrichArguments` appends for a pack. */
  function PackArguments(nuspecPath: FilePath, outputDirectory: FilePath): (r: seq<Arg>)
  {
    [Text("pack"), PathArg(nuspecPath), Text("-OutputDirectory"), PathArg(outputDirectory),
     Text(NugetArguments.NonInteractive)]
  }

  /** `enrichArguments`: appends to what the builder already holds, and leaves
      that prefix alone. */
  method EnrichArguments(builder: ArgumentListBuilder, nuspecPath: FilePath, outputDirectory: FilePath)
    modifies builder
    ensures builder.args == old(builder.args) + PackArguments(nuspecPath, outputDirectory)
  {
    builder.Add(Text("pack"));
    builder.Add(PathArg(nuspecPath));
    builder.Add(Text("-OutputDirectory"));
    builder.Add(PathArg(outputDirectory));
    builder.Add(Text(NugetArguments.NonInteractive));
  }
}
