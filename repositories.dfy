/**
 * NugetRepository: a named NuGet feed, and the lookup of a feed by name in the
 * global configuration.
 */
module Repositories {
  import opened Wrappers

  /** A configured feed. Both fields are final in the source, so the value is
      immutable and the getters return exactly what it was built with. The name
      may be null; the URL is taken to be present. */
  datatype NugetRepository = NugetRepository(name: Option<string>, url: string)

  /** The two settings of the plugin's global configuration that the core reads.
      NugetGlobalConfiguration.java is not part of this model. */
  datatype NugetGlobalConfiguration =
    NugetGlobalConfiguration(nugetExe: Option<string>, nugetRepositories: seq<NugetRepository>)

  /** `all()`: the configured feeds, or none when no Jenkins instance runs
      (`jenkins` is None). */
  function All(jenkins: Option<NugetGlobalConfiguration>): (available: seq<NugetRepository>)
    ensures jenkins.None? ==> available == []
    ensures jenkins.Some? ==> available == jenkins.value.nugetRepositories
  {
    match jenkins
    case None => []
    case Some(configuration) => configuration.nugetRepositories
  }

  /** No feed in `available` carries `name` (names compare null-safely). */
  predicate NoMatch(available: seq<NugetRepository>, name: Option<string>)
  {
    forall i :: 0 <= i < |available| ==> available[i].name != name
  }

  /** Index `i` holds the first feed in `available` whose name is `name`. */
  predicate FirstMatchAt(available: seq<NugetRepository>, name: Option<string>, i: int)
  {
    && 0 <= i < |available|
    && available[i].name == name
    && forall j :: 0 <= j < i ==> available[j].name != name
  }

  /** There is at most one first match. */
  lemma FirstMatchUnique(available: seq<NugetRepository>, name: Option<string>, i: int, k: int)
    requires FirstMatchAt(available, name, i) && FirstMatchAt(available, name, k)
    ensures i == k
  {
  }

  /** `get(name)`: a linear search of `all()` that returns the first feed whose
      name equals `name` (StringUtils.equals, so a null name matches a null
      name), and null (None) when there is none. */
  method Get(jenkins: Option<NugetGlobalConfiguration>, name: Option<string>)
    returns (r: Option<NugetRepository>)
    ensures r.None? <==> NoMatch(All(jenkins), name)
    ensures r.Some? ==> r.value.name == name
    ensures r.Some? ==> exists i :: FirstMatchAt(All(jenkins), name, i) && All(jenkins)[i] == r.value
  {
    var available := All(jenkins);
    var i := 0;
    while i < |available|
      invariant 0 <= i <= |available|
      invariant forall j :: 0 <= j < i ==> available[j].name != name
    {
      if name == available[i].name {
        assert FirstMatchAt(available, name, i);
        return Some(available[i]);
      }
      i := i + 1;
    }
    return None;
  }
}
