/**
 * NugetPackBuilder: the "Create NuGet packages" build step.
 */
module PackBuilder {
  import opened Wrappers
  import opened Host
  import opened NugetCommandBase
  import Repositories
  import PackCallable
  import opened PackResults

  /** The step as configured; the pattern and the output directory may still
      hold macros. */
  datatype NugetPackBuilder =
    NugetPackBuilder(failIfNoPackagesAreCreated: bool, nugetVerbosity: Option<string>,
                     nuspecPattern: string, outputDirectory: string)

  /** The log line "Finished creating <created>/<total> Nuget packages." */
  datatype Summary = Summary(created: nat, total: nat)

  const NoPackagesCreated := "No Nuget packages were created."

  /** The number of false entries. */
  function CountFalse(flags: seq<bool>): (n: nat)
    ensures n <= |flags|
    decreases |flags|
  {
    if flags == [] then 0
    else CountFalse(flags[..|flags| - 1]) + (if flags[|flags| - 1] then 0 else 1)
  }

  /** No failure is counted exactly when every entry is a success. */
  lemma {:induction false} CountFalseZero(flags: seq<bool>)
    ensures CountFalse(flags) == 0 <==> forall i :: 0 <= i < |flags| ==> flags[i]
    decreases |flags|
  {
    if flags != [] {
      var last := |flags| - 1;
      CountFalseZero(flags[..last]);
      assert forall i :: 0 <= i < last ==> flags[..last][i] == flags[i];
    }
  }

  /** Every entry is counted exactly when every entry is a failure. */
  lemma {:induction false} CountFalseAll(flags: seq<bool>)
    ensures CountFalse(flags) == |flags| <==> forall i :: 0 <= i < |flags| ==> !flags[i]
    decreases |flags|
  {
    if flags != [] {
      var last := |flags| - 1;
      CountFalseAll(flags[..last]);
      assert forall i :: 0 <= i < last ==> flags[..last][i] == flags[i];
    }
  }

  /** Turning one success into a failure adds exactly one to the count: the
      count follows the failures one for one. */
  lemma {:induction false} CountFalseFlip(flags: seq<bool>, k: nat)
    requires k < |flags| && flags[k]
    ensures CountFalse(flags[k := false]) == CountFalse(flags) + 1
    decreases |flags|
  {
    var last := |flags| - 1;
    if k < last {
      CountFalseFlip(flags[..last], k);
      assert flags[k := false][..last] == flags[..last][k := false];
    } else {
      assert flags[k := false][..last] == flags[..last];
    }
  }

  /** The `isSuccess()` of each result, in order. */
  function SuccessFlags(results: seq<NugetPackResult>): (flags: seq<bool>)
    reads set r | r in results
    ensures |flags| == |results|
    ensures forall i :: 0 <= i < |results| ==> flags[i] == results[i].success
  {
    seq(|results|, i reads set r | r in results requires 0 <= i < |results| => results[i].success)
  }

  /** The loop of `perform` that counts the results whose `isSuccess()` is
      false. */
  method CountFailures(results: seq<NugetPackResult>) returns (failCount: nat)
    ensures failCount == CountFalse(SuccessFlags(results))
  {
    ghost var flags := SuccessFlags(results);
    failCount := 0;
    for i := 0 to |results|
      invariant failCount == CountFalse(flags[..i])
    {
      assert flags[..i + 1][..i] == flags[..i];
      if !results[i].success {
        failCount := failCount + 1;
      }
    }
    assert flags[..|results|] == flags;
  }

  /** The number a string of decimal digits spells, most significant first. */
  function DecimalValue(s: string): (n: int)
    requires forall i :: 0 <= i < |s| ==> '0' <= s[i] <= '9'
    ensures n >= 0
    ensures s == [] ==> n == 0
    decreases |s|
  {
    if s == [] then 0
    else 10 * DecimalValue(s[..|s| - 1]) + (s[|s| - 1] as int - '0' as int)
  }

  /** A count in decimal, as Java prints a long: the digits spell `n` back,
      with no leading zero. */
  function DecimalString(n: nat): (s: string)
    ensures |s| > 0 && forall i :: 0 <= i < |s| ==> '0' <= s[i] <= '9'
    ensures DecimalValue(s) == n
    ensures |s| > 1 ==> s[0] != '0'
    decreases n
  {
    var prefix := if n < 10 then "" else DecimalString(n / 10);
    var s := prefix + [(('0' as int) + n % 10) as char];
    assert s[..|s| - 1] == prefix;
    s
  }

  /** "<n> error occured ..." for one failure, "<n> errors occured ..." otherwise. */
  function ErrorsMessage(failCount: nat): (r: string)
  {
    DecimalString(failCount) + ErrorsSuffix(failCount)
  }

  /** What follows the count: the singular for one failure, the plural otherwise. */
  function ErrorsSuffix(failCount: nat): (r: string)
    ensures |r| > 0 && r[0] == ' '
  {
    (if failCount == 1 then " error" else " errors") + " occured while creating Nuget packages."
  }

  /** A run of digits followed by text starting with a space is determined
      by the whole string. */
  lemma {:induction false} DigitsBeforeSpace(d1: string, t1: string, d2: string, t2: string)
    requires forall i :: 0 <= i < |d1| ==> '0' <= d1[i] <= '9'
    requires forall i :: 0 <= i < |d2| ==> '0' <= d2[i] <= '9'
    requires |t1| > 0 && t1[0] == ' ' && |t2| > 0 && t2[0] == ' '
    requires d1 + t1 == d2 + t2
    ensures d1 == d2
  {
    var m := d1 + t1;
    assert m[|d1|] == ' ' && m[|d2|] == ' ';
    assert forall k :: 0 <= k < |d2| ==> m[k] == d2[k];
    assert |d1| == |d2| by {
      if |d1| < |d2| {
        assert false;
      } else if |d2| < |d1| {
        assert false;
      }
    }
    assert d1 == m[..|d1|] == d2;
  }

  /** The abort message names the failure count: two counts with the same
      message are the same count. */
  lemma {:induction false} ErrorsMessageDeterminesCount(a: nat, b: nat)
    requires ErrorsMessage(a) == ErrorsMessage(b)
    ensures a == b
  {
    DigitsBeforeSpace(DecimalString(a), ErrorsSuffix(a), DecimalString(b), ErrorsSuffix(b));
  }

  /** `checkErrors`: first, no results with `failIfNoPackagesAreCreated` set
      aborts with its own message; then any failure aborts with the count.
      Everything else passes, in particular no results with the flag unset. */
  function CheckErrors(failIfNoPackagesAreCreated: bool, resultCount: nat, failCount: nat): (r: StepResult)
    ensures r == Aborted(NoPackagesCreated) <==> resultCount == 0 && failIfNoPackagesAreCreated
    ensures r == Completed <==> !(resultCount == 0 && failIfNoPackagesAreCreated) && failCount == 0
    ensures !(resultCount == 0 && failIfNoPackagesAreCreated) && failCount > 0 ==>
      r == Aborted(ErrorsMessage(failCount))
    ensures !r.NullPointer?
  {
    if resultCount == 0 && failIfNoPackagesAreCreated then Aborted(NoPackagesCreated)
    else if failCount > 0 then
      assert ErrorsMessage(failCount)[0] == DecimalString(failCount)[0];
      Aborted(ErrorsMessage(failCount))
    else Completed
  }

  /** Whether each of `n` single-attempt launches from `start` on leaves its
      command successful. */
  function AttemptSuccesses(script: nat -> Outcome, start: nat, n: nat): (flags: seq<bool>)
    ensures |flags| == n
  {
    seq(n, i requires 0 <= i < n => !LeavesFailed(script(start + i)))
  }

  /** When result i succeeded exactly when launch `start + i` left its command
      successful, the results' flags are those attempts' successes. */
  lemma SuccessFlagsOfAttempts(results: seq<NugetPackResult>, script: nat -> Outcome, start: nat)
    requires forall i :: 0 <= i < |results| ==> results[i].success == !LeavesFailed(script(start + i))
    ensures SuccessFlags(results) == AttemptSuccesses(script, start, |results|)
  {
  }

  /** `perform`, with the pattern's matches (the host's glob of the expanded
      pattern) and the expanded output directory given. Each match is packed
      once, the failures are counted, the summary reports the successes out of
      all results, and `checkErrors` decides the step. */
  method Perform(builder: NugetPackBuilder, matchedNuspecPaths: seq<string>, expandedOutputDirectory: string,
                 workspace: FilePath, fs: FileSystem, configuration: Repositories.NugetGlobalConfiguration,
                 launcher: Launcher)
    returns (summary: Summary, r: StepResult)
    modifies launcher
    ensures launcher.launched == old(launcher.launched) +
      PackCallable.PackLaunches(configuration, builder.nugetVerbosity, matchedNuspecPaths,
                                Resolve(fs, workspace, expandedOutputDirectory), workspace)
    ensures var failCount := CountFalse(AttemptSuccesses(launcher.script, |old(launcher.launched)|, |matchedNuspecPaths|));
      && summary == Summary(|matchedNuspecPaths| - failCount, |matchedNuspecPaths|)
      && r == CheckErrors(builder.failIfNoPackagesAreCreated, |matchedNuspecPaths|, failCount)
  {
    ghost var start := |launcher.launched|;
    var results := PackCallable.Invoke(configuration, builder.nugetVerbosity, matchedNuspecPaths,
                                       expandedOutputDirectory, workspace, fs, launcher);
    var failCount := CountFailures(results);
    SuccessFlagsOfAttempts(results, launcher.script, start);
    summary := Summary(|results| - failCount, |results|);
    r := CheckErrors(builder.failIfNoPackagesAreCreated, |results|, failCount);
  }
}
