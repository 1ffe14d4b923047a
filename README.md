# NuGet build steps for Jenkins: a verified model of the command layer

The Jenkins NuGet plugin adds two build steps, "Create NuGet packages" (pack) and
"Restore NuGet packages" (restore). Both wrap the external NuGet executable:

- a command object picks the executable and assembles an ordered argument list;
- its `execute` runs a bounded loop of attempts, one process launch each;
- a callable runs one command per matched nuspec file (pack) or one command for
  the project path (restore), producing an ordered list of results;
- the build step counts the failures and decides whether to abort.

This project models that layer in Dafny and proves what it does. The model
follows the Java code's structure:

- `NugetCommandBase` is one class `NugetCommand` whose `operation` field says
  which subclass it stands for. The named constructors `Pack` and `Restore` are
  the subclasses' constructors. Each subclass's `enrichArguments` lives in its
  own module.
- State that the Java code changes in place is class state: the `failed` flag,
  the argument builder, the mutable `success` of a result, and the log of
  process launches.
- Pure decisions are functions: the executable, the verbosity suffix, the pack
  step's `checkErrors` and the failure count.

The external world is a parameter:

- The process is the `Host.Launcher` oracle. `script(n)` says whether the n-th
  launch exits with a code or is interrupted, and `launched` records every
  command line and working directory in order.
- The Ant glob is the list of matched nuspec paths.
- Macro expansion is done beforehand: expanded strings are inputs.
- `FilePath.isAbsolute` and `FilePath.toString` are the host functions of
  `Host.FileSystem`.
- The configured executable, the verbosity and the repository name may be Java
  `null`: they are `Option` values.

## Behaviour of the code as written

The model follows the code. Four of its consequences may surprise a reader:

- The loop in `NugetCommandBase.execute` logs "Retrying: %d" and increments
  `tryNumber` after an interruption (NugetCommandBase.java:44-45). Yet
  `retryCount` starts at 1 (:20) and the loop condition `tryNumber <= retryCount`
  (:38) then allows no second attempt: an interrupted attempt is never retried
  (`DefaultRetryMakesOneAttempt`).
- A reader might expect a command that never ran to completion to count as a
  failure. But `singleExecute` clears `failed` before launching (:52), and only
  `handleResult` sets it, from an exit code. `execute` returns `isSuccess()`
  (:48), so a command whose attempts are all interrupted reports success
  (`InterruptedAttemptsSucceed`).
- `NugetRepository.get` returns null when no repository has the name
  (NugetRepository.java:50). The restore step reads that repository's URL for
  its log line (NugetRestoreBuilder.java:72), so an unknown name fails with a
  `NullPointerException` before any process is launched (`RestoreBuilder.Perform`).
- In both result classes only the file or path is `final`. `success` is a plain
  field with a public setter (NugetPackResult.java:13,28-30 and
  NugetRestoreResult.java:13,28-30), although nothing in this layer calls it.

## Model

| member | source | states |
|---|---|---|
| `Repositories.All` | src/main/java/org/jenkinsci/plugins/nuget/NugetRepository.java:34-41 | With no Jenkins instance, the list of repositories is empty. Otherwise it is the configured list. |
| `Repositories.Get` | src/main/java/org/jenkinsci/plugins/nuget/NugetRepository.java:43-51 | Returns None exactly when no repository has the queried name. Otherwise it returns the first repository in list order with that name. Names compare null-safely: a null query matches a null name. |
| `NugetArguments.NugetExe` | src/main/java/org/jenkinsci/plugins/nuget/utils/NugetCommandBase.java:89-95 | The configured executable whenever it is non-null, even an empty string. Otherwise the default `.nuget\NuGet.exe`. |
| `NugetArguments.VerbositySuffix` | src/main/java/org/jenkinsci/plugins/nuget/utils/NugetCommandBase.java:56-60 | `-Verbosity v` is added if and only if the verbosity is non-null and non-empty. The value goes through verbatim, with no check against Normal/Quiet/Detailed. |
| `NugetCommandBase.ParseAssembled` | src/main/java/org/jenkinsci/plugins/nuget/utils/NugetCommandBase.java:54-60 | The assembled command line reads back uniquely: first the executable, then the operation's arguments unchanged and ending in `-NonInteractive`, then the effective verbosity (null and empty both mean none). |
| `PackCommand.EnrichArguments` | src/main/java/org/jenkinsci/plugins/nuget/utils/NugetPackCommand.java:26-33 | Appends exactly `pack`, the nuspec path, `-OutputDirectory`, the output directory and `-NonInteractive`, in that order. What the builder already held stays as a prefix. |
| `RestoreCommand.EnrichArguments` | src/main/java/org/jenkinsci/plugins/nuget/utils/NugetRestoreCommand.java:27-34 | Appends exactly `restore`, the project path, `-Source`, the repository's URL and `-NonInteractive`, in that order. What the builder already held stays as a prefix. |
| `NugetCommandBase.NugetCommand.Pack` | src/main/java/org/jenkinsci/plugins/nuget/utils/NugetPackCommand.java:20-24 | Stores the nuspec path and output directory unchanged. Passes the work directory and verbosity to the base. `retryCount` is 1 and `failed` is false. |
| `NugetCommandBase.NugetCommand.Restore` | src/main/java/org/jenkinsci/plugins/nuget/utils/NugetRestoreCommand.java:21-25 | Stores the repository and project path unchanged. Passes the work directory and verbosity to the base. `retryCount` is 1 and `failed` is false. |
| `NugetCommandBase.NugetCommand.EnrichArguments` | src/main/java/org/jenkinsci/plugins/nuget/utils/NugetCommandBase.java:75 | Dispatches to the subclass: appends that operation's arguments and nothing else. |
| `NugetCommandBase.NugetCommand.HandleResult` | src/main/java/org/jenkinsci/plugins/nuget/utils/NugetCommandBase.java:71-73 | After a completed process, `failed` holds exactly when the exit code is not 0. |
| `NugetCommandBase.NugetCommand.IsSuccess` | src/main/java/org/jenkinsci/plugins/nuget/utils/NugetCommandBase.java:97-103 | `isSuccess` is always the negation of `isFailed`. |
| `NugetCommandBase.NugetCommand.SingleExecute` | src/main/java/org/jenkinsci/plugins/nuget/utils/NugetCommandBase.java:51-69 | One attempt launches the command line once, in the work directory. It reports an interruption exactly when the launch is interrupted. Afterwards `failed` holds only for a completed launch with a non-zero exit code. |
| `NugetCommandBase.NugetCommand.Execute` | src/main/java/org/jenkinsci/plugins/nuget/utils/NugetCommandBase.java:34-49 | Launches the same command line `AttemptCount` times. The final `failed` is `FailedAfter`, and the return value is its negation. |
| `NugetCommandBase.FirstCompleted` | src/main/java/org/jenkinsci/plugins/nuget/utils/NugetCommandBase.java:38-47 | Finds the first of the allowed attempts that completes, with every attempt before it interrupted. Returns None exactly when all allowed attempts are interrupted. |
| `NugetCommandBase.AttemptCount` | src/main/java/org/jenkinsci/plugins/nuget/utils/NugetCommandBase.java:35-47 | Never more attempts than `retryCount` allows. At least one whenever one is allowed. |
| `NugetCommandBase.DefaultRetryMakesOneAttempt` | src/main/java/org/jenkinsci/plugins/nuget/utils/NugetCommandBase.java:20-47 | With the default `retryCount` of 1, exactly one attempt is made. That attempt alone decides the answer, so nothing is retried. |
| `NugetCommandBase.CompletedAttemptDecides` | src/main/java/org/jenkinsci/plugins/nuget/utils/NugetCommandBase.java:38-48 | The loop stops at the first completed attempt. `execute` then answers true exactly when that attempt's exit code is 0. |
| `NugetCommandBase.InterruptedAttemptsSucceed` | src/main/java/org/jenkinsci/plugins/nuget/utils/NugetCommandBase.java:42-52 | When every allowed attempt is interrupted, all of them are made and `execute` answers true. |
| `NugetCommandBase.InterruptedOrNone` | src/main/java/org/jenkinsci/plugins/nuget/utils/NugetCommandBase.java:38-47 | When no allowed attempt completes, every allowed attempt is made. `failed` is then false, or unchanged when no attempt was allowed. |
| `NugetCommandBase.FailedFlagDoesNotLeak` | src/main/java/org/jenkinsci/plugins/nuget/utils/NugetCommandBase.java:51-52 | Once an attempt is made, the value `failed` had before `execute` no longer matters. |
| `PackResults.NugetPackResult.constructor` | src/main/java/org/jenkinsci/plugins/nuget/builders/NugetPackResult.java:15-18 | Afterwards `getNuspecFile` returns the given nuspec file and `isSuccess` the given success flag. |
| `PackResults.NugetPackResult.GetNuspecFile` | src/main/java/org/jenkinsci/plugins/nuget/builders/NugetPackResult.java:20-22 | Returns the nuspec file the result was built with, as the constructor's contract states through it. |
| `PackResults.NugetPackResult.IsSuccess` | src/main/java/org/jenkinsci/plugins/nuget/builders/NugetPackResult.java:24-26 | Returns the success flag last stored, by the constructor or by `SetSuccess`, as their contracts state through it. |
| `PackResults.NugetPackResult.SetSuccess` | src/main/java/org/jenkinsci/plugins/nuget/builders/NugetPackResult.java:28-30 | Afterwards `isSuccess` returns the new value. The nuspec file is a constant and cannot change. |
| `RestoreResults.NugetRestoreResult.constructor` | src/main/java/org/jenkinsci/plugins/nuget/builders/NugetRestoreResult.java:15-18 | Afterwards `getProjectPath` returns the given project path and `isSuccess` the given success flag. |
| `RestoreResults.NugetRestoreResult.GetProjectPath` | src/main/java/org/jenkinsci/plugins/nuget/builders/NugetRestoreResult.java:20-22 | Returns the project path the result was built with, as the constructor's contract states through it. |
| `RestoreResults.NugetRestoreResult.IsSuccess` | src/main/java/org/jenkinsci/plugins/nuget/builders/NugetRestoreResult.java:24-26 | Returns the success flag last stored, by the constructor or by `SetSuccess`, as their contracts state through it. |
| `RestoreResults.NugetRestoreResult.SetSuccess` | src/main/java/org/jenkinsci/plugins/nuget/builders/NugetRestoreResult.java:28-30 | Afterwards `isSuccess` returns the new value. The project path is a constant and cannot change. |
| `Host.Resolve` | src/main/java/org/jenkinsci/plugins/nuget/builders/NugetPackCallable.java:46-47 | An absolute output directory is used as it is. A relative one is resolved under the workspace. |
| `PackCallable.PackLaunches` | src/main/java/org/jenkinsci/plugins/nuget/builders/NugetPackCallable.java:49-60 | One launch per matched path. |
| `PackCallable.PackLaunchesAt` | src/main/java/org/jenkinsci/plugins/nuget/builders/NugetPackCallable.java:49-58 | Launch i packs matched path i into the shared output directory, with the workspace as working directory. |
| `PackCallable.PackOne` | src/main/java/org/jenkinsci/plugins/nuget/builders/NugetPackCallable.java:50-58 | One loop iteration: a single launch of the pack command, and a fresh result with the path and `execute`'s answer. |
| `PackCallable.Invoke` | src/main/java/org/jenkinsci/plugins/nuget/builders/NugetPackCallable.java:44-62 | There are as many results as matched paths, in match order. Result i carries path i and the answer of its single launch. Zero matches give no result and no launch. |
| `RestoreCallable.Invoke` | src/main/java/org/jenkinsci/plugins/nuget/builders/NugetRestoreCallable.java:41-54 | Exactly one restore launch in the workspace, using the stored verbosity, repository and project path. Exactly one result, carrying the printed project path and `execute`'s answer. |
| `PackBuilder.CountFalse` | src/main/java/org/jenkinsci/plugins/nuget/builders/NugetPackBuilder.java:77-82 | The failure count never exceeds the number of results. |
| `PackBuilder.CountFalseZero` | src/main/java/org/jenkinsci/plugins/nuget/builders/NugetPackBuilder.java:77-82 | The failure count is 0 exactly when every result succeeded. |
| `PackBuilder.CountFalseAll` | src/main/java/org/jenkinsci/plugins/nuget/builders/NugetPackBuilder.java:77-82 | The failure count equals the number of results exactly when every result failed. |
| `PackBuilder.CountFalseFlip` | src/main/java/org/jenkinsci/plugins/nuget/builders/NugetPackBuilder.java:77-82 | Turning one success into a failure raises the count by exactly one. |
| `PackBuilder.CountFailures` | src/main/java/org/jenkinsci/plugins/nuget/builders/NugetPackBuilder.java:76-82 | The counting loop returns the number of results whose `isSuccess` is false. |
| `PackBuilder.DecimalString` | src/main/java/org/jenkinsci/plugins/nuget/builders/NugetPackBuilder.java:93 | The count is written as a non-empty run of decimal digits, without a leading zero, whose value read back (`DecimalValue`) is the count itself. |
| `PackBuilder.ErrorsMessageDeterminesCount` | src/main/java/org/jenkinsci/plugins/nuget/builders/NugetPackBuilder.java:93 | The abort message names the failure count: two counts with the same message are the same count. |
| `PackBuilder.CheckErrors` | src/main/java/org/jenkinsci/plugins/nuget/builders/NugetPackBuilder.java:88-95 | The empty check comes first: no results with the flag set aborts with "No Nuget packages were created.". Then any failure aborts with the count, "error" for 1 and "errors" otherwise. Everything else passes, including no results with the flag unset. |
| `PackBuilder.Perform` | src/main/java/org/jenkinsci/plugins/nuget/builders/NugetPackBuilder.java:59-86 | Launches exactly the pack commands for the matches, in order. The summary is the successes out of all results. The step's outcome is `checkErrors` of the result count and the failure count. |
| `RestoreBuilder.CheckErrors` | src/main/java/org/jenkinsci/plugins/nuget/builders/NugetRestoreBuilder.java:83-92 | Aborts with "No Nuget packages were restored." exactly when the list is empty. Aborts with the errors message exactly when some result failed. Passes exactly when the list is non-empty and every result succeeded. |
| `RestoreBuilder.Perform` | src/main/java/org/jenkinsci/plugins/nuget/builders/NugetRestoreBuilder.java:60-81 | An unknown repository name ends the step with a NullPointerException before any launch. Otherwise the one restore command runs with the first matching repository and the configured verbosity, and the step passes exactly when that command succeeded. |

## Left out

- Process I/O: starting the process, streaming its output to the log, `customize` (the identity here) and an `IOException` from the launch. They are replaced by the launch oracle.
- Logging: every `println` and `error`, including the "Retrying" line. The pack summary counts are returned as `Summary` instead of printed.
- Macro expansion (`Util.replaceMacro`): a host call. The expanded strings are inputs.
- The Ant glob of `getFiles`: a host file-system scan. The matched paths are an input list.
- `FilePath` semantics: absolute-path detection, joining, normalisation and printing belong to the host library. Joining is kept symbolic (`Host.FilePath.Under`). The other two are host functions.
- Remoting and serialization (`MasterToSlaveFileCallable`, `workspace.act`): `act` becomes a direct call.
- UI and extension wiring: the `DescriptorImpl` classes, `doFill*Items`, `NugetUtils` and the builders' getters.
- Global configuration: the Jenkins singleton is an explicit `NugetGlobalConfiguration` value. A null configuration (which `getNugetExe` would dereference) is not modelled. `RestoreBuilder.Perform` reads its repositories through `All` from the same configuration it passes to the command.
- A null repository URL is not modelled: URLs are plain strings.
- The configured paths and patterns (`nuspecPattern`, `outputDirectory`, `projectPath`) are taken to be non-null, and so are their expansions. `Util.replaceMacro` passes a null through. A null project path then fails `new FilePath(workspace, null)` at NugetRestoreBuilder.java:68, ending the restore step before the repository lookup at :69. A null output directory fails the pack step the same way at NugetPackCallable.java:47. A null pattern reaches the Ant glob, which is not part of this model.
- `NugetCommandBase.NugetCommand.Execute`: does not model the wrap-around of the boxed `tryNumber`, which needs more than 2^31 interrupted attempts.
- `PackBuilder.CheckErrors`: takes the number of results instead of the list, since only its emptiness is read.
- The unused `PRE_RELEASE` constant.
