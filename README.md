# Merged dependency deployer, modelled in Dafny

This project models the merged deployer of `cmake/merged_deploy.py`: the
functions `deploy(graph, output_folder)` and `_copytree(src, dst, ...)`.
When a dependency graph is deployed, the deployer:

- wipes and recreates `<output>/merged_deploy`;
- merges the package folder of every `build` dependency, then of every
  `host` dependency, into `merged_deploy/build/` or `merged_deploy/host/`,
  leaving out every entry named `licenses`, `conaninfo.txt` or
  `conanmanifest.txt` at any depth;
- copies each package's `licenses/` folder unfiltered to
  `<context>/licenses/<ref.name>/`;
- records the context folder as the dependency's deploy folder;
- logs an error line and moves on for a dependency without a package
  folder;
- stops with a dependency-named `ConanException` when a copy fails.

The model has these parts:

- `FileTree` (`file_tree.dfy`): the filesystem as a finite map from
  relative paths (sequences of names) to `File(bytes)` or `Dir`, kept
  parent-closed by `WellFormed`. It defines
  `shutil.copytree(src, dst, ignore=..., dirs_exist_ok=True)` as the pure
  function `CopyTree`, which returns the merged tree or a `Cause`.
- `MergedDeploy` (`merged_deploy.dfy`):
  - the dependency records, the environment (output folder, the
    `tools.deployer:symlinks` conf, what the operating system raises
    during each copy) and the messages;
  - the deployment as a fold (`MergeDep`, `MergeContext`,
    `MergeContexts`, `DeployResult`);
  - the class `MergedDeployer`, which owns the output tree, the deploy
    folders and the log. Its method `Deploy` has the source's two nested
    loops and its `continue`, and is proved equal to the fold.
    `GuardedCopyTree` is `_copytree`. Where `_copytree` raises
    `ConanException` (`cmake/merged_deploy.py:49`), `GuardedCopyTree`
    returns the error text and `Deploy` returns at once with the outcome
    `Aborted(text)`: the exception, which leaves `deploy` without running
    the rest of its loops or logging the success line.
- `DeployLayout` (`deploy_layout.dfy`): a reference description
  `Expected`, defined per path without replaying the copies. Each path
  under a context holds the entry of the last dependency that provides
  it. Each licence path holds the entry from the last dependency of that
  name. `DeployedTree` proves that every successful deployment leaves
  exactly this tree. Its corollaries are: last writer wins, the metadata
  filter, where licences go, and the separation of contexts.
- `DeployRecords` (`deploy_records.dfy`): which dependency records get a
  deploy folder, which lines are logged, where an aborted run stops, and
  what a second run does.
- `DeployMessages` (`deploy_messages.dfy`): the text of the raised error,
  the symlink hint, and the Windows privilege line.
- `DeployScenario` (`deploy_scenario.dfy`): a worked deployment with two
  host dependencies. `A` has no package folder. `B` holds `file.txt` and
  `licenses/LICENSE`.

Some behaviour of the code that is easy to misread:

- The filter `shutil.ignore_patterns(...)` (`cmake/merged_deploy.py:20`)
  matches names only, so it drops any entry named `licenses`,
  `conaninfo.txt` or `conanmanifest.txt`, whatever its kind and at any
  depth; a dropped directory takes its whole subtree with it.
- A dependency without a package folder is logged with `output.error`
  (`cmake/merged_deploy.py:26`), that is at error level.
- The symlink hint is appended to every copy error whenever symlinks are
  on (`cmake/merged_deploy.py:47-48`), whatever the cause.
- A privilege error logs its extra line (`cmake/merged_deploy.py:43-45`)
  and then raises the same wrapped error as any other failure
  (`cmake/merged_deploy.py:46-49`).

## Model

| member | source | states |
|---|---|---|
| MergedDeploy.SymlinksSetting | cmake/merged_deploy.py:39 | symlinks are on unless the conf is explicitly `False`; an unset conf means on |
| MergedDeploy.ContextName | cmake/merged_deploy.py:21-22 | each context's subfolder is `build` or `host` |
| MergedDeploy.PathJoin | cmake/merged_deploy.py:17-22 | `os.path.join` with POSIX separators: an absolute second part replaces the first, otherwise one `/` joins them; it builds the `merged_deploy` root, the deploy folders and the success message |
| MergedDeploy.Contains | cmake/merged_deploy.py:43 | Python's `pattern in s` on strings: `pattern` occurs at some position of `s`; `NoMarkerWithoutW` and `WindowsPrivilegeError` are proved about it |
| MergedDeploy.SkipMessage | cmake/merged_deploy.py:26 | the error text for a dependency without a package folder, `<ref> does not have a package folder, skipping`; `SkipLogNames` and `SkippedDependency` show it is logged |
| MergedDeploy.SuccessMessage | cmake/merged_deploy.py:35 | `Deployed dependencies to: <output>/merged_deploy`, logged by `DeployedRecords` after a full run |
| MergedDeploy.CopyErrorMessage | cmake/merged_deploy.py:46-48 | `merged_deploy: Copying of '<dep>' files failed: <e>.` with the symlink hint appended when symlinks are on; `CopyErrorContents` and `HintFollowsConf` state this |
| MergedDeploy.PrivilegeLog | cmake/merged_deploy.py:43-45 | the privilege line logged when the cause's text contains `WinError 1314`, and nothing otherwise; `PrivilegeLineOnlyForMarker` states this |
| MergedDeploy.GuardedCopy | cmake/merged_deploy.py:38-49 | `_copytree`: on success the tree becomes the copy's result; on failure the tree is kept, the privilege line is logged if it applies, and the pass raises the wrapped error; `GuardedCopyTree`, `MainFails` and `MainFaultAborts` are its contracts |
| MergedDeploy.LicenceSource | cmake/merged_deploy.py:30-31 | the licence copy happens when `<package>/licenses` exists: from its contents when it is a directory, as a failing file source otherwise; `LicenceCopyAt` proves both cases |
| MergedDeploy.LicenceStep | cmake/merged_deploy.py:30-33 | the unfiltered copy of `licenses/` to `<context>/licenses/<ref.name>`, or nothing; `LicenceStepRecords` and `LicenceTreeAt` are its contracts |
| MergedDeploy.MergeDep | cmake/merged_deploy.py:24-34 | one pass of the inner loop: skip with an error line, or main merge, licence copy and deploy folder, stopping at the first failing copy; `MergeDepRecords` and `MergeDepLayout` are its contracts |
| MergedDeploy.MergeContext | cmake/merged_deploy.py:24-34 | the inner loop over one context's dependencies in order, stopping at the first abort; `MergeContextRecords` and `MergeContextLayout` are its contracts |
| MergedDeploy.MkDir | cmake/merged_deploy.py:23 | `mkdir`, which leaves an existing path alone and otherwise adds a directory; `MkDirWellFormed` and `EnterContextLayout` are its contracts |
| MergedDeploy.EnterContext | cmake/merged_deploy.py:22-23 | making the context folder `<output>/merged_deploy/<context>` before its dependencies are merged |
| MergedDeploy.MergeContexts | cmake/merged_deploy.py:21-34 | the outer loop over `build` then `host`, stopping at the first abort; `MergeContextsOffset` and `DeployedUnder` are proved about it |
| MergedDeploy.DeployResult | cmake/merged_deploy.py:11-35 | the whole of `deploy`: start from an emptied `merged_deploy`, run both loops, and log the success line only when nothing was raised; `DeployedTree`, `DeployedRecords`, `AbortedRecords`, `FaultStopsDeployment` and `Deploy` are its contracts |
| MergedDeploy.MkDirWellFormed | cmake/merged_deploy.py:22-23 | creating a context folder keeps the tree a well-formed directory tree |
| MergedDeploy.MergedDeployer.constructor | cmake/merged_deploy.py:11-16 | a deployer starts over the existing, well-formed output, with no deploy folders set and an empty log, and satisfies its invariant |
| MergedDeploy.MergedDeployer.GuardedCopyTree | cmake/merged_deploy.py:38-49 | the copy either replaces the tree with the merged tree and raises nothing, or leaves the tree unchanged, appends the privilege line exactly when the cause requires it, and returns the wrapped error text; the tree stays well formed |
| MergedDeploy.MergedDeployer.Deploy | cmake/merged_deploy.py:11-35 | the final tree, deploy folders, log and outcome of the two nested loops are exactly those of the fold `DeployResult`, whose properties are proved below; the tree is well formed |
| FileTree.Filter | cmake/merged_deploy.py:20 | the filtered package is again a well-formed folder (an ignored directory takes its subtree with it); an entry is kept exactly when no component of its path is an ignored name, and keeps its content |
| FileTree.FilterNothing | cmake/merged_deploy.py:31-33 | copying with no `ignore` keeps every entry of the folder |
| FileTree.CopyTree | cmake/merged_deploy.py:41 | `shutil.copytree(src, dst, symlinks=..., ignore=..., dirs_exist_ok=True)`: fails with the operating system's error when one is raised, with "not a directory" for a file source, with "file exists" when a file lies on the way to `dst`, and when a copied directory meets an existing file; otherwise the old tree plus the directories to `dst` plus the filtered source under `dst`. Its properties are `CopyTreeAt`, `CopyTreeRaises`, `CopyTreeWellFormed`, `CopyTreeKeepsKinds` and `CopyTreeSucceeds` |
| FileTree.CauseText | cmake/merged_deploy.py:42-46 | `str(e)` of the exception a copy raised: the operating system's own text, or the model's texts for the failures it detects itself; `PrivilegeLineOnlyForMarker` and `CopyErrorContents` state how it reaches the log and the message |
| FileTree.MakeDirs | cmake/merged_deploy.py:41 | the destination and every directory leading to it exist as directories |
| FileTree.Shift | cmake/merged_deploy.py:41 | a path under `dst` is written exactly when its remainder is a source entry, with that entry's content |
| FileTree.Below | cmake/merged_deploy.py:31 | the contents of `<package>/licenses`, relative to it, form a well-formed tree |
| FileTree.Blocking | cmake/merged_deploy.py:41 | exactly the regular files among the directories `dst` needs |
| FileTree.Clashes | cmake/merged_deploy.py:41 | every destination path where a copied entry and an existing entry differ in kind, and only those |
| FileTree.CopyTreeAt | cmake/merged_deploy.py:41 | after a successful copy, every kept source entry is at `dst` plus its relative path (overwriting), the directories to `dst` exist, and every other path is unchanged |
| FileTree.CopyTreeKeepsKinds | cmake/merged_deploy.py:41 | a successful merging copy never turns a file into a directory or the reverse |
| FileTree.CopyTreeParent | cmake/merged_deploy.py:41 | every entry left by a successful copy has a directory as its parent |
| FileTree.CopyTreeWellFormed | cmake/merged_deploy.py:41 | a successful copy into a well-formed tree leaves a well-formed tree |
| FileTree.CopyTreeRaises | cmake/merged_deploy.py:41-42 | a copy fails with an operating system error exactly when the operating system raised one, and then with that error |
| FileTree.MergedAt | cmake/merged_deploy.py:41 | the merged tree holds the shifted source entry under `dst`, a directory on the way to `dst`, and the old entry elsewhere |
| FileTree.CopyTreeSucceeds | cmake/merged_deploy.py:41 | a copy with no fault, no blocking file and no clash succeeds with the merged tree |
| DeployLayout.MainMergeAt | cmake/merged_deploy.py:28-29 | the main merge writes the package's kept entries under `<context>/`, creates `<context>/`, leaves everything else in place, and changes no record or log |
| DeployLayout.MainCopyOutside | cmake/merged_deploy.py:28-29 | the main merge changes nothing outside its context folder |
| DeployLayout.MainCopyInside | cmake/merged_deploy.py:28-29 | inside the context folder the main merge writes exactly the kept package entries |
| DeployLayout.LicenceCopiedAt | cmake/merged_deploy.py:31-32 | the licence copy puts `licenses/p` of the package at `<context>/licenses/<name>/p` |
| DeployLayout.LicenceTreeAt | cmake/merged_deploy.py:31-33 | a successful licence copy writes the whole licence folder, unfiltered, under `<context>/licenses/<name>/` and nothing outside the context |
| DeployLayout.LicenceCopyAt | cmake/merged_deploy.py:30-33 | with a `licenses` directory the licence copy places it; without one nothing licence-related is written |
| DeployLayout.ExpectedAtExtend | cmake/merged_deploy.py:24-33 | one more dependency with a package changes the description at exactly the paths it provides and its licence paths |
| DeployLayout.ExpectedAtSkip | cmake/merged_deploy.py:25-27 | a dependency without a package folder changes nothing in the description |
| DeployLayout.PackageLayout | cmake/merged_deploy.py:28-33 | the main merge followed by the licence copy keeps the context in line with the description |
| DeployLayout.MergeDepLayout | cmake/merged_deploy.py:24-34 | one pass of the inner loop keeps its context in line with the description and leaves the other context alone |
| DeployLayout.MergeContextLayout | cmake/merged_deploy.py:24-34 | the whole inner loop leaves its context folder as the description of its dependencies and touches nothing outside it |
| DeployLayout.EnterContextLayout | cmake/merged_deploy.py:22-23 | a freshly made context folder is empty and nothing else changes |
| DeployLayout.DeployedTree | cmake/merged_deploy.py:17-35 | every path of a successful deployment holds exactly what `Expected(graph)` says, whatever the output folder held before |
| DeployLayout.DeployedUnder | cmake/merged_deploy.py:21-23 | under `<context>/` the deployed tree is the description of that context's dependencies alone |
| DeployLayout.ProvidedByLast | cmake/merged_deploy.py:24 | the description takes a path's entry from the last dependency that provides it |
| DeployLayout.ProvidedByNone | cmake/merged_deploy.py:24 | a path no dependency provides has no entry in the description |
| DeployLayout.ProvidedIsKept | cmake/merged_deploy.py:20 | whatever the main merge provides has no ignored component |
| DeployLayout.LicenceProvidedByLast | cmake/merged_deploy.py:30-33 | a licence path's entry comes from the last dependency of that name that has it |
| DeployLayout.NoLicenceDirs | cmake/merged_deploy.py:30 | without licence folders the description has no licence names and no licence entries |
| DeployLayout.LastProviderWins | cmake/merged_deploy.py:24-29 | where several dependencies of a context provide a path, the merged tree holds the last one's entry |
| DeployLayout.UnprovidedPathAbsent | cmake/merged_deploy.py:17-19 | a path that no dependency provides is absent after deployment: nothing survives from earlier content |
| DeployLayout.MetadataNeverMerged | cmake/merged_deploy.py:20-29 | every deployed path is under `build/` or `host/`, and outside `licenses/` none has a component named `licenses`, `conaninfo.txt` or `conanmanifest.txt` |
| DeployLayout.LicencesPlaced | cmake/merged_deploy.py:30-33 | each licence file of a dependency is at `<context>/licenses/<name>/`, unfiltered; the last dependency of that name wins |
| DeployLayout.NoLicencesNoLicenceFolder | cmake/merged_deploy.py:30-33 | when no dependency of a context has a licence folder, nothing is written under `<context>/licenses/` |
| DeployLayout.ContextsKeptApart | cmake/merged_deploy.py:21-23 | each context's part of the tree depends only on that context's dependencies |
| DeployRecords.Assigned | cmake/merged_deploy.py:34 | exactly the dependencies of the range that have a package are mapped, each to its context folder |
| DeployRecords.MergeDepRecords | cmake/merged_deploy.py:24-49 | a completed pass logs the skip line exactly for a missing package, sets the deploy folder exactly for a present one, and met no operating system fault; a failing pass has a package, sets no folder, logs only the privilege line of its cause, and that cause is exactly the failure of the copy that failed (`RaisedBy`): the main merge's on the tree it started from, else the licence copy's on the tree the main merge left, which the aborted pass keeps |
| DeployRecords.MainFails | cmake/merged_deploy.py:28-29 | a failing main merge aborts the pass with its own cause, its privilege line and its error |
| DeployRecords.MainPasses | cmake/merged_deploy.py:28-34 | after a successful main merge the pass is the licence step, followed by setting the deploy folder when that goes on |
| DeployRecords.LicenceStepRecords | cmake/merged_deploy.py:30-33 | the licence step changes no record or log when it goes on, and then met no fault; it aborts only with a licence folder, keeps the tree, and its cause is exactly the licence copy's failure on that tree, which is the licence copy's fault when it is an operating system error |
| DeployRecords.SkipContinues | cmake/merged_deploy.py:25-27 | a dependency without a package folder adds its error line and the pass goes on with nothing else changed |
| DeployRecords.MainFaultAborts | cmake/merged_deploy.py:28-49 | a fault raised by the main merge aborts the pass with exactly that fault's privilege line and wrapped error |
| DeployRecords.LicenceFaultAborts | cmake/merged_deploy.py:30-49 | a fault raised by the licence copy aborts the pass with exactly that fault's privilege line and wrapped error, keeping the merged tree |
| DeployRecords.MergeContextRecords | cmake/merged_deploy.py:24-49 | the inner loop either finishes with every packaged dependency's folder set, the skip lines logged in order and no fault met, or stops at the first failing dependency with only the earlier ones recorded, none of them faulted, and the failing copy's exact cause (`RaisedBy` on the tree the run ends with) in the log and the error |
| DeployRecords.RaisedByUnique | cmake/merged_deploy.py:40-42 | on a given tree the copies of a dependency raise one cause only, so the error text of an aborted run is fixed by the tree the failing copy saw |
| DeployRecords.RaisedByFaults | cmake/merged_deploy.py:40-42 | a raised cause is the main merge's operating system fault when it has one, else an operating system cause is the licence copy's fault and needs a licence folder |
| FileTree.CopyTreeAgain | cmake/merged_deploy.py:41 | repeating a successful merging copy onto its own result succeeds and changes nothing |
| DeployRecords.UnfaultedContext | cmake/merged_deploy.py:21-24 | when every dependency reached so far met no fault, neither did any that precedes the current one in the loop order |
| DeployRecords.DeployedRecords | cmake/merged_deploy.py:24-35 | a full run sets the deploy folders of all packaged dependencies and logs the build skips, the host skips and then the success line |
| DeployRecords.AbortedRecords | cmake/merged_deploy.py:21-49 | an aborted run stopped at one packaged dependency, with exactly the earlier records and skip lines, no fault in any earlier copy, and that dependency's error for exactly the cause its failing copy raised on the tree the run ends with |
| DeployRecords.FailedFolders | cmake/merged_deploy.py:34 | after a failure only the packaged dependencies reached before the failing one have deploy folders |
| DeployRecords.FailedLog | cmake/merged_deploy.py:35 | after a failure the log only grows, by error lines |
| DeployRecords.AbortStopsDeployment | cmake/merged_deploy.py:34-35 | once the run aborts, neither the failing dependency nor any later one gets a deploy folder, and the success line is not logged |
| DeployRecords.DeployedUnfaulted | cmake/merged_deploy.py:28-35 | a run that logs success met no operating system fault in any copy |
| DeployRecords.FaultStopsDeployment | cmake/merged_deploy.py:40-49 | a fault in any copy of a packaged dependency aborts the whole deployment, at that dependency or at an earlier one |
| DeployRecords.DeployFoldersSet | cmake/merged_deploy.py:34 | after a full run a record has a deploy folder exactly when it had one or has a package folder, and then it is its context folder |
| DeployRecords.SkippedDependency | cmake/merged_deploy.py:25-27 | in a run that completes, a dependency without a package folder is logged by its reference and gets no deploy folder |
| DeployRecords.SkipLogNames | cmake/merged_deploy.py:26 | the skip log names every dependency without a package folder |
| DeployRecords.SkipLogErrorsOnly | cmake/merged_deploy.py:26 | skip lines are all at error level |
| DeployRecords.GuardedCopyOffset | cmake/merged_deploy.py:38-49 | a copy from a state with earlier records in front is the same copy with those records in front |
| DeployRecords.MergeDepOffset | cmake/merged_deploy.py:24-34 | one pass from a state with earlier records in front is the same pass with those records in front |
| DeployRecords.MergeContextOffset | cmake/merged_deploy.py:24-34 | the inner loop from a state with earlier records in front is the same loop with those records in front |
| DeployRecords.MergeContextsOffset | cmake/merged_deploy.py:21-34 | the outer loop from a state with earlier records in front is the same loop with those records in front |
| DeployRecords.DeployOffset | cmake/merged_deploy.py:17-19 | a deployment from given records is the deployment from none with those records put in front |
| DeployRecords.DeployTwice | cmake/merged_deploy.py:17-19 | deploying twice gives the same tree, outcome and deploy folders, and logs the same lines again |
| DeployRecords.DeployIgnoresHistory | cmake/merged_deploy.py:17-19 | the tree and the outcome depend only on the graph and the environment |
| DeployMessages.CopyErrorContents | cmake/merged_deploy.py:46-48 | the error starts with the scope and the dependency, contains the cause's text, and ends with the symlink hint exactly when symlinks are on |
| DeployMessages.HintFollowsConf | cmake/merged_deploy.py:39-48 | the hint is there exactly when the conf is not explicitly `False` |
| DeployMessages.AbortMessage | cmake/merged_deploy.py:46-49 | an aborted deployment's message is the error for a packaged dependency, with the hint exactly when the conf allows symlinks |
| DeployMessages.NoMarkerWithoutW | cmake/merged_deploy.py:43 | a text without `W` never contains the privilege marker |
| DeployMessages.PrivilegeLineOnlyForMarker | cmake/merged_deploy.py:43-45 | the privilege line is logged exactly when the cause's text contains `WinError 1314`, once, and never for a failure the model detects itself |
| DeployMessages.WindowsPrivilegeError | cmake/merged_deploy.py:43-45 | the Windows symlink privilege error text does log the line |
| DeployScenario.MainMergeOfB | cmake/merged_deploy.py:28-29 | `B`'s main merge writes `host/file.txt` and nothing from its licence folder |
| DeployScenario.LicenceCopyOfB | cmake/merged_deploy.py:30-33 | `B`'s licence copy writes `host/licenses/B/LICENSE` |
| DeployScenario.MergeOfB | cmake/merged_deploy.py:24-34 | both copies of `B` succeed and `B` gets `host` as its deploy folder |
| DeployScenario.ScenarioDeployment | cmake/merged_deploy.py:11-35 | the scenario deploys `host/file.txt` and `host/licenses/B/LICENSE` with their directories, sets only `B`'s deploy folder, and logs `A`'s skip line and then the success line |
| DeployScenario.ScenarioLayout | cmake/merged_deploy.py:24-33 | read through the general theorems: `host/file.txt` and `host/licenses/B/LICENSE` hold `B`'s files and `host/LICENSE` does not exist |

## Left out

- `conanfile.py` is not part of this model: it is a declarative recipe with no logic of its own.
- The filesystem is a map from paths to file contents or directories. It has no permissions, timestamps, empty-root handling or path normalisation. `rmdir` followed by `mkdir` is modelled by starting from the empty tree.
- FileTree.CopyTree: the copy is atomic. A failing copy writes nothing, whereas `shutil.copytree` may leave what it wrote before the error. So after an abort the model's tree is the tree before the failing copy.
- FileTree.CopyTree: a source file that meets an existing directory of the same name fails the copy in the model with `EntryClashes`. Python's `copy2` instead writes the file inside that directory, at `<dst>/<p>/<name of p>`, and raises nothing unless that path is itself a directory. The model does not capture this redirection, so for such inputs a deployment that goes on in the source aborts in the model. A copied directory that meets an existing file does fail in both, through `os.makedirs`.
- FileTree.CauseText: for failures caused by the tree's shape (source not a directory, a file in the way of `os.makedirs`, a copied entry meeting an existing one of the other kind), the model uses its own short texts. The operating system's exact wording is not modelled.
- Operating system failures (permissions, disk, symlink privileges) come from the oracle `Env.osFault`, which is called once per copy. Symlinks themselves are not modelled: only the flag passed to `shutil.copytree`, and its effect on the message.
- `os.path.join` is modelled with POSIX separators. `fnmatch`'s case-insensitive matching on Windows is not modelled: names are compared exactly.
- `str(dep)` and `dep.ref` in messages are the opaque display text `Ref.display`. `dep.ref.name` is `Ref.name`.
- `ConanOutput` scoping and levels: the deployer's error lines and the root conanfile's success line go to one log with two line kinds. The `error_type="exception"` argument is not modelled.
- `conanfile.conf.get` is the optional boolean `Env.symlinksConf`. Its type check on a non-boolean value is not modelled.
- A package folder on disk is given as its contents, a `Folder`. `None` is a missing package folder.
- Dependency records are identified by context and position, and iteration order is the order of the given sequences. The resolver that produces them is not modelled.
- `dep.set_deploy_folder` is a write to the deployer's map of deploy folders, keyed by that identity.
