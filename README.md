# Salesforce delta deployment, modelled in Dafny

This project models the deployment script of a Salesforce DX repository.

- `deployments/deploy.js` runs once per CI build. In order, it:
  - validates its command-line arguments;
  - logs in to the org, with an auth URL or a JWT key;
  - reads the last deployed commit from the org's `Release_Log__c` records;
  - reads the head commit of the repository;
  - takes one of three paths.
- The three paths are:
  - **seed**: the org has no record, so the head commit is recorded as the starting point and the run fails;
  - **no changes**: the commit is recorded and the run succeeds;
  - **deploy**: the changed files are staged into a `deploy` folder, an optional snapshot is taken, the folder is deployed with the chosen test flag, the snapshot is saved, and the commit is recorded.
- `deployments/utils.js` supplies the helpers the run is built from:
  - `executeCmd` turns a command's exit status into an outcome;
  - `getChangedFiles` filters `git diff` output to the deployable source tree;
  - `createDeploymentFolder` is the staging loop, with its bundle, descriptor and primary-file rules;
  - `deployFiles` chooses the test flag;
  - `getLatestDeploymentLog` turns the query answer into the previous commit.

The modules follow the source:

| file | module | models |
|---|---|---|
| `wrappers.dfy` | `Wrappers` | `Option` and `Result` |
| `text.dfy` | `Text` | The string operations the scripts rely on: `split`, `split(sep)[0]`, `includes`, `path.dirname`, `trim`. |
| `change_list.dfy` | `ChangeList` | The filter of `getChangedFiles`. |
| `staging.dfy` | `Staging` | `createDeploymentFolder`. |
| `commands.dfy` | `Commands` | `executeCmd`, `deployFiles` and `getLatestDeploymentLog`. |
| `pipeline.dfy` | `Pipeline` | The whole of `deploy.js`. |

`createDeploymentFolder` changes the file system step by step, so it is modelled imperatively:

- The class `StagingFolder` holds the working tree and the staged folder. The staged folder is a map from `deploy/<path>` to file contents.
- `Stage` loops over the change list, and `CopyBundle` loops over a bundle directory.
- Both are proved against the declarative staging rule `Pulled`. A file is staged exactly when it exists and some changed file pulls it in, by one of three rules:
  - the file is itself changed;
  - it is in the same lwc or Aura bundle directory as a changed file, and its name does not start with `.` (`ls` does not list such names);
  - it is the `-meta.xml` descriptor of a changed file outside a bundle, or the primary file of a changed descriptor outside a bundle (for a bundle file the bundle rule takes precedence).
- Because every copy is no-clobber, the folder never overwrites what it already holds.

The run of `deploy.js` is pure in the model: a function from its arguments, a clock reading and a `World` to the trace of external actions it performs. The `World` gives each command's result and the parsed query answer.

Every trace satisfies three invariants:

- it ends with exactly one `Exit`;
- it stops at the first failing command, with status 1;
- it records a commit in the release log at most once.

There are lemmas for the three paths when every command succeeds, and one for a failed deploy.

The release log is updated only on the seed, no-changes and successful deploy paths. A failed command ends the run before the update; `FailedDeployNotRecorded` states this for a failed deploy.

## Model

| member | source | states |
|---|---|---|
| Text.Split | deployments/utils.js:95 | `split("\n")` yields at least one piece, none containing the separator, and joining the pieces with the separator gives back the input. |
| Text.SplitJoin | deployments/utils.js:95 | Round trip the other way: splitting the join of separator-free pieces gives back those pieces. |
| Text.SplitTrailing | deployments/utils.js:95 | A trailing separator adds exactly one empty last piece. |
| Text.BeforeFirst | deployments/utils.js:147 | `s.split(sep)[0]` is a prefix of `s` with no occurrence of `sep` in it. `sep` occurs in `s` iff it occurs right after the result, and the result is all of `s` when `sep` does not occur. |
| Text.Dirname | deployments/utils.js:125-127 | `path.dirname` is `"."` for a path without `/`. Otherwise it is the prefix before the last `/`. |
| Text.DirnameBasename | deployments/utils.js:127-129 | `dirname(p) + "/" + basename(p) == p` for a path with a `/`, which is how a listed bundle file is turned back into its path. |
| Text.Trim | deployments/utils.js:48 | `trim` removes only JavaScript white space, and from the two ends only. The result starts and ends with non-space (or is empty) and sits inside the input. |
| ChangeList.KeepDeployable | deployments/utils.js:98-100 | The filter keeps a line exactly when it is an input line containing `force-app/main/default`, and never adds lines. |
| ChangeList.KeepDeployableAppend | deployments/utils.js:98-100 | The filter distributes over concatenation, so kept lines keep their input order. |
| ChangeList.ChangedFiles | deployments/utils.js:95-103 | The changed files are exactly the deployable lines of the diff output, in order. Every one is non-empty, deployable and free of newlines. |
| ChangeList.ChangedFilesOfLines | deployments/utils.js:95-103 | For an output made of newline-joined lines, the changed files are the deployable lines themselves. |
| ChangeList.ChangedFilesTrailingNewline | deployments/utils.js:95-103 | The trailing newline of `git diff` output adds no changed file. |
| Staging.DeployPath | deployments/utils.js:112 | The staging location of a file is `deploy/` followed by its path. |
| Staging.DeployPathRoundTrip | deployments/utils.js:112 | Staging locations are exactly the `deploy/` paths, and the source path is recovered from one. |
| Staging.StageOneCopies | deployments/utils.js:110-155 | Staging one file copies, without clobbering, exactly the existing files its rule names: the file, its bundle siblings, or its descriptor or primary when not in the change list. |
| Staging.StageSeqCopies | deployments/utils.js:110-155 | Staging a prefix of the change list copies the union of what each file's rule names. |
| Staging.StagePolicy | deployments/utils.js:107-156 | Closed form of the staging loop: the folder is the old folder plus the existing files pulled in by the changed files. The "not already in the change list" guards do not change the result. |
| Staging.StageKeepsStaged | deployments/utils.js:119 | No-clobber: every entry already in the folder keeps its content. |
| Staging.StageAddsOnlyPulled | deployments/utils.js:110-155 | Every new entry is a `deploy/` path whose content is that of the working-tree file it names, and some changed file pulls that file in. |
| Staging.StageChangedFiles | deployments/utils.js:112-119 | Every changed file that exists is staged. |
| Staging.StageBundles | deployments/utils.js:122-135 | For a changed lwc or Aura file, every file of its directory that `ls` lists (every name not starting with `.`) is staged. |
| Staging.StageSkipsHidden | deployments/utils.js:119-135 | A hidden file of a bundle directory, which `ls` does not list, is staged only when it is itself in the change list. |
| Staging.StageDescriptors | deployments/utils.js:137-143 | For a changed non-bundle primary file, its existing `-meta.xml` descriptor is staged. |
| Staging.StagePrimaries | deployments/utils.js:145-153 | For a changed non-bundle descriptor, its existing primary file is staged. |
| Staging.StageOrderIndependent | deployments/utils.js:110 | The folder depends only on the set of changed files, not on their order or repetitions. |
| Staging.StageIdempotent | deployments/utils.js:107-156 | Staging the same change list again changes nothing. |
| Staging.LsInDir | deployments/utils.js:128-130 | The paths rebuilt from `ls(dirname(file))` are exactly the working-tree files of that directory whose names do not start with `.`. |
| Staging.StagingFolder.constructor | deployments/utils.js:107 | The folder starts empty over the given working tree. |
| Staging.StagingFolder.CopyNoClobber | deployments/utils.js:119 | `cp -n` copies an existing source only when the target is absent, and changes nothing else. |
| Staging.StagingFolder.CopyBundle | deployments/utils.js:122-135 | The directory loop leaves the folder equal to the old folder plus, without clobbering, every file `ls` lists in the directory. |
| Staging.StagingFolder.StageFile | deployments/utils.js:110-154 | One iteration of the staging loop has exactly the effect of the per-file rule. |
| Staging.StagingFolder.Stage | deployments/utils.js:107-156 | The staging loop leaves the folder equal to the old folder plus the pulled-in files (the closed form of `StagePolicy`). |
| Commands.ExecuteCmd | deployments/utils.js:248-261 | A command succeeds iff its status is 0, and then yields its stdout. A failure carries the caller's message when given, otherwise the tool's stderr. |
| Commands.SelectMode | deployments/utils.js:222-239 | Check-only iff `checkOnly` is `"yes"`, whatever the test level. Otherwise a test level iff it is one of the two recognised ones, and then that one. |
| Commands.DeployFlag | deployments/utils.js:222-239 | The flag is `--checkonly`, `-l RunLocalTests`, `-l RunAllTestsInOrg` or empty, by the same precedence. |
| Commands.DeployCommand | deployments/utils.js:241 | The deploy command always deploys the `deploy` folder verbosely and ends with the mode's flag. |
| Commands.DeployCommandInjective | deployments/utils.js:222-241 | Distinct modes give distinct deploy commands. |
| Commands.LatestDeploymentLog | deployments/utils.js:53-71 | A query fails iff its status is non-zero, with the fixed prefix plus its message. Otherwise the result is the first record's commit, or empty with no records. |
| Pipeline.DateTimeDropsFraction | deployments/deploy.js:32 | The build id's date-time is the timestamp cut just before its first `.`, with no `.` left in it. |
| Pipeline.CheckBuild | deployments/deploy.js:26-34 | A missing branch fails first, then a missing build number, each with its message. Otherwise the build id is `<branch>_build#<number>_<datetime>`. |
| Pipeline.CheckCredentials | deployments/deploy.js:36-53 | The credential check fails iff there is no auth URL and not both a username and a consumer key, and the message names the missing credential. An auth URL wins. JWT uses `server.key` and the login URL or the default. |
| Pipeline.Validate | deployments/deploy.js:26-53 | Build checks come before credential checks, and the first failure is reported. On success the settings carry the branch, build id, chosen auth and test mode, and the snapshot branch exactly when one is given, with its value. |
| Pipeline.Then | deployments/utils.js:248-261 | A failing command is followed only by an exit with status 1 and the outcome's message. A succeeding one is followed by the rest of the run. The exit, failure-stop and log-count invariants carry over. |
| Pipeline.RecordAndExit | deployments/utils.js:74-78 | Recording the commit updates the release log exactly once before the exit. |
| Pipeline.QueryStatusFails | deployments/utils.js:61-62 | A query answer with a non-zero status ends the run at once with status 1 and `Release_Log__c SOQL failed - ` plus its message. The head commit is not read and nothing is recorded. |
| Pipeline.FromQuery | deployments/deploy.js:57-92 | After login, every continuation ends with one exit, stops at the first failure, and records at most once. |
| Pipeline.Run | deployments/deploy.js:26-94 | Every run ends with exactly one exit, stops at the first failing command with status 1, and records at most one commit. A validation failure exits at once with its message, before authenticating. |
| Pipeline.SeedPath | deployments/deploy.js:88-92 | With no release-log record, the run authenticates, queries, reads the head, records the head commit and exits 1 with the seed message. Nothing is staged or deployed. |
| Pipeline.NoChangesPath | deployments/deploy.js:82-87 | With a previous commit and no deployable change, the run records the head commit and exits 0 without staging or deploying. |
| Pipeline.ChangesPath | deployments/deploy.js:61-81 | With deployable changes, the run stages exactly the changed files, takes the snapshot when configured, deploys with the chosen flag, saves the snapshot, records the head commit once and succeeds, in that order. |
| Pipeline.FailedDeployNotRecorded | deployments/deploy.js:75-81 | A failed deploy ends the run with the fixed remediation message rather than the tool's error, and no commit is recorded. |

## Left out

- Process execution, the shell command strings other than the deploy command, and console output (including colours and `setup`) are not modelled. Each command is an `Action` whose result the `World` supplies.
- Authentication (`authenticateOrg`, `authenticateOrgJWT`) is one `Authenticate` action. Writing the auth URL to a file before logging in is not modelled.
- `createOrgSnapshot`, `saveOrgSnapshot` and `createSnapshotFolder` are the `Snapshot` and `SaveSnapshot` actions only. Their git and retrieve steps are not modelled.
- `updateCommitVersion` is the `UpdateLog` action. The `Deployment_Date__c` timestamp it writes is not modelled.
- JSON parsing of the query output is not modelled. The query answer is given already parsed as a `QueryResult`.
- Pipeline.FromQuery: a missing `Last_Commit__c` or query `message` is taken as the empty string, where JavaScript would give `undefined`.
- The clock is an input, `now`, the ISO timestamp `toISOString` would return.
- Argument parsing by `minimist` is not modelled: arguments are strings or absent. Numeric coercion (for example a build number `0`, which JavaScript treats as false) and bare boolean flags are not captured.
- The `git diff` command's two forms are not distinguished. `DiffFiles` carries both commits, and its output is an input.
- Staging.StagingFolder: the staged folder holds files only. `mkdir -p` of parent directories has no counterpart, because directories are implicit in the paths.
- Staging.Siblings: bundle directories are taken as flat. The recursive copy of a subdirectory inside a bundle is not modelled. In particular, when a file directly under `lwc/` or `aura/` changes (such as `force-app/main/default/lwc/jsconfig.json`), the source's `ls` lists every component directory there and `cp -rn` copies them all; the model stages only the flat, non-hidden files of that directory.
- Text.Dirname: absolute paths and paths with a trailing `/` are not modelled, since `git diff --name-only` never outputs them.
- Staging.StagePolicy: the working tree is assumed to contain nothing under `deploy/`. The folder is a separate map, so the copying never reads its own output.
- Pipeline.ChangesPath: the `Stage` action records which files are staged. Its effect on the folder is `StagingFolder.Stage`, and the run does not call it.
- Concurrency and partial failures of the file system (a failing `cp`) are not modelled. A missing source file is a silent no-op, as with `cp`.
