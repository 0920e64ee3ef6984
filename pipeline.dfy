/**
 * The deployment script `deployments/deploy.js`: argument validation, the
 * choice of authentication, and the run itself as the ordered list of
 * external actions it performs. The external world (what each command
 * returns, the release-log query answer, the clock) is an input; a run
 * ends with exactly one `Exit`.
 */
module Pipeline {
  import opened Wrappers
  import opened Text
  import opened Commands
  import ChangeList

  /** The command-line arguments; `None` when a flag was not given. */
  datatype Args = Args(
    buildNumber: Option<string>,
    branch: Option<string>,
    snapshotBranch: Option<string>,
    checkDeploy: Option<string>,
    testLevel: Option<string>,
    consumerKey: Option<string>,
    username: Option<string>,
    authUrl: Option<string>,
    loginUrl: Option<string>)

  /** JavaScript truthiness of an argument: given and not empty. */
  predicate Given(a: Option<string>) {
    a.Some? && a.value != ""
  }

  const KeyFileLocation: string := "server.key"
  const DefaultLoginUrl: string := "https://login.salesforce.com"

  const BranchRequired: string := "The current branch is required for deployment."
  const BuildNumberRequired: string := "The build Id is required for deployment."
  const UsernameRequired: string := "USERNAME is required for JWT authentication."
  const ConsumerKeyRequired: string := "CONSUMER_KEY is required for JWT authentication."
  const CredentialsRequired: string := "AUTH_URL or USERNAME/CONSUMER_KEY are required for org authentication."

  /** How the script logs in to the org. */
  datatype Auth =
    | UrlAuth(authUrl: string)
    | JwtAuth(keyFile: string, consumerKey: string, username: string, loginUrl: string)

  /** What validation yields for the rest of the run. */
  datatype Settings = Settings(
    branch: string,
    buildId: string,
    auth: Auth,
    snapshotBranch: Option<string>,
    mode: TestMode)

  /** The date and time of an ISO timestamp: the text before its first '.'. */
  function DateTime(timestamp: string): string {
    BeforeFirst(timestamp, ".")
  }

  /** The date-time part is the timestamp cut just before its fractional seconds. */
  lemma DateTimeDropsFraction(timestamp: string)
    ensures var d := DateTime(timestamp);
      IsPrefix(d, timestamp) && '.' !in d && (d == timestamp || timestamp[|d|] == '.')
  {
    var d := DateTime(timestamp);
    forall j | 0 <= j < |d|
      ensures d[j] != '.'
    {
      assert !OccursAt(timestamp, ".", j);
    }
    if d != timestamp {
      assert OccursAt(timestamp, ".", |d|);
    }
  }

  /** The build id `<branch>_build#<number>_<datetime>`. */
  function BuildId(branch: string, buildNumber: string, timestamp: string): string {
    branch + "_build#" + buildNumber + "_" + DateTime(timestamp)
  }

  /**
   * The branch and build-number checks: a missing branch fails first, then
   * a missing build number; otherwise the build id, stamped with `now`.
   */
  function CheckBuild(args: Args, now: string): (r: Result<string, string>)
    ensures !Given(args.branch) ==> r == Failure(BranchRequired)
    ensures Given(args.branch) && !Given(args.buildNumber) ==> r == Failure(BuildNumberRequired)
    ensures Given(args.branch) && Given(args.buildNumber) ==>
              r == Success(BuildId(args.branch.value, args.buildNumber.value, now))
  {
    if !Given(args.branch) then Failure(BranchRequired)
    else if !Given(args.buildNumber) then Failure(BuildNumberRequired)
    else Success(BuildId(args.branch.value, args.buildNumber.value, now))
  }

  /**
   * The credential checks and the choice of authentication. An auth URL
   * wins over JWT credentials; without one, both a username and a
   * consumer key are needed, and the message names the one missing (the
   * username when only the consumer key is given). JWT logs in at the given login URL or the
   * default one.
   */
  function CheckCredentials(args: Args): (r: Result<Auth, string>)
    ensures r.Failure? <==> !Given(args.authUrl) && !(Given(args.username) && Given(args.consumerKey))
    ensures !Given(args.authUrl) && !Given(args.username) && Given(args.consumerKey) ==>
              r == Failure(UsernameRequired)
    ensures !Given(args.authUrl) && Given(args.username) && !Given(args.consumerKey) ==>
              r == Failure(ConsumerKeyRequired)
    ensures !Given(args.authUrl) && !Given(args.username) && !Given(args.consumerKey) ==>
              r == Failure(CredentialsRequired)
    ensures Given(args.authUrl) ==> r == Success(UrlAuth(args.authUrl.value))
    ensures !Given(args.authUrl) && Given(args.username) && Given(args.consumerKey) ==>
              r == Success(JwtAuth(KeyFileLocation, args.consumerKey.value, args.username.value,
                                   if Given(args.loginUrl) then args.loginUrl.value else DefaultLoginUrl))
  {
    if !Given(args.authUrl) && (Given(args.username) || Given(args.consumerKey)) then
      if !Given(args.username) then Failure(UsernameRequired)
      else if !Given(args.consumerKey) then Failure(ConsumerKeyRequired)
      else
        var loginUrl := if Given(args.loginUrl) then args.loginUrl.value else DefaultLoginUrl;
        Success(JwtAuth(KeyFileLocation, args.consumerKey.value, args.username.value, loginUrl))
    else if !Given(args.authUrl) then Failure(CredentialsRequired)
    else Success(UrlAuth(args.authUrl.value))
  }

  /**
   * All of the script's validation, in its order: the build checks come
   * before the credential checks, and the first failure is the one
   * reported.
   */
  function Validate(args: Args, now: string): (r: Result<Settings, string>)
    ensures CheckBuild(args, now).Failure? ==> r == Failure(CheckBuild(args, now).error)
    ensures CheckBuild(args, now).Success? && CheckCredentials(args).Failure? ==>
              r == Failure(CheckCredentials(args).error)
    ensures r.Success? <==> CheckBuild(args, now).Success? && CheckCredentials(args).Success?
    ensures r.Success? ==>
              && r.value.branch == args.branch.value
              && r.value.buildId == BuildId(args.branch.value, args.buildNumber.value, now)
              && r.value.auth == CheckCredentials(args).value
              && r.value.mode == SelectMode(args.checkDeploy, args.testLevel)
              && (r.value.snapshotBranch.Some? <==> Given(args.snapshotBranch))
              && (r.value.snapshotBranch.Some? ==> r.value.snapshotBranch.value == args.snapshotBranch.value)
  {
    match CheckBuild(args, now)
    case Failure(e) => Failure(e)
    case Success(buildId) =>
      match CheckCredentials(args)
      case Failure(e) => Failure(e)
      case Success(auth) =>
        var snapshot := if Given(args.snapshotBranch) then Some(args.snapshotBranch.value) else None;
        Success(Settings(args.branch.value, buildId, auth, snapshot, SelectMode(args.checkDeploy, args.testLevel)))
  }

  /** The external steps of a run, in the order they happen. */
  datatype Action =
    | Authenticate(auth: Auth)
    | QueryReleaseLog(branch: string)
    | ReadHeadCommit
    | DiffFiles(previous: string, current: string)
    | Stage(files: seq<string>)
    | Snapshot(buildId: string, branch: string, snapshotBranch: string)
    | Deploy(command: string)
    | SaveSnapshot(buildId: string, branch: string, snapshotBranch: string)
    | UpdateLog(commit: string, branch: string)
    | Exit(code: int, message: string)

  /** What the outside world answers: each command's result, and the parsed release-log query. */
  datatype World = World(exec: Action -> ExecResult, releaseLog: QueryResult)

  /** A command of the run that the world makes fail (staging runs no command that can end the run). */
  predicate Fails(w: World, a: Action) {
    !a.Stage? && !a.Exit? && w.exec(a).code != 0
  }

  /** The trace ends with one `Exit` and has no other. */
  ghost predicate EndsOnce(t: seq<Action>) {
    |t| > 0 && t[|t| - 1].Exit? && forall i | 0 <= i < |t| - 1 :: !t[i].Exit?
  }

  /** A failing command is the last action before the exit, and the exit status is 1. */
  ghost predicate StopsAtFailure(w: World, t: seq<Action>) {
    forall i | 0 <= i < |t| - 1 :: Fails(w, t[i]) ==> i == |t| - 2 && t[|t| - 1].Exit? && t[|t| - 1].code == 1
  }

  function LogUpdates(t: seq<Action>): nat {
    if t == [] then 0 else (if t[0].UpdateLog? then 1 else 0) + LogUpdates(t[1..])
  }

  /** Runs command `a`; on failure the run exits with status 1, otherwise it goes on with `rest`. */
  function Then(w: World, a: Action, errorMsg: string, rest: seq<Action>): (t: seq<Action>)
    requires !a.Stage? && !a.Exit?
    ensures Fails(w, a) ==> t == [a, Exit(1, ExecuteCmd(w.exec(a), errorMsg).error)]
    ensures !Fails(w, a) ==> t == [a] + rest
    ensures Fails(w, a) || EndsOnce(rest) ==> EndsOnce(t)
    ensures StopsAtFailure(w, rest) ==> StopsAtFailure(w, t)
    ensures LogUpdates(t) == (if a.UpdateLog? then 1 else 0) + (if Fails(w, a) then 0 else LogUpdates(rest))
  {
    match ExecuteCmd(w.exec(a), errorMsg)
    case Failure(e) =>
      assert LogUpdates([Exit(1, e)]) == 0;
      [a, Exit(1, e)]
    case Success(_) =>
      assert ([a] + rest)[1..] == rest;
      [a] + rest
  }

  /** The closing success message. */
  function SuccessMessage(current: string): string {
    "Deployment => " + current
  }

  /** The message of a first run on a branch with no release-log record. */
  function SeedMessage(branch: string, current: string): string {
    "Org has no records in Release_Log__c for branch " + branch + ". Version " + current
    + " added to Release_Log__c as starting point. You may modify the commit on this record to set your"
    + " starting point for deployment. Commit metadata changes and re-run pipline to upgrade."
  }

  /** The run's end: exit with `code` and `message`. */
  function ExitWith(w: World, code: int, message: string): (t: seq<Action>)
    ensures t == [Exit(code, message)]
    ensures EndsOnce(t) && StopsAtFailure(w, t) && LogUpdates(t) == 0
  {
    assert [Exit(code, message)][1..] == [];
    [Exit(code, message)]
  }

  /** Record the current commit in the release log, then exit. */
  function RecordAndExit(cfg: Settings, w: World, current: string, code: int, message: string): (t: seq<Action>)
    ensures EndsOnce(t) && StopsAtFailure(w, t) && LogUpdates(t) == 1
    ensures !Fails(w, UpdateLog(current, cfg.branch)) ==> t == [UpdateLog(current, cfg.branch), Exit(code, message)]
  {
    Then(w, UpdateLog(current, cfg.branch), "", ExitWith(w, code, message))
  }

  /** After a successful deploy: save the snapshot when a snapshot branch is set, then record and finish. */
  function AfterDeploy(cfg: Settings, w: World, current: string): (t: seq<Action>)
    ensures EndsOnce(t) && StopsAtFailure(w, t) && LogUpdates(t) <= 1
  {
    var finish := RecordAndExit(cfg, w, current, 0, SuccessMessage(current));
    if cfg.snapshotBranch.Some?
    then Then(w, SaveSnapshot(cfg.buildId, cfg.branch, cfg.snapshotBranch.value), "", finish)
    else finish
  }

  /** Take the snapshot when a snapshot branch is set, then deploy; a failed deploy ends with the fixed message. */
  function SnapshotAndDeploy(cfg: Settings, w: World, current: string): (t: seq<Action>)
    ensures EndsOnce(t) && StopsAtFailure(w, t) && LogUpdates(t) <= 1
  {
    var deploy := Then(w, Deploy(DeployCommand(cfg.mode)), DeployFailed, AfterDeploy(cfg, w, current));
    if cfg.snapshotBranch.Some?
    then Then(w, Snapshot(cfg.buildId, cfg.branch, cfg.snapshotBranch.value), "", deploy)
    else deploy
  }

  /** Changed files found: stage them, then snapshot, deploy, save the snapshot and record the commit. */
  function Deployment(cfg: Settings, w: World, files: seq<string>, current: string): (t: seq<Action>)
    ensures EndsOnce(t) && StopsAtFailure(w, t) && LogUpdates(t) <= 1
  {
    var rest := SnapshotAndDeploy(cfg, w, current);
    var t := [Stage(files)] + rest;
    assert t[1..] == rest;
    assert forall i | 1 <= i < |t| :: t[i] == rest[i - 1];
    t
  }

  /** A release-log record exists: diff since it, then deploy the changes or record that there were none. */
  function FromDiff(cfg: Settings, w: World, previous: string, current: string): (t: seq<Action>)
    ensures EndsOnce(t) && StopsAtFailure(w, t) && LogUpdates(t) <= 1
  {
    var a := DiffFiles(previous, current);
    match ExecuteCmd(w.exec(a), "")
    case Failure(e) => Then(w, a, "", [])
    case Success(output) =>
      var files := ChangeList.ChangedFiles(output);
      if |files| > 0 then Then(w, a, "", Deployment(cfg, w, files, current))
      else Then(w, a, "", RecordAndExit(cfg, w, current, 0, SuccessMessage(current)))
  }

  /**
   * The branch on the previous commit: with one, look for changed files;
   * without one, seed the release log with the current commit and fail.
   */
  function Branch(cfg: Settings, w: World, previous: string, current: string): (t: seq<Action>)
    ensures EndsOnce(t) && StopsAtFailure(w, t) && LogUpdates(t) <= 1
  {
    if previous != "" then FromDiff(cfg, w, previous, current)
    else RecordAndExit(cfg, w, current, 1, SeedMessage(cfg.branch, current))
  }

  /** After the head commit is known: the three-way branch on the previous commit. */
  function FromHead(cfg: Settings, w: World, previous: string): (t: seq<Action>)
    ensures EndsOnce(t) && StopsAtFailure(w, t) && LogUpdates(t) <= 1
  {
    var a := ReadHeadCommit;
    match ExecuteCmd(w.exec(a), "")
    case Failure(e) => Then(w, a, "", [])
    case Success(output) =>
      Then(w, a, "", Branch(cfg, w, previous, Trim(output)))
  }

  /** After authentication: query the release log for the previous commit. */
  function FromQuery(cfg: Settings, w: World): (t: seq<Action>)
    ensures EndsOnce(t) && StopsAtFailure(w, t) && LogUpdates(t) <= 1
  {
    var a := QueryReleaseLog(cfg.branch);
    match ExecuteCmd(w.exec(a), "")
    case Failure(e) => Then(w, a, "", [])
    case Success(_) =>
      match LatestDeploymentLog(w.releaseLog)
      case Failure(e) => Then(w, a, "", ExitWith(w, 1, e))
      case Success(previous) => Then(w, a, "", FromHead(cfg, w, previous))
  }

  /**
   * The whole run of `deploy.js` for the given arguments, clock reading
   * and world: validation, then authentication, the release-log query,
   * the head commit, and one of the three paths. Every run ends with
   * exactly one exit, stops at the first failing command with status 1,
   * and records a commit in the release log at most once.
   */
  function Run(args: Args, now: string, w: World): (t: seq<Action>)
    ensures EndsOnce(t) && StopsAtFailure(w, t) && LogUpdates(t) <= 1
    ensures Validate(args, now).Failure? ==> t == [Exit(1, Validate(args, now).error)]
  {
    match Validate(args, now)
    case Failure(e) => ExitWith(w, 1, e)
    case Success(cfg) => Then(w, Authenticate(cfg.auth), "", FromQuery(cfg, w))
  }

  /** Every command succeeds. */
  ghost predicate AllSucceed(w: World) {
    forall a :: w.exec(a).code == 0
  }

  /** The head commit as the run reads it. */
  function HeadCommit(w: World): string {
    Trim(w.exec(ReadHeadCommit).stdout)
  }

  /** The steps every run that passes validation starts with. */
  function Preamble(cfg: Settings): seq<Action> {
    [Authenticate(cfg.auth), QueryReleaseLog(cfg.branch), ReadHeadCommit]
  }

  lemma RunPassesAuth(args: Args, now: string, w: World)
    requires Validate(args, now).Success?
    requires !Fails(w, Authenticate(Validate(args, now).value.auth))
    ensures Run(args, now, w) == [Authenticate(Validate(args, now).value.auth)] + FromQuery(Validate(args, now).value, w)
  {
  }

  lemma QueryPasses(cfg: Settings, w: World, previous: string)
    requires !Fails(w, QueryReleaseLog(cfg.branch))
    requires LatestDeploymentLog(w.releaseLog) == Success(previous)
    ensures FromQuery(cfg, w) == [QueryReleaseLog(cfg.branch)] + FromHead(cfg, w, previous)
  {
  }

  lemma HeadPasses(cfg: Settings, w: World, previous: string)
    requires !Fails(w, ReadHeadCommit)
    ensures FromHead(cfg, w, previous) == [ReadHeadCommit] + Branch(cfg, w, previous, HeadCommit(w))
  {
  }

  /**
   * A release-log query whose answer has a non-zero status ends the run at
   * once with status 1 and the query's message: the head commit is not
   * read and nothing is recorded.
   */
  lemma QueryStatusFails(cfg: Settings, w: World)
    requires !Fails(w, QueryReleaseLog(cfg.branch)) && w.releaseLog.status != 0
    ensures FromQuery(cfg, w) == [QueryReleaseLog(cfg.branch), Exit(1, QueryFailed + w.releaseLog.message)]
    ensures LogUpdates(FromQuery(cfg, w)) == 0
  {
  }

  /** The run up to the branch on the previous commit, when its first commands succeed. */
  lemma ReachesBranch(args: Args, now: string, w: World, previous: string)
    requires Validate(args, now).Success? && AllSucceed(w)
    requires LatestDeploymentLog(w.releaseLog) == Success(previous)
    ensures var cfg := Validate(args, now).value;
      Run(args, now, w) == Preamble(cfg) + Branch(cfg, w, previous, HeadCommit(w))
  {
    var cfg := Validate(args, now).value;
    assert !Fails(w, Authenticate(cfg.auth)) && !Fails(w, QueryReleaseLog(cfg.branch)) && !Fails(w, ReadHeadCommit);
    RunPassesAuth(args, now, w);
    QueryPasses(cfg, w, previous);
    HeadPasses(cfg, w, previous);
  }

  /**
   * No release-log record for the branch: the current commit is recorded
   * as the starting point and the run fails; nothing is staged or deployed.
   */
  lemma SeedPath(args: Args, now: string, w: World)
    requires Validate(args, now).Success? && AllSucceed(w)
    requires LatestDeploymentLog(w.releaseLog) == Success("")
    ensures var cfg := Validate(args, now).value;
      Run(args, now, w)
        == Preamble(cfg) + [UpdateLog(HeadCommit(w), cfg.branch), Exit(1, SeedMessage(cfg.branch, HeadCommit(w)))]
  {
    var cfg := Validate(args, now).value;
    ReachesBranch(args, now, w, "");
    assert !Fails(w, UpdateLog(HeadCommit(w), cfg.branch));
  }

  /** No changed file since the previous commit: the commit is recorded and the run succeeds without deploying. */
  lemma NoChangesPath(args: Args, now: string, w: World, previous: string)
    requires Validate(args, now).Success? && AllSucceed(w)
    requires LatestDeploymentLog(w.releaseLog) == Success(previous) && previous != ""
    requires ChangeList.ChangedFiles(w.exec(DiffFiles(previous, HeadCommit(w))).stdout) == []
    ensures var cfg := Validate(args, now).value;
      Run(args, now, w)
        == Preamble(cfg) + [DiffFiles(previous, HeadCommit(w)), UpdateLog(HeadCommit(w), cfg.branch),
                            Exit(0, SuccessMessage(HeadCommit(w)))]
  {
    var cfg := Validate(args, now).value;
    var current := HeadCommit(w);
    ReachesBranch(args, now, w, previous);
    assert !Fails(w, DiffFiles(previous, current)) && !Fails(w, UpdateLog(current, cfg.branch));
  }

  /** The snapshot step, present only when a snapshot branch is set. */
  function SnapshotSteps(cfg: Settings): seq<Action> {
    if cfg.snapshotBranch.Some? then [Snapshot(cfg.buildId, cfg.branch, cfg.snapshotBranch.value)] else []
  }

  /** The snapshot-saving step, present only when a snapshot branch is set. */
  function SaveSnapshotSteps(cfg: Settings): seq<Action> {
    if cfg.snapshotBranch.Some? then [SaveSnapshot(cfg.buildId, cfg.branch, cfg.snapshotBranch.value)] else []
  }

  /**
   * The deployment steps in order: stage, snapshot when configured, deploy
   * with the chosen flag, save the snapshot when configured, record the
   * commit once, succeed.
   */
  function DeploySteps(cfg: Settings, files: seq<string>, current: string): seq<Action> {
    [Stage(files)] + SnapshotSteps(cfg) + [Deploy(DeployCommand(cfg.mode))] + SaveSnapshotSteps(cfg)
    + [UpdateLog(current, cfg.branch), Exit(0, SuccessMessage(current))]
  }

  /**
   * Changed files: they are staged, the snapshot taken when configured,
   * the deploy run with the chosen flag, the snapshot saved, and the
   * commit recorded once, in that order.
   */
  lemma ChangesPath(args: Args, now: string, w: World, previous: string, files: seq<string>)
    requires Validate(args, now).Success? && AllSucceed(w)
    requires LatestDeploymentLog(w.releaseLog) == Success(previous) && previous != ""
    requires files == ChangeList.ChangedFiles(w.exec(DiffFiles(previous, HeadCommit(w))).stdout) && files != []
    ensures var cfg := Validate(args, now).value;
      Run(args, now, w)
        == Preamble(cfg) + [DiffFiles(previous, HeadCommit(w))] + DeploySteps(cfg, files, HeadCommit(w))
  {
    var cfg := Validate(args, now).value;
    ReachesBranch(args, now, w, previous);
    DeployAfterPreamble(cfg, w, previous, HeadCommit(w), files);
  }

  /** After the preamble, a branch with changed files diffs and then takes every deployment step. */
  lemma DeployAfterPreamble(cfg: Settings, w: World, previous: string, current: string, files: seq<string>)
    requires AllSucceed(w) && previous != ""
    requires files == ChangeList.ChangedFiles(w.exec(DiffFiles(previous, current)).stdout) && files != []
    ensures Preamble(cfg) + Branch(cfg, w, previous, current)
         == Preamble(cfg) + [DiffFiles(previous, current)] + DeploySteps(cfg, files, current)
  {
    BranchDeploys(cfg, w, previous, current, files);
    DeploymentSucceeds(cfg, w, files, current);
    assert Preamble(cfg) + ([DiffFiles(previous, current)] + DeploySteps(cfg, files, current))
        == Preamble(cfg) + [DiffFiles(previous, current)] + DeploySteps(cfg, files, current);
  }

  lemma BranchDeploys(cfg: Settings, w: World, previous: string, current: string, files: seq<string>)
    requires AllSucceed(w) && previous != ""
    requires files == ChangeList.ChangedFiles(w.exec(DiffFiles(previous, current)).stdout) && files != []
    ensures Branch(cfg, w, previous, current) == [DiffFiles(previous, current)] + Deployment(cfg, w, files, current)
  {
    assert !Fails(w, DiffFiles(previous, current));
  }


  /** The deployment steps when every command succeeds. */
  lemma DeploymentSucceeds(cfg: Settings, w: World, files: seq<string>, current: string)
    requires AllSucceed(w)
    ensures Deployment(cfg, w, files, current) == DeploySteps(cfg, files, current)
  {
    assert !Fails(w, UpdateLog(current, cfg.branch)) && !Fails(w, Deploy(DeployCommand(cfg.mode)));
    if cfg.snapshotBranch.Some? {
      assert !Fails(w, Snapshot(cfg.buildId, cfg.branch, cfg.snapshotBranch.value));
      assert !Fails(w, SaveSnapshot(cfg.buildId, cfg.branch, cfg.snapshotBranch.value));
    }
  }

  /**
   * A failed deploy ends the run with the fixed remediation message, not
   * the tool's error text, and the commit is not recorded.
   */
  lemma FailedDeployNotRecorded(cfg: Settings, w: World, current: string)
    requires cfg.snapshotBranch.Some? ==> !Fails(w, Snapshot(cfg.buildId, cfg.branch, cfg.snapshotBranch.value))
    requires Fails(w, Deploy(DeployCommand(cfg.mode)))
    ensures SnapshotAndDeploy(cfg, w, current)
         == SnapshotSteps(cfg) + [Deploy(DeployCommand(cfg.mode)), Exit(1, DeployFailed)]
    ensures LogUpdates(SnapshotAndDeploy(cfg, w, current)) == 0
  {
  }
}
