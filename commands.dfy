/**
 * The decisions `deployments/utils.js` makes around its shell commands:
 * how a command's exit status becomes an outcome (`executeCmd`), which
 * test flag the deploy command carries (`deployFiles`), and what the
 * release-log query yields (`getLatestDeploymentLog`). The commands
 * themselves are not run; their results are inputs.
 */
module Commands {
  import opened Wrappers
  import opened Text
  import Staging

  /** What running a shell command returned. */
  datatype ExecResult = ExecResult(stdout: string, stderr: string, code: int)

  /**
   * `executeCmd`: a command succeeds exactly when it exits with status 0,
   * and then yields its output. Otherwise the run ends with the caller's
   * message, or with the tool's own error text when the caller gave none.
   */
  function ExecuteCmd(r: ExecResult, errorMsg: string): (o: Result<string, string>)
    ensures o.Success? <==> r.code == 0
    ensures o.Success? ==> o.value == r.stdout
    ensures o.Failure? && errorMsg != "" ==> o.error == errorMsg
    ensures o.Failure? && errorMsg == "" ==> o.error == r.stderr
  {
    if r.code == 0 then Success(r.stdout)
    else Failure(if errorMsg != "" then errorMsg else r.stderr)
  }

  const RunLocalTests: string := "RunLocalTests"
  const RunAllTestsInOrg: string := "RunAllTestsInOrg"
  const DeployFailed: string :=
    "Deployment unsuccessful. Review Deployment Status in Salesforce setup to resolve errors."

  /** How the deployment treats Apex tests. */
  datatype TestMode =
    | CheckOnly                 // validate only, running the org's tests
    | TestLevel(level: string)  // deploy, running the named test level
    | ToolDefault               // deploy with the tool's default test behaviour

  /**
   * The mode `deployFiles` chooses from its `checkOnly` and `testLevel`
   * arguments: check-only when `checkOnly` is "yes", whatever the test
   * level; otherwise one of the two recognised test levels when given;
   * otherwise the tool's default.
   */
  function SelectMode(checkOnly: Option<string>, testLevel: Option<string>): (m: TestMode)
    ensures m == CheckOnly <==> checkOnly == Some("yes")
    ensures m.TestLevel? <==>
              checkOnly != Some("yes") && testLevel in {Some(RunLocalTests), Some(RunAllTestsInOrg)}
    ensures m.TestLevel? ==> testLevel == Some(m.level)
  {
    if checkOnly == Some("yes") then CheckOnly
    else if testLevel == Some(RunLocalTests) then TestLevel(RunLocalTests)
    else if testLevel == Some(RunAllTestsInOrg) then TestLevel(RunAllTestsInOrg)
    else ToolDefault
  }

  /** The command-line flag of a mode. */
  function Flag(m: TestMode): string {
    match m
    case CheckOnly => "--checkonly"
    case TestLevel(level) => "-l " + level
    case ToolDefault => ""
  }

  const DeployCommandPrefix: string := "sfdx force:source:deploy -p " + Staging.DeployFolder + " --verbose "

  /** The deploy command: always the same command over the `deploy` folder, followed by the mode's flag. */
  function DeployCommand(m: TestMode): (cmd: string)
    ensures IsPrefix(DeployCommandPrefix, cmd) && cmd[|DeployCommandPrefix|..] == Flag(m)
  {
    DeployCommandPrefix + Flag(m)
  }

  /** Different modes give different deploy commands: the command says which mode was chosen. */
  lemma DeployCommandInjective(m1: TestMode, m2: TestMode)
    ensures m1 != m2 ==> DeployCommand(m1) != DeployCommand(m2)
  {
    if m1 != m2 {
      var f1, f2 := Flag(m1), Flag(m2);
      if m1.TestLevel? && m2.TestLevel? {
        assert f1[3..] != f2[3..];
      } else {
        assert |f1| == 0 || |f2| == 0 || f1[1] != f2[1];
      }
      assert DeployCommand(m1)[|DeployCommandPrefix|..] != DeployCommand(m2)[|DeployCommandPrefix|..];
    }
  }

  /** The flag `deployFiles` passes, from its arguments. */
  function DeployFlag(checkOnly: Option<string>, testLevel: Option<string>): (flag: string)
    ensures checkOnly == Some("yes") ==> flag == "--checkonly"
    ensures checkOnly != Some("yes") && testLevel == Some(RunLocalTests) ==> flag == "-l RunLocalTests"
    ensures checkOnly != Some("yes") && testLevel == Some(RunAllTestsInOrg) ==> flag == "-l RunAllTestsInOrg"
    ensures checkOnly != Some("yes") && testLevel !in {Some(RunLocalTests), Some(RunAllTestsInOrg)} ==> flag == ""
  {
    Flag(SelectMode(checkOnly, testLevel))
  }

  /** One `Release_Log__c` record as the query returns it. */
  datatype ReleaseLog = ReleaseLog(lastCommit: string)

  /** The parsed JSON answer of the release-log query. */
  datatype QueryResult = QueryResult(status: int, message: string, records: seq<ReleaseLog>)

  const QueryFailed: string := "Release_Log__c SOQL failed - "

  /**
   * `getLatestDeploymentLog`: a query whose status is not 0 fails with the
   * query's message; otherwise the commit of the first (most recent)
   * record, or the empty string when there is no record.
   */
  function LatestDeploymentLog(q: QueryResult): (r: Result<string, string>)
    ensures r.Failure? <==> q.status != 0
    ensures r.Failure? ==> r.error == QueryFailed + q.message
    ensures r.Success? && q.records != [] ==> r.value == q.records[0].lastCommit
    ensures r.Success? && q.records == [] ==> r.value == ""
  {
    if q.status != 0 then Failure(QueryFailed + q.message)
    else if |q.records| > 0 then Success(q.records[0].lastCommit)
    else Success("")
  }
}
