/** The SonarQube adapter (src/services/sonarQubeService.ts): runs
    `sonar-scanner` on the repository, then reads back and normalises the
    report file. */
module SonarQube {
  import opened Js
  import opened ToolCommon
  import Snyk

  datatype SonarReport = SonarReport(issues: Json, hotspots: Json, metrics: Json, rawOutput: Json)

  const ParseFailureMessage := "Failed to parse SonarQube report"
  const DefaultHostUrl := "http://localhost:9000"

  /** The process environment the adapter reads, and the clock value behind
      the project key. */
  datatype SonarEnv = SonarEnv(hostUrl: Option<string>, token: Option<string>, now: nat)

  /** The scanner's `-D` settings, in the order the command line gives
      them. */
  function ScannerSettings(targetPath: string, env: SonarEnv): (args: seq<string>)
    ensures |args| == 7
    ensures args[0] == "-Dsonar.projectKey=scan-" + NatToString(env.now)
    ensures args[1] == "-Dsonar.sources=" + targetPath
    // an unset or empty SONAR_HOST_URL means the local server; a set one is used as given
    ensures env.hostUrl.None? || env.hostUrl.value == "" ==> args[2] == "-Dsonar.host.url=" + DefaultHostUrl
    ensures env.hostUrl.Some? && env.hostUrl.value != "" ==> args[2] == "-Dsonar.host.url=" + env.hostUrl.value
    // an unset token gives an empty login
    ensures env.token.None? ==> args[3] == "-Dsonar.login="
    ensures env.token.Some? ==> args[3] == "-Dsonar.login=" + env.token.value
    ensures args[4..] == ["-Dsonar.verbose=true", "-Dsonar.analysis.mode=preview",
                          "-Dsonar.report.export.path=sonar-report.json"]
  {
    [ "-Dsonar.projectKey=scan-" + NatToString(env.now),
      "-Dsonar.sources=" + targetPath,
      "-Dsonar.host.url=" + EnvOr(env.hostUrl, DefaultHostUrl),
      "-Dsonar.login=" + EnvOr(env.token, ""),
      "-Dsonar.verbose=true",
      "-Dsonar.analysis.mode=preview",
      "-Dsonar.report.export.path=sonar-report.json" ]
  }

  /** Each setting preceded by the space before the template literal's
      backslash-newline continuation and the four spaces of indentation
      after it. */
  function JoinSettings(args: seq<string>): string
  {
    if args == [] then "" else "     " + args[0] + JoinSettings(args[1..])
  }

  /** Every setting appears in the joined command line. */
  lemma {:induction false} SettingsInCommand(args: seq<string>, k: nat)
    requires k < |args|
    ensures Contains(JoinSettings(args), args[k])
  {
    if k == 0 {
      OccursInMiddle("     ", args[0], JoinSettings(args[1..]));
    } else {
      SettingsInCommand(args[1..], k - 1);
      var rest := JoinSettings(args[1..]);
      var i :| 0 <= i <= |rest| - |args[k]| && OccursAt(rest, args[k], i);
      var pre := "     " + args[0];
      assert JoinSettings(args) == pre + rest;
      assert (pre + rest)[|pre| + i..|pre| + i + |args[k]|] == rest[i..i + |args[k]|];
      assert OccursAt(JoinSettings(args), args[k], |pre| + i);
    }
  }

  /** The scanner command line. */
  function ScannerCommand(targetPath: string, env: SonarEnv): string
  {
    "sonar-scanner" + JoinSettings(ScannerSettings(targetPath, env))
  }

  function ReportPath(targetPath: string): string
  {
    targetPath + "/sonar-report.json"
  }

  function ReadReportCommand(targetPath: string): string
  {
    "cat " + ReportPath(targetPath)
  }

  /** The inner `try`: read the report, parse it, and fill in defaults.
      Any failure here becomes the adapter's own error. */
  function ReadReport(targetPath: string, shell: Shell, parse: Parser): (r: Result<SonarReport, Failure>)
    ensures var content := RunCommand(shell(ReadReportCommand(targetPath)));
            r.Ok? <==> content.Ok? && parse(content.value).Ok? && parse(content.value).value != JNull
    ensures r.Err? ==> r.error == Raised(ParseFailureMessage)
    ensures r.Ok? ==>
              && parse(RunCommand(shell(ReadReportCommand(targetPath))).value) == Ok(r.value.rawOutput)
              && Truthy(Some(r.value.issues)) && Truthy(Some(r.value.hotspots)) && Truthy(Some(r.value.metrics))
  {
    match RunCommand(shell(ReadReportCommand(targetPath)))
    case Err(_) => Err(Raised(ParseFailureMessage))
    case Ok(content) =>
      match parse(content)
      case Err(_) => Err(Raised(ParseFailureMessage))
      case Ok(parsed) =>
        if parsed == JNull then Err(Raised(ParseFailureMessage))
        else
          var metrics := Or(Get(parsed, "metrics").value, EmptyObject);
          Ok(SonarReport(Snyk.ListField(parsed, "issues"), Snyk.ListField(parsed, "hotspots"), metrics, parsed))
  }

  /** `runSonarQube(targetPath)`. */
  function RunSonarQube(targetPath: string, env: SonarEnv, shell: Shell, parse: Parser): (r: Run<SonarReport>)
    // a scanner failure is rethrown unchanged and the report is not read
    ensures RunCommand(shell(ScannerCommand(targetPath, env))).Err? ==>
              && r.commands == [ScannerCommand(targetPath, env)]
              && r.result == Err(CommandFailed(RunCommand(shell(ScannerCommand(targetPath, env))).error))
    // after a successful scan the report is read, and only its failures are left
    ensures RunCommand(shell(ScannerCommand(targetPath, env))).Ok? ==>
              && r.commands == [ScannerCommand(targetPath, env), ReadReportCommand(targetPath)]
              && (r.result.Err? ==> r.result.error == Raised(ParseFailureMessage))
    ensures r.result.Ok? ==>
              var content := RunCommand(shell(ReadReportCommand(targetPath)));
              && content.Ok? && parse(content.value) == Ok(r.result.value.rawOutput)
              && Truthy(Some(r.result.value.issues)) && Truthy(Some(r.result.value.hotspots))
              && Truthy(Some(r.result.value.metrics))
  {
    var cmd := ScannerCommand(targetPath, env);
    match RunCommand(shell(cmd))
    case Err(m) => Run([cmd], Err(CommandFailed(m)))
    case Ok(_) => Run([cmd, ReadReportCommand(targetPath)], ReadReport(targetPath, shell, parse))
  }

  /** A report that parses to an object gives its `issues` and `hotspots`
      (or `[]`) and its `metrics` (or `{}`). */
  lemma ObjectReport(targetPath: string, env: SonarEnv, shell: Shell, parse: Parser, fields: map<string, Json>)
    requires shell(ScannerCommand(targetPath, env)).Exited?
    requires shell(ReadReportCommand(targetPath)).Exited?
    requires parse(shell(ReadReportCommand(targetPath)).stdout) == Ok(JObj(fields))
    ensures var r := RunSonarQube(targetPath, env, shell, parse).result;
            && r.Ok? && r.value.rawOutput == JObj(fields)
            && r.value.issues == Or(if "issues" in fields then Some(fields["issues"]) else None, EmptyArray)
            && r.value.hotspots == Or(if "hotspots" in fields then Some(fields["hotspots"]) else None, EmptyArray)
            && r.value.metrics == Or(if "metrics" in fields then Some(fields["metrics"]) else None, EmptyObject)
  {
  }

  /** The scanner analyses the repository path and talks to the
      configured server, or to the local one when none is configured. */
  lemma CommandSettings(targetPath: string, env: SonarEnv)
    ensures Contains(ScannerCommand(targetPath, env), "-Dsonar.sources=" + targetPath)
    ensures env.hostUrl.None? || env.hostUrl.value == "" ==>
              Contains(ScannerCommand(targetPath, env), "-Dsonar.host.url=" + DefaultHostUrl)
    ensures env.hostUrl.Some? && env.hostUrl.value != "" ==>
              Contains(ScannerCommand(targetPath, env), "-Dsonar.host.url=" + env.hostUrl.value)
  {
    var args := ScannerSettings(targetPath, env);
    SettingsInCommand(args, 1);
    ContainsAfterPrefix("sonar-scanner", JoinSettings(args), args[1]);
    SettingsInCommand(args, 2);
    ContainsAfterPrefix("sonar-scanner", JoinSettings(args), args[2]);
  }
}
