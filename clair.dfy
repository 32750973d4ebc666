/** The Clair adapter (src/services/clairService.ts): runs
    `clair-scanner`, which writes a report file into the repository
    directory, then reads back and normalises that report. */
module Clair {
  import opened Js
  import opened ToolCommon
  import Snyk

  datatype ClairReport = ClairReport(vulnerabilities: Json, layers: Json, scanTime: Option<Json>, rawOutput: Json)

  const ParseFailureMessage := "Failed to parse Clair report"
  const DefaultHostIp := "localhost"

  /** `${targetPath}/clair-report.json` */
  function ReportFile(targetPath: string): string
  {
    targetPath + "/clair-report.json"
  }

  /** The scanner command line; `hostIp` is `CLAIR_HOST_IP`. */
  function ScannerCommand(targetPath: string, hostIp: Option<string>): string
  {
    "clair-scanner --ip " + EnvOr(hostIp, DefaultHostIp) + " --report " + ReportFile(targetPath) + " " + targetPath
  }

  function ReadReportCommand(targetPath: string): string
  {
    "cat " + ReportFile(targetPath)
  }

  /** The inner `try`: read the report, parse it, and fill in defaults.
      Any failure here becomes the adapter's own error. */
  function ReadReport(targetPath: string, shell: Shell, parse: Parser): (r: Result<ClairReport, Failure>)
    ensures var content := RunCommand(shell(ReadReportCommand(targetPath)));
            r.Ok? <==> content.Ok? && parse(content.value).Ok? && parse(content.value).value != JNull
    ensures r.Err? ==> r.error == Raised(ParseFailureMessage)
    ensures r.Ok? ==>
              && parse(RunCommand(shell(ReadReportCommand(targetPath))).value) == Ok(r.value.rawOutput)
              && Truthy(Some(r.value.vulnerabilities)) && Truthy(Some(r.value.layers))
    // `parsed.scan_time` is passed through as it is, absent when the report lacks it
    ensures r.Ok? && r.value.rawOutput.JObj? ==>
              r.value.scanTime == (if "scan_time" in r.value.rawOutput.fields then Some(r.value.rawOutput.fields["scan_time"]) else None)
  {
    match RunCommand(shell(ReadReportCommand(targetPath)))
    case Err(_) => Err(Raised(ParseFailureMessage))
    case Ok(content) =>
      match parse(content)
      case Err(_) => Err(Raised(ParseFailureMessage))
      case Ok(parsed) =>
        if parsed == JNull then Err(Raised(ParseFailureMessage))
        else Ok(ClairReport(Snyk.ListField(parsed, "vulnerabilities"), Snyk.ListField(parsed, "layers"),
                            Get(parsed, "scan_time").value, parsed))
  }

  /** `runClair(targetPath)`. */
  function RunClair(targetPath: string, hostIp: Option<string>, shell: Shell, parse: Parser): (r: Run<ClairReport>)
    ensures RunCommand(shell(ScannerCommand(targetPath, hostIp))).Err? ==>
              && r.commands == [ScannerCommand(targetPath, hostIp)]
              && r.result == Err(CommandFailed(RunCommand(shell(ScannerCommand(targetPath, hostIp))).error))
    ensures RunCommand(shell(ScannerCommand(targetPath, hostIp))).Ok? ==>
              && r.commands == [ScannerCommand(targetPath, hostIp), ReadReportCommand(targetPath)]
              && (r.result.Err? ==> r.result.error == Raised(ParseFailureMessage))
    ensures r.result.Ok? ==>
              var content := RunCommand(shell(ReadReportCommand(targetPath)));
              && content.Ok? && parse(content.value) == Ok(r.result.value.rawOutput)
              && Truthy(Some(r.result.value.vulnerabilities)) && Truthy(Some(r.result.value.layers))
  {
    var cmd := ScannerCommand(targetPath, hostIp);
    match RunCommand(shell(cmd))
    case Err(m) => Run([cmd], Err(CommandFailed(m)))
    case Ok(_) => Run([cmd, ReadReportCommand(targetPath)], ReadReport(targetPath, shell, parse))
  }

  /** The file the scanner is told to write is the file read back. */
  lemma SameReportFile(targetPath: string, hostIp: Option<string>)
    ensures Contains(ScannerCommand(targetPath, hostIp), " --report " + ReportFile(targetPath) + " ")
    ensures ReadReportCommand(targetPath) == "cat " + ReportFile(targetPath)
  {
    var ip := EnvOr(hostIp, DefaultHostIp);
    var mid := " --report " + ReportFile(targetPath) + " ";
    assert ScannerCommand(targetPath, hostIp) == ("clair-scanner --ip " + ip) + mid + targetPath;
    OccursInMiddle("clair-scanner --ip " + ip, mid, targetPath);
  }

  /** A report that parses to an object gives its lists (or `[]`), its
      `scan_time`, and the whole object as raw output. */
  lemma ObjectReport(targetPath: string, hostIp: Option<string>, shell: Shell, parse: Parser, fields: map<string, Json>)
    requires shell(ScannerCommand(targetPath, hostIp)).Exited?
    requires shell(ReadReportCommand(targetPath)).Exited?
    requires parse(shell(ReadReportCommand(targetPath)).stdout) == Ok(JObj(fields))
    ensures var r := RunClair(targetPath, hostIp, shell, parse).result;
            && r.Ok? && r.value.rawOutput == JObj(fields)
            && r.value.vulnerabilities == Or(if "vulnerabilities" in fields then Some(fields["vulnerabilities"]) else None, EmptyArray)
            && r.value.layers == Or(if "layers" in fields then Some(fields["layers"]) else None, EmptyArray)
            && r.value.scanTime == (if "scan_time" in fields then Some(fields["scan_time"]) else None)
  {
  }
}
