/** The Nikto adapter (src/services/niktoService.ts): scans a web server
    (not the repository) and writes its report into the repository
    directory, then reads back and normalises that report. */
module Nikto {
  import opened Js
  import opened ToolCommon
  import Snyk

  datatype NiktoReport = NiktoReport(vulnerabilities: Json, scanTime: Option<Json>, host: Option<Json>, rawOutput: Json)

  const ParseFailureMessage := "Failed to parse Nikto report"
  const DefaultTargetUrl := "http://localhost:8080"

  /** `${targetPath}/nikto-report.json` */
  function OutputFile(targetPath: string): string
  {
    targetPath + "/nikto-report.json"
  }

  /** The scan command; `targetUrl` is `TARGET_URL`. */
  function NiktoCommand(targetPath: string, targetUrl: Option<string>): string
  {
    "nikto -h " + EnvOr(targetUrl, DefaultTargetUrl) + " -Format json -o " + OutputFile(targetPath)
  }

  function ReadReportCommand(targetPath: string): string
  {
    "cat " + OutputFile(targetPath)
  }

  /** The inner `try`: read the report, parse it, and fill in defaults.
      Any failure here becomes the adapter's own error. */
  function ReadReport(targetPath: string, shell: Shell, parse: Parser): (r: Result<NiktoReport, Failure>)
    ensures var content := RunCommand(shell(ReadReportCommand(targetPath)));
            r.Ok? <==> content.Ok? && parse(content.value).Ok? && parse(content.value).value != JNull
    ensures r.Err? ==> r.error == Raised(ParseFailureMessage)
    ensures r.Ok? ==>
              && parse(RunCommand(shell(ReadReportCommand(targetPath))).value) == Ok(r.value.rawOutput)
              && Truthy(Some(r.value.vulnerabilities))
    // `parsed.scan_time` is passed through as it is, absent when the report lacks it
    ensures r.Ok? && r.value.rawOutput.JObj? ==>
              r.value.scanTime == (if "scan_time" in r.value.rawOutput.fields then Some(r.value.rawOutput.fields["scan_time"]) else None)
    // `parsed.host` is passed through as it is, absent when the report lacks it
    ensures r.Ok? && r.value.rawOutput.JObj? ==>
              r.value.host == (if "host" in r.value.rawOutput.fields then Some(r.value.rawOutput.fields["host"]) else None)
  {
    match RunCommand(shell(ReadReportCommand(targetPath)))
    case Err(_) => Err(Raised(ParseFailureMessage))
    case Ok(content) =>
      match parse(content)
      case Err(_) => Err(Raised(ParseFailureMessage))
      case Ok(parsed) =>
        if parsed == JNull then Err(Raised(ParseFailureMessage))
        else Ok(NiktoReport(Snyk.ListField(parsed, "vulnerabilities"), Get(parsed, "scan_time").value,
                            Get(parsed, "host").value, parsed))
  }

  /** `runNikto(targetPath)`. */
  function RunNikto(targetPath: string, targetUrl: Option<string>, shell: Shell, parse: Parser): (r: Run<NiktoReport>)
    ensures RunCommand(shell(NiktoCommand(targetPath, targetUrl))).Err? ==>
              && r.commands == [NiktoCommand(targetPath, targetUrl)]
              && r.result == Err(CommandFailed(RunCommand(shell(NiktoCommand(targetPath, targetUrl))).error))
    ensures RunCommand(shell(NiktoCommand(targetPath, targetUrl))).Ok? ==>
              && r.commands == [NiktoCommand(targetPath, targetUrl), ReadReportCommand(targetPath)]
              && (r.result.Err? ==> r.result.error == Raised(ParseFailureMessage))
    ensures r.result.Ok? ==>
              var content := RunCommand(shell(ReadReportCommand(targetPath)));
              && content.Ok? && parse(content.value) == Ok(r.result.value.rawOutput)
              && Truthy(Some(r.result.value.vulnerabilities))
  {
    var cmd := NiktoCommand(targetPath, targetUrl);
    match RunCommand(shell(cmd))
    case Err(m) => Run([cmd], Err(CommandFailed(m)))
    case Ok(_) => Run([cmd, ReadReportCommand(targetPath)], ReadReport(targetPath, shell, parse))
  }

  /** The host scanned is `TARGET_URL` or the local web server, whatever
      the repository: the path only names the report file. */
  lemma TargetIsNotTheRepository(p1: string, p2: string, targetUrl: Option<string>)
    ensures var h := "nikto -h " + EnvOr(targetUrl, DefaultTargetUrl) + " -Format json -o ";
            NiktoCommand(p1, targetUrl) == h + OutputFile(p1) && NiktoCommand(p2, targetUrl) == h + OutputFile(p2)
    ensures targetUrl.None? ==> Contains(NiktoCommand(p1, targetUrl), "nikto -h " + DefaultTargetUrl)
  {
    if targetUrl.None? {
      var head := "nikto -h " + DefaultTargetUrl;
      var tail := " -Format json -o " + OutputFile(p1);
      OccursInMiddle("", head, tail);
      assert NiktoCommand(p1, targetUrl) == "" + head + tail;
    }
  }

  /** A report that parses to an object gives its `vulnerabilities` (or
      `[]`), its `scan_time` and `host`, and the whole object as raw
      output. */
  lemma ObjectReport(targetPath: string, targetUrl: Option<string>, shell: Shell, parse: Parser, fields: map<string, Json>)
    requires shell(NiktoCommand(targetPath, targetUrl)).Exited?
    requires shell(ReadReportCommand(targetPath)).Exited?
    requires parse(shell(ReadReportCommand(targetPath)).stdout) == Ok(JObj(fields))
    ensures var r := RunNikto(targetPath, targetUrl, shell, parse).result;
            && r.Ok? && r.value.rawOutput == JObj(fields)
            && r.value.vulnerabilities == Or(if "vulnerabilities" in fields then Some(fields["vulnerabilities"]) else None, EmptyArray)
            && r.value.scanTime == (if "scan_time" in fields then Some(fields["scan_time"]) else None)
            && r.value.host == (if "host" in fields then Some(fields["host"]) else None)
  {
  }
}
