/** The Anchore adapter (src/services/anchoreService.ts): adds the image,
    waits for its analysis, writes the policy evaluation to a report file,
    then reads back and normalises that report. */
module Anchore {
  import opened Js
  import opened ToolCommon
  import Snyk

  datatype AnchoreReport = AnchoreReport(vulnerabilities: Json, policyChecks: Json, imageDigest: Option<Json>, rawOutput: Json)

  const ParseFailureMessage := "Failed to parse Anchore report"

  /** `${targetPath}/anchore-report.json` */
  function ReportFile(targetPath: string): string
  {
    targetPath + "/anchore-report.json"
  }

  function AddCommand(targetPath: string): string
  {
    "anchore-cli image add " + targetPath
  }

  function WaitCommand(targetPath: string): string
  {
    "anchore-cli image wait " + targetPath
  }

  /** The evaluation, redirected into the report file. */
  function EvaluateCommand(targetPath: string): string
  {
    "anchore-cli evaluate check " + targetPath + " --detail --json > " + ReportFile(targetPath)
  }

  function ReadReportCommand(targetPath: string): string
  {
    "cat " + ReportFile(targetPath)
  }

  /** The four commands, in the order they are run. */
  function Pipeline(targetPath: string): seq<string>
  {
    [AddCommand(targetPath), WaitCommand(targetPath), EvaluateCommand(targetPath), ReadReportCommand(targetPath)]
  }

  /** The inner `try`: read the report, parse it, and fill in defaults.
      Any failure here becomes the adapter's own error. */
  function ReadReport(targetPath: string, shell: Shell, parse: Parser): (r: Result<AnchoreReport, Failure>)
    ensures var content := RunCommand(shell(ReadReportCommand(targetPath)));
            r.Ok? <==> content.Ok? && parse(content.value).Ok? && parse(content.value).value != JNull
    ensures r.Err? ==> r.error == Raised(ParseFailureMessage)
    ensures r.Ok? ==>
              && parse(RunCommand(shell(ReadReportCommand(targetPath))).value) == Ok(r.value.rawOutput)
              && Truthy(Some(r.value.vulnerabilities)) && Truthy(Some(r.value.policyChecks))
    // `parsed.image_digest` is passed through as it is, absent when the report lacks it
    ensures r.Ok? && r.value.rawOutput.JObj? ==>
              r.value.imageDigest == (if "image_digest" in r.value.rawOutput.fields then Some(r.value.rawOutput.fields["image_digest"]) else None)
  {
    match RunCommand(shell(ReadReportCommand(targetPath)))
    case Err(_) => Err(Raised(ParseFailureMessage))
    case Ok(content) =>
      match parse(content)
      case Err(_) => Err(Raised(ParseFailureMessage))
      case Ok(parsed) =>
        if parsed == JNull then Err(Raised(ParseFailureMessage))
        else Ok(AnchoreReport(Snyk.ListField(parsed, "vulnerabilities"), Snyk.ListField(parsed, "policy_checks"),
                              Get(parsed, "image_digest").value, parsed))
  }

  /** The index of the first of add, wait and evaluate that fails, or 3. */
  function FirstFailedStep(targetPath: string, shell: Shell): (k: nat)
    ensures k <= 3
    ensures forall j :: 0 <= j < k ==> RunCommand(shell(Pipeline(targetPath)[j])).Ok?
    ensures k < 3 ==> RunCommand(shell(Pipeline(targetPath)[k])).Err?
  {
    if RunCommand(shell(AddCommand(targetPath))).Err? then 0
    else if RunCommand(shell(WaitCommand(targetPath))).Err? then 1
    else if RunCommand(shell(EvaluateCommand(targetPath))).Err? then 2
    else 3
  }

  /** `runAnchore(targetPath)`. */
  function RunAnchore(targetPath: string, shell: Shell, parse: Parser): (r: Run<AnchoreReport>)
    // the commands run are a prefix of the pipeline, stopping at the first failure
    ensures var k := FirstFailedStep(targetPath, shell);
            && r.commands == Pipeline(targetPath)[..k + 1]
            && (k < 3 ==> r.result == Err(CommandFailed(RunCommand(shell(Pipeline(targetPath)[k])).error)))
            && (k == 3 && r.result.Err? ==> r.result.error == Raised(ParseFailureMessage))
    ensures r.result.Ok? ==>
              var content := RunCommand(shell(ReadReportCommand(targetPath)));
              && content.Ok? && parse(content.value) == Ok(r.result.value.rawOutput)
              && Truthy(Some(r.result.value.vulnerabilities)) && Truthy(Some(r.result.value.policyChecks))
  {
    var add := AddCommand(targetPath);
    var wait := WaitCommand(targetPath);
    var eval := EvaluateCommand(targetPath);
    match RunCommand(shell(add))
    case Err(m) => Run([add], Err(CommandFailed(m)))
    case Ok(_) =>
      match RunCommand(shell(wait))
      case Err(m) => Run([add, wait], Err(CommandFailed(m)))
      case Ok(_) =>
        match RunCommand(shell(eval))
        case Err(m) => Run([add, wait, eval], Err(CommandFailed(m)))
        case Ok(_) => Run(Pipeline(targetPath), ReadReport(targetPath, shell, parse))
  }

  /** The evaluation writes the very file that is read back. */
  lemma EvaluationFeedsReport(targetPath: string)
    ensures var eval := EvaluateCommand(targetPath);
            var suffix := "> " + ReportFile(targetPath);
            |suffix| <= |eval| && eval[|eval| - |suffix|..] == suffix
    ensures ReadReportCommand(targetPath) == "cat " + ReportFile(targetPath)
  {
  }

  /** A report that parses to an object gives `vulnerabilities` and
      `policy_checks` (or `[]`), `image_digest`, and the whole object as raw
      output. */
  lemma ObjectReport(targetPath: string, shell: Shell, parse: Parser, fields: map<string, Json>)
    requires FirstFailedStep(targetPath, shell) == 3
    requires shell(ReadReportCommand(targetPath)).Exited?
    requires parse(shell(ReadReportCommand(targetPath)).stdout) == Ok(JObj(fields))
    ensures var r := RunAnchore(targetPath, shell, parse).result;
            && r.Ok? && r.value.rawOutput == JObj(fields)
            && r.value.vulnerabilities == Or(if "vulnerabilities" in fields then Some(fields["vulnerabilities"]) else None, EmptyArray)
            && r.value.policyChecks == Or(if "policy_checks" in fields then Some(fields["policy_checks"]) else None, EmptyArray)
            && r.value.imageDigest == (if "image_digest" in fields then Some(fields["image_digest"]) else None)
  {
  }
}
