/** The Semgrep adapter (src/services/semgrepService.ts): runs `semgrep`
    on the repository and normalises its JSON output to a findings list. */
module Semgrep {
  import opened Js
  import opened ToolCommon

  datatype SemgrepReport = SemgrepReport(findings: Json, rawOutput: Json)

  const ParseFailureMessage := "Failed to parse Semgrep output as JSON"

  /** The report for empty output: `{findings: [], rawOutput: {results: []}}`. */
  const EmptyReport := SemgrepReport(EmptyArray, JObj(map["results" := EmptyArray]))

  /** The command line; the repository path is its last argument. */
  function SemgrepCommand(targetPath: string): (cmd: string)
    ensures |targetPath| <= |cmd| && cmd[|cmd| - |targetPath|..] == targetPath
  {
    "semgrep --config auto --json --quiet -o - " + targetPath
  }

  /** `runSemgrep(targetPath)`. */
  function RunSemgrep(targetPath: string, shell: Shell, parse: Parser): (r: Run<SemgrepReport>)
    ensures r.commands == [SemgrepCommand(targetPath)]
    ensures var out := RunCommand(shell(SemgrepCommand(targetPath)));
            && (out.Err? ==> r.result == Err(CommandFailed(out.error)))
            && (out.Ok? && IsBlank(out.value) ==> r.result == Ok(EmptyReport))
            && (out.Ok? && r.result.Err? ==> r.result.error == Raised(ParseFailureMessage))
    // the findings list is never null, absent or otherwise falsy
    ensures r.result.Ok? ==> Truthy(Some(r.result.value.findings))
  {
    var cmd := SemgrepCommand(targetPath);
    match RunCommand(shell(cmd))
    case Err(m) => Run([cmd], Err(CommandFailed(m)))
    case Ok(output) =>
      if IsBlank(output) then Run([cmd], Ok(EmptyReport))
      else
        match parse(output)
        case Err(_) => Run([cmd], Err(Raised(ParseFailureMessage)))
        case Ok(parsed) =>
          // the log line reads `parsed.results`, which throws on `null`
          match Get(parsed, "results")
          case Err(_) => Run([cmd], Err(Raised(ParseFailureMessage)))
          case Ok(results) => Run([cmd], Ok(SemgrepReport(Or(results, EmptyArray), parsed)))
  }

  /** Output that parses to a non-null value is kept whole as the raw
      output, and its `results` (or `[]` when absent or falsy) are the
      findings. */
  lemma ParsedOutput(targetPath: string, shell: Shell, parse: Parser)
    requires shell(SemgrepCommand(targetPath)).Exited?
    requires var out := shell(SemgrepCommand(targetPath)).stdout;
             !IsBlank(out) && parse(out).Ok? && parse(out).value != JNull
    ensures var parsed := parse(shell(SemgrepCommand(targetPath)).stdout).value;
            var r := RunSemgrep(targetPath, shell, parse).result;
            var present := parsed.JObj? && "results" in parsed.fields && Truthy(Some(parsed.fields["results"]));
            && r.Ok? && r.value.rawOutput == parsed
            && (present ==> r.value.findings == parsed.fields["results"])
            && (!present ==> r.value.findings == EmptyArray)
  {
  }

  /** Non-blank output that does not parse, or parses to `null`, makes the
      adapter throw its own parse-failure error. */
  lemma UnusableOutput(targetPath: string, shell: Shell, parse: Parser)
    requires shell(SemgrepCommand(targetPath)).Exited?
    requires var out := shell(SemgrepCommand(targetPath)).stdout;
             !IsBlank(out) && (parse(out).Err? || parse(out) == Ok(JNull))
    ensures RunSemgrep(targetPath, shell, parse).result == Err(Raised(ParseFailureMessage))
  {
  }
}
