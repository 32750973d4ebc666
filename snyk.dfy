/** The Snyk adapter (src/services/snykService.ts): runs `snyk test` and
    normalises its JSON output. */
module Snyk {
  import opened Js
  import opened ToolCommon

  datatype SnykReport = SnykReport(vulnerabilities: Json, dependencies: Json, projects: Json, rawOutput: Json)

  const ParseFailureMessage := "Failed to parse Snyk output"

  /** The command line. It does not mention the repository path: Snyk
      scans the server's working directory. */
  const SnykCommand := "snyk test --json --all-projects"

  /** `parsed.key || []` */
  function ListField(parsed: Json, key: string): (r: Json)
    requires parsed != JNull
    ensures Truthy(Some(r))
    ensures parsed.JObj? && key in parsed.fields && Truthy(Some(parsed.fields[key])) ==> r == parsed.fields[key]
    ensures !(parsed.JObj? && key in parsed.fields && Truthy(Some(parsed.fields[key]))) ==> r == EmptyArray
  {
    Or(Get(parsed, key).value, EmptyArray)
  }

  /** `runSnyk(targetPath)`. */
  function RunSnyk(targetPath: string, shell: Shell, parse: Parser): (r: Run<SnykReport>)
    ensures r.commands == [SnykCommand]
    ensures var out := RunCommand(shell(SnykCommand));
            && (out.Err? ==> r.result == Err(CommandFailed(out.error)))
            && (out.Ok? && r.result.Err? ==> r.result.error == Raised(ParseFailureMessage))
            && (out.Ok? && r.result.Ok? ==> parse(out.value) == Ok(r.result.value.rawOutput))
    ensures r.result.Ok? ==> && Truthy(Some(r.result.value.vulnerabilities))
                             && Truthy(Some(r.result.value.dependencies))
                             && Truthy(Some(r.result.value.projects))
  {
    match RunCommand(shell(SnykCommand))
    case Err(m) => Run([SnykCommand], Err(CommandFailed(m)))
    case Ok(output) =>
      match parse(output)
      case Err(_) => Run([SnykCommand], Err(Raised(ParseFailureMessage)))
      case Ok(parsed) =>
        // the log line reads `parsed.vulnerabilities`, which throws on `null`
        if parsed == JNull then Run([SnykCommand], Err(Raised(ParseFailureMessage)))
        else Run([SnykCommand], Ok(SnykReport(ListField(parsed, "vulnerabilities"),
                                              ListField(parsed, "dependencies"),
                                              ListField(parsed, "projects"), parsed)))
  }

  /** The repository path plays no part in what the adapter does. */
  lemma PathIsIgnored(p1: string, p2: string, shell: Shell, parse: Parser)
    ensures RunSnyk(p1, shell, parse) == RunSnyk(p2, shell, parse)
  {
  }

  /** Output that does not parse (blank output included, since `JSON.parse`
      rejects it) or parses to `null` makes the adapter throw its own
      error. */
  lemma UnusableOutput(targetPath: string, shell: Shell, parse: Parser)
    requires RejectsBlank(parse)
    requires shell(SnykCommand).Exited?
    requires var out := shell(SnykCommand).stdout;
             IsBlank(out) || parse(out).Err? || parse(out) == Ok(JNull)
    ensures RunSnyk(targetPath, shell, parse).result == Err(Raised(ParseFailureMessage))
  {
  }
}
