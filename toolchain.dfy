/** The configured tools of src/runners/scanRunner.ts bound to their
    adapters, and `summarizeWithAI` bound to the chat-completion service:
    the runner's `Oracle` as the running service builds it. */
module Toolchain {
  import opened Js
  import opened ToolCommon
  import opened Registry
  import opened ScanRunner
  import Semgrep
  import Gitleaks
  import Trivy
  import AiSummary

  /** What the adapters and the summary need from outside: the shell,
      `JSON.parse`, the engine's wording of a `TypeError`, the stack text
      of each error, `JSON.stringify(_, null, 2)` and the chat-completion
      service. */
  datatype Platform = Platform(
    shell: Shell,
    parse: Parser,
    typeErrorText: TypeFault -> string,
    stackOf: Failure -> string,
    render: Json -> string,
    chat: AiSummary.ChatRequest -> Result<seq<AiSummary.Choice>, Thrown>)

  /** The message of the error an adapter rejects with. */
  function FailureMessage(f: Failure, p: Platform): string
  {
    match f
    case CommandFailed(m) => m
    case ParseRejected(m) => m
    case TypeErr(fault) => p.typeErrorText(fault)
    case Raised(m) => m
  }

  /** Every adapter error is an `Error` instance: a rejected `runCommand`,
      a `SyntaxError`, a `TypeError` or the adapter's own `Error`. */
  function ToThrown(f: Failure, p: Platform): (t: Thrown)
    ensures t.ErrorThrown? && t.message == FailureMessage(f, p)
  {
    ErrorThrown(FailureMessage(f, p), p.stackOf(f))
  }

  /** The objects the adapters resolve with. */
  function SemgrepJson(r: Semgrep.SemgrepReport): Json
  {
    JObj(map["findings" := r.findings, "rawOutput" := r.rawOutput])
  }

  function GitleaksJson(r: Gitleaks.GitleaksReport): Json
  {
    var base := map["leaks" := r.leaks, "rawOutput" := r.rawOutput];
    JObj(if r.warning.Some? then base["warning" := JStr(r.warning.value)] else base)
  }

  function TrivyJson(r: Trivy.TrivyReport): Json
  {
    JObj(map["vulns" := r.vulns, "rawOutput" := r.rawOutput])
  }

  /** `await tool.runFn(localPath)`: the adapter's report, or the error it
      rejects with. */
  function Invoke(p: Platform, tool: Tool, path: string): (r: Result<Json, Thrown>)
    ensures r.Err? ==> r.error.ErrorThrown?
  {
    match tool
    case SemgrepTool =>
      (match Semgrep.RunSemgrep(path, p.shell, p.parse).result
       case Ok(report) => Ok(SemgrepJson(report))
       case Err(f) => Err(ToThrown(f, p)))
    case GitleaksTool =>
      (match Gitleaks.RunGitleaks(path, p.shell, p.parse).result
       case Ok(report) => Ok(GitleaksJson(report))
       case Err(f) => Err(ToThrown(f, p)))
    case TrivyTool =>
      (match Trivy.RunTrivy(path, p.shell, p.parse).result
       case Ok(report) => Ok(TrivyJson(report))
       case Err(f) => Err(ToThrown(f, p)))
  }

  /** The runner's oracle, given the database's behaviour. */
  function OracleOf(p: Platform, writes: Tool -> ToolWrites, markCompleted: Write, markFailed: Write): (o: Oracle)
    ensures forall tool, path :: o.invoke(tool, path) == Invoke(p, tool, path)
    ensures forall tool, raw :: o.summarize(tool, raw) == AiSummary.Summarize(ToolName(tool), raw, p.render, p.chat)
    ensures o.writes == writes && o.markCompleted == markCompleted && o.markFailed == markFailed
  {
    Oracle(writes, (tool, path) => Invoke(p, tool, path),
           (tool, raw) => AiSummary.Summarize(ToolName(tool), raw, p.render, p.chat), markCompleted, markFailed)
  }

  /** A tool that the adapter makes fail is recorded FAILED with the
      adapter's error message and a stack, never as "Unknown Error". */
  lemma AdapterFailureRecorded(p: Platform, writes: Tool -> ToolWrites, mc: Write, mf: Write, tool: Tool, path: string)
    requires writes(tool).create.Succeeds? && writes(tool).fail.Succeeds?
    requires Invoke(p, tool, path).Err?
    ensures var v := VerdictOf(tool, path, OracleOf(p, writes, mc, mf));
            var e := Invoke(p, tool, path).error;
            v == Finished(Failed, Errored(e.message, Some(e.stack)))
  {
    var o := OracleOf(p, writes, mc, mf);
    assert Attempt(tool, path, o) == Err(Invoke(p, tool, path).error);
  }

  /** A tool whose adapter succeeds but whose summary request fails is
      recorded FAILED with the chat service's error: the raw result is not
      kept. */
  lemma SummaryFailureRecorded(p: Platform, writes: Tool -> ToolWrites, mc: Write, mf: Write, tool: Tool, path: string)
    requires writes(tool).create.Succeeds? && writes(tool).fail.Succeeds?
    requires Invoke(p, tool, path).Ok?
    requires AiSummary.Summarize(ToolName(tool), Invoke(p, tool, path).value, p.render, p.chat).Err?
    ensures var v := VerdictOf(tool, path, OracleOf(p, writes, mc, mf));
            var e := AiSummary.Summarize(ToolName(tool), Invoke(p, tool, path).value, p.render, p.chat).error;
            v == Finished(Failed, FailedOutput(e))
  {
    var o := OracleOf(p, writes, mc, mf);
    var raw := Invoke(p, tool, path).value;
    assert o.summarize(tool, raw) == AiSummary.Summarize(ToolName(tool), raw, p.render, p.chat);
    assert Attempt(tool, path, o) == Err(o.summarize(tool, raw).error);
  }

  /** A completed tool run always carries a non-blank summary. */
  lemma CompletedSummaryIsTidy(p: Platform, writes: Tool -> ToolWrites, mc: Write, mf: Write, tool: Tool, path: string)
    requires VerdictOf(tool, path, OracleOf(p, writes, mc, mf)).Finished?
    requires VerdictOf(tool, path, OracleOf(p, writes, mc, mf)).status == Completed
    ensures !IsBlank(VerdictOf(tool, path, OracleOf(p, writes, mc, mf)).output.aiSummary)
  {
    var o := OracleOf(p, writes, mc, mf);
    var out := VerdictOf(tool, path, o).output;
    assert o.summarize(tool, out.raw) == AiSummary.Summarize(ToolName(tool), out.raw, p.render, p.chat);
  }

  /** Empty findings are a success, not a failure: when Semgrep prints
      nothing, its run is COMPLETED with an empty findings list, provided
      the summary and the writes succeed. */
  lemma BlankSemgrepOutputCompletes(p: Platform, writes: Tool -> ToolWrites, mc: Write, mf: Write, path: string)
    requires p.shell(Semgrep.SemgrepCommand(path)).Exited?
    requires IsBlank(p.shell(Semgrep.SemgrepCommand(path)).stdout)
    requires writes(SemgrepTool).create.Succeeds? && writes(SemgrepTool).complete.Succeeds?
    requires AiSummary.Summarize("semgrep", SemgrepJson(Semgrep.EmptyReport), p.render, p.chat).Ok?
    ensures var v := VerdictOf(SemgrepTool, path, OracleOf(p, writes, mc, mf));
            && v.Finished? && v.status == Completed
            && v.output.raw == SemgrepJson(Semgrep.EmptyReport)
            && v.output.raw.fields["findings"] == EmptyArray
  {
    var o := OracleOf(p, writes, mc, mf);
    assert Invoke(p, SemgrepTool, path) == Ok(SemgrepJson(Semgrep.EmptyReport));
    assert Attempt(SemgrepTool, path, o).Ok?;
  }
}
