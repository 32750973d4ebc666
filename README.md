# Repo-scan service: a Dafny model of the scan pipeline

The service accepts a GitHub repository URL, clones the repository, and runs
security tools over the clone. Each tool's result is stored with an AI
summary. This project models the decision logic of that pipeline and proves
properties of it. The pieces modelled:

- the scan runner, `runFullScan`;
- the eight tool adapters: gitleaks, semgrep, trivy, snyk, sonarQube, clair,
  nikto and anchore;
- the AI summary helper;
- the request-body schema;
- the three HTTP handlers of the scan controller.

Everything the service cannot compute itself is a parameter of the model:

| outside the model | modelled as |
|---|---|
| the shell (`runCommand`) | a `Shell`: command line to exit outcome |
| `JSON.parse` | a `Parser` |
| `JSON.stringify(_, null, 2)` | `render` |
| the chat-completion service | `chat` |
| zod's URL check | `isUrl` |
| the clock | `now` |
| environment variables | `Option<string>` inputs |
| each database write | a `Write`, which succeeds or throws |

## Modules

- `js.dfy` (`Js`) covers the JavaScript semantics the code leans on:
  - JSON values, truthiness and `||`;
  - property reads, which throw on `null`;
  - `trim`, `includes` and `parseInt`;
  - decimal rendering of whole numbers.
- `tool_common.dfy` (`ToolCommon`) holds what the adapters share:
  - `runCommand`;
  - the error kinds. Errors raised below an adapter are rethrown unchanged; an adapter's own `Error` replaces the cause.
  - `Run`, which is the commands an adapter issued plus its result.
- `gitleaks.dfy`, `semgrep.dfy`, `trivy.dfy`, `snyk.dfy`, `sonarqube.dfy`, `clair.dfy`, `nikto.dfy`, `anchore.dfy`: one pure function per adapter, with lemmas for each output class.
- `ai_summary.dfy` (`AiSummary`) builds the request and tidies the reply.
- `registry.dfy` (`Registry`) holds the `Scan` and `ToolRun` tables in two forms:
  - pure snapshot functions;
  - a `Store` class that updates them in place, whose methods are proved equal to the functions.
- `scan_runner.dfy` (`ScanRunner`) models `runFullScan`:
  - the method `RunFullScan` on the store, with the loop of the source;
  - the function `FullScan` on snapshots, which specifies the method;
  - the lemmas on `FullScan`: one record per tool, fault isolation, the abort path, and the order of steps.
- `toolchain.dfy` (`Toolchain`) binds the three configured tools to their adapters, and the summary to `summarizeWithAI`.
- `scan_schema.dfy` (`ScanSchema`) models `startScanSchema.safeParse` and `flatten`.
- `scan_controller.dfy` (`ScanController`) models three handlers:
  - `startScan`, as a method on the store and its specification function;
  - `getScanResults`;
  - `listAllScan`.

## Where the design description and the code differ

The model follows the code in each case:

- **Runs left RUNNING.** The design says no tool run is left RUNNING once the runner returns. The code leaves a run RUNNING when its FAILED update throws. The scan is then marked FAILED. `ScanRunner.RecordOf` and `ScanRunner.FullScanOutcome` state this.
- **Summary reply.** The design has the summary helper parse a structured reply and fall back on failure. The code returns the trimmed reply text, or "No summary available". A failed request propagates and fails that tool's run.
- **Repeated updates.** The design rejects a second completion of the same run. The code has no such guard: an update overwrites.
- **RUNNING can come last.** The design has scan statuses only move forward. The controller starts the runner without awaiting it, and only then writes RUNNING. So the scan's last write can be RUNNING even after the runner has written COMPLETED or FAILED.

`ScanController.RunningUpdateFailure` shows that the runner is launched before that write. The interleaving itself is not modelled.

## Model

| member | source | states |
|---|---|---|
| Js.Or | src/services/snykService.ts:29-31 | `v \|\| d` is `v` exactly when `v` is truthy and `d` otherwise; a truthy default gives a truthy result |
| Js.Get | src/services/semgrepService.ts:31 | a property read throws exactly on `null` (naming the key), and finds a value exactly when the value is an object holding the key |
| Js.Trim | src/services/aiService.ts:31 | the input is blank text, then the result, then blank text; the result is empty exactly when the input is blank, and has no white space at either end |
| Js.NatToString | src/services/gitLeaksService.ts:50 | the rendering of a whole number is a non-empty digit string without a leading zero |
| Js.NatToStringValue | src/services/gitLeaksService.ts:50 | reading back the decimal rendering of `n` gives `n` |
| Js.ParseInt | src/controllers/scanController.ts:70 | NaN exactly when no digit follows the blanks, the sign and an optional `0x`; a negative number only after a minus sign, never negative without one |
| Js.ParseIntOfDecimal | src/controllers/scanController.ts:70 | `parseInt` reads back a decimal number followed by any text that does not continue it: no digit, and no `x` after a lone 0 |
| Js.ParseIntLeadingDigits | src/controllers/scanController.ts:70 | `parseInt("12abc")` is 12 |
| ToolCommon.RunCommand | src/utils/cliRunner.ts:5-14 | resolves with standard output; rejects with standard error when that is non-empty, else with the process error's message |
| ToolCommon.EnvOr | src/services/clairService.ts:8 | an unset or empty variable takes the fallback, any other value is kept |
| Gitleaks.FirstCountMatch | src/services/gitLeaksService.ts:42 | finds the leftmost index where `leaks found: \d` matches, or reports that none does |
| Gitleaks.DigitsFrom | src/services/gitLeaksService.ts:42 | the greedy `(\d+)` capture: a maximal run of ASCII digits |
| Gitleaks.LeakCountOfReport | src/services/gitLeaksService.ts:42 | the count is the number written after the leftmost "leaks found: " that is followed by a digit |
| Gitleaks.LeakCountWithoutMatch | src/services/gitLeaksService.ts:42 | without a match the count is 0 |
| Gitleaks.LeakCount | src/services/gitLeaksService.ts:42 | a count other than 0 is read only from output that holds "leaks found:" |
| Gitleaks.WarningText | src/services/gitLeaksService.ts:50 | the warning starts "Found " and `parseInt` of the rest gives back the count |
| Gitleaks.LogParsed | src/services/gitLeaksService.ts:30-33 | the log line succeeds exactly on an array with no `null` element and no `rule` that cannot be converted to text |
| Gitleaks.RunGitleaks | src/services/gitLeaksService.ts:4-67 | runs one command on the path; a command failure is rethrown unchanged; the only other error is the adapter's own parse failure |
| Gitleaks.BlankOutputIsNoLeaks | src/services/gitLeaksService.ts:20-26 | blank output gives `{leaks: [], rawOutput: []}` and no error |
| Gitleaks.ArrayOutputIsLeakList | src/services/gitLeaksService.ts:29-38 | output parsing to an array of non-null leaks whose rules can be printed is both the leak list and the raw output |
| Gitleaks.NonArrayOutputFallsBack | src/services/gitLeaksService.ts:30-33 | output parsing to a non-array, an array with `null`, or a leak whose `rule` cannot be converted to text, is handled like unparseable output |
| Gitleaks.ParseFallback | src/services/gitLeaksService.ts:39-58 | a report exactly when the output holds "leaks found:": no leaks, the raw text and the count warning; otherwise the parse-failure error |

| Gitleaks.UnparseableOutput | src/services/gitLeaksService.ts:39-58 | unparseable text mentioning "leaks found:" gives no leaks, the raw text and the count warning; other text throws the parse-failure error |
| Semgrep.SemgrepCommand | src/services/semgrepService.ts:7 | the command line ends with the repository path |
| Semgrep.RunSemgrep | src/services/semgrepService.ts:4-54 | one command; blank output gives the empty report; command failures are rethrown unchanged; other errors are the adapter's own; findings are never falsy |
| Semgrep.ParsedOutput | src/services/semgrepService.ts:29-39 | parsed output is kept whole as raw output, and its `results` (or `[]`) are the findings |
| Semgrep.UnusableOutput | src/services/semgrepService.ts:29-46 | non-blank output that does not parse, or parses to `null`, throws the parse-failure error |
| Trivy.TrivyCommand | src/services/trivyService.ts:7 | the command line ends with the repository path |
| Trivy.Addend | src/services/trivyService.ts:20-21 | reading an entry's `Vulnerabilities` throws exactly on a `null` entry; the value added is truthy or 0 |
| Trivy.Plus | src/services/trivyService.ts:20-21 | `acc + x` throws exactly when `x` cannot be converted to a primitive; numbers add; text, lists and objects make the total text |
| Trivy.Reduce | src/services/trivyService.ts:20-21 | the fold throws exactly when some entry is `null` or adds a value that cannot be converted to a primitive |
| Trivy.ReduceIsTotal | src/services/trivyService.ts:20-21 | over entries whose `Vulnerabilities` is a list, absent or `null`, the fold adds the listed counts to the accumulator |
| Trivy.LoggedTotal | src/services/trivyService.ts:19-21 | for an array, a TypeError exactly when an entry makes the fold throw, and the sum of counts over plain entries; 0 when `Results` is absent or `null`; a `reduce` TypeError for any other value |
| Trivy.RunTrivy | src/services/trivyService.ts:4-35 | one command; every error is rethrown as raised, never wrapped; a parse error is `JSON.parse`'s own; `vulns` is never falsy |
| Trivy.BlankOutputIsParseError | src/services/trivyService.ts:17 | blank output is not special-cased: it fails with `JSON.parse`'s error |
| Trivy.ObjectOutput | src/services/trivyService.ts:17-27 | an object whose `Results` is absent, or a list none of whose entries makes the fold throw, gives `vulns` = `Results` (or `[]`) and keeps the object as raw output |
| Snyk.ListField | src/services/snykService.ts:29-31 | `parsed.key \|\| []` is the field when truthy, else `[]`, and is always truthy |
| Snyk.RunSnyk | src/services/snykService.ts:4-48 | runs only the fixed command; command failures are rethrown unchanged; other errors are the adapter's own; the three lists are never falsy |
| Snyk.PathIsIgnored | src/services/snykService.ts:7 | the repository path plays no part in the result |
| Snyk.UnusableOutput | src/services/snykService.ts:19-40 | blank, unparseable or `null` output throws 'Failed to parse Snyk output' |
| SonarQube.ScannerSettings | src/services/sonarQubeService.ts:8-17 | seven settings, in order: the `scan-<time>` key; the path as sources; `SONAR_HOST_URL` when set and non-empty, else http://localhost:9000; `SONAR_TOKEN` or an empty login; the three fixed settings |
| SonarQube.SettingsInCommand | src/services/sonarQubeService.ts:10-17 | every setting appears in the joined command line |
| SonarQube.RunSonarQube | src/services/sonarQubeService.ts:4-62 | a scanner failure is rethrown and the report not read; after a scan the report is read, and only the adapter's own error is left; lists default non-falsy |
| SonarQube.ObjectReport | src/services/sonarQubeService.ts:42-47 | a parsed object gives `issues` and `hotspots` (or `[]`), `metrics` (or `{}`) and the object as raw output |
| SonarQube.CommandSettings | src/services/sonarQubeService.ts:10-17 | the command scans the path and talks to the configured server, or to the local one when `SONAR_HOST_URL` is unset or empty |
| SonarQube.ReadReport | src/services/sonarQubeService.ts:31-54 | succeeds exactly when the report is read, parses, and is not `null`; the only error is the adapter's own; the lists and metrics are never falsy |

| Clair.RunClair | src/services/clairService.ts:4-54 | a scanner failure is rethrown and the report not read; otherwise the report is read back and only the adapter's own error remains |
| Clair.SameReportFile | src/services/clairService.ts:9-25 | the file the scanner is told to write is the file read back |
| Clair.ReadReport | src/services/clairService.ts:24-46 | succeeds exactly when the report is read, parses, and is not `null`; the only error is the adapter's own; the lists are never falsy; `scan_time` is passed through |
| Clair.ObjectReport | src/services/clairService.ts:34-39 | a parsed object gives its lists (or `[]`), `scan_time` and the object as raw output |
| Nikto.RunNikto | src/services/niktoService.ts:4-54 | a scan failure is rethrown and the report not read; otherwise the report is read back and only the adapter's own error remains |
| Nikto.TargetIsNotTheRepository | src/services/niktoService.ts:8-11 | the host scanned is `TARGET_URL` or the local web server; the path only names the report file |
| Nikto.ReadReport | src/services/niktoService.ts:24-46 | succeeds exactly when the report is read, parses, and is not `null`; the only error is the adapter's own; the list is never falsy; `scan_time` and `host` are passed through |
| Nikto.ObjectReport | src/services/niktoService.ts:34-39 | a parsed object gives `vulnerabilities` (or `[]`), `scan_time`, `host` and the object as raw output |
| Anchore.FirstFailedStep | src/services/anchoreService.ts:16-30 | the first of add, wait and evaluate that fails, all earlier ones having succeeded |
| Anchore.RunAnchore | src/services/anchoreService.ts:4-63 | commands run in order and stop at the first failure, which is rethrown; after all three only the adapter's own error remains |
| Anchore.EvaluationFeedsReport | src/services/anchoreService.ts:9-34 | the evaluation is redirected into the very file that is read back |
| Anchore.ReadReport | src/services/anchoreService.ts:33-55 | succeeds exactly when the report is read, parses, and is not `null`; the only error is the adapter's own; the lists are never falsy; `image_digest` is passed through |
| Anchore.ObjectReport | src/services/anchoreService.ts:43-48 | a parsed object gives `vulnerabilities`, `policy_checks` (or `[]`), `image_digest` and the object as raw output |
| AiSummary.RawText | src/services/aiService.ts:9 | at most 3000 characters, a prefix of the rendered result, and all of it when it is short enough |
| AiSummary.Request | src/services/aiService.ts:11-29 | the fixed model, temperature and token limit; the system message, then a user prompt naming the tool and carrying the cut result |
| AiSummary.PromptMentions | src/services/aiService.ts:11-19 | the prompt contains the tool name and the cut result |
| AiSummary.ReplyText | src/services/aiService.ts:31 | the trimmed first reply when it is not blank, else "No summary available"; never blank, never padded |
| AiSummary.Summarize | src/services/aiService.ts:7-34 | a request failure propagates unchanged; otherwise the reply text, which is never blank |
| AiSummary.OnlyThePrefixMatters | src/services/aiService.ts:9 | results agreeing on their first 3000 rendered characters produce the same request |
| Registry.AddScan | src/controllers/scanController.ts:25-30 | the new scan gets the next id and is appended |
| Registry.SetScanStatus | src/runners/scanRunner.ts:99-102 | only that scan's status changes |
| Registry.AddToolRun | src/runners/scanRunner.ts:28-34 | the new run gets the next id, status RUNNING and no output, and is appended |
| Registry.SetToolRun | src/runners/scanRunner.ts:61-70 | only that run's status and output change |
| Registry.AddScanKeepsWellFormed | src/controllers/scanController.ts:25-30 | creating a scan keeps ids sequential and runs attached to existing scans |
| Registry.SetScanStatusKeepsWellFormed | src/runners/scanRunner.ts:99-102 | a status update keeps the registry well formed |
| Registry.AddToolRunKeepsWellFormed | src/runners/scanRunner.ts:28-34 | creating a run for an existing scan keeps the registry well formed |
| Registry.SetToolRunKeepsWellFormed | src/runners/scanRunner.ts:84-93 | an update whose status agrees with its output keeps the registry well formed |
| Registry.RunsOf | src/controllers/scanController.ts:77-82 | exactly the runs of the given scan, each as often as in the table, and no other run |
| Registry.RunsOfKeepsOrder | src/controllers/scanController.ts:77-82 | the runs of a scan keep the table's order by id |
| Registry.FindScan | src/controllers/scanController.ts:77-82 | found exactly for an existing id, and then it is the scan with that id |
| Registry.Store.constructor | src/controllers/scanController.ts:25-30 | an empty, well-formed registry |
| Registry.Store.CreateScan | src/controllers/scanController.ts:25-30 | a throwing write changes nothing; otherwise the table becomes `AddScan` of the old one |
| Registry.Store.UpdateScanStatus | src/runners/scanRunner.ts:99-112 | a throwing write changes nothing; otherwise the tables become `SetScanStatus` of the old ones |
| Registry.Store.CreateToolRun | src/runners/scanRunner.ts:28-34 | a throwing write changes nothing; otherwise the tables become `AddToolRun` of the old ones |
| Registry.Store.UpdateToolRun | src/runners/scanRunner.ts:61-93 | a throwing write changes nothing; otherwise the tables become `SetToolRun` of the old ones |
| ScanRunner.FailedOutput | src/runners/scanRunner.ts:84-93 | an `Error` is recorded with its message and stack; any other thrown value as "Unknown Error" with no stack |
| ScanRunner.Attempt | src/runners/scanRunner.ts:44-52 | the tool's failure, else the summary's failure, is the error; when both succeed, the tool's result and its summary |
| ScanRunner.Caught | src/runners/scanRunner.ts:43-82 | nothing is caught exactly when the tool, its summary and the COMPLETED update all succeed; otherwise the first of them to throw gives the error |

| ScanRunner.VerdictOf | src/runners/scanRunner.ts:28-94 | a finished run's status agrees with its output; a COMPLETED run holds the tool's result and its summary |
| ScanRunner.ToolStep | src/runners/scanRunner.ts:26-94 | one pass never touches the scans table |
| ScanRunner.ProcessFrom | src/runners/scanRunner.ts:25-95 | the loop never touches the scans table |
| ScanRunner.NotCreatedStep | src/runners/scanRunner.ts:28-34 | when the run record cannot be created, nothing changes and the loop stops with that error |
| ScanRunner.CompletedStep | src/runners/scanRunner.ts:44-70 | tool, summary and update succeed: the run is COMPLETED with `{raw, aiSummary}`, in the order create, invoke, summarise, write |
| ScanRunner.CaughtStep | src/runners/scanRunner.ts:77-93 | a caught error marks the run FAILED, or stops the loop with the FAILED update's own error when that throws |
| ScanRunner.RunTool | src/runners/scanRunner.ts:26-94 | the loop body on the store produces exactly the state and stopping error of `ToolStep` |
| ScanRunner.LoopStep | src/runners/scanRunner.ts:25-95 | after one pass the loop continues or ends, as the pass's error dictates |
| ScanRunner.FullScan | src/runners/scanRunner.ts:21-114 | only the scan being run changes, and only its status; an escaping error is the FAILED update's own, and leaves the scans untouched |
| ScanRunner.Finish | src/runners/scanRunner.ts:99-113 | the tool records and every other scan are kept; the FAILED update's error escapes exactly when the loop or COMPLETED update failed and that update threw, leaving the state as the loop left it; the loop's steps come first |
| ScanRunner.RunFullScan | src/runners/scanRunner.ts:21-114 | the loop and final update on the store produce exactly the state, steps and outcome of `FullScan` |
| ScanRunner.MarkScan | src/runners/scanRunner.ts:99-112 | the scan's final update on the store is exactly `Finish` |
| ScanRunner.FirstAbort | src/runners/scanRunner.ts:25-95 | the first tool whose verdict stops the loop; no earlier tool stops it |
| ScanRunner.RecordOf | src/runners/scanRunner.ts:28-93 | a finished tool leaves a terminal, consistent record; a tool whose FAILED update threw leaves a RUNNING record without output |
| ScanRunner.AddThenSet | src/runners/scanRunner.ts:28-70 | creating a run and then finishing it appends the finished record |
| ScanRunner.ToolStepEffect | src/runners/scanRunner.ts:26-94 | a pass appends the tool's record unless it could not be created, and stops the loop exactly when the verdict does |
| ScanRunner.FinishedStep | src/runners/scanRunner.ts:25-95 | after a tool that finishes, the loop goes on and its record heads the new records |
| ScanRunner.StoppingStep | src/runners/scanRunner.ts:28-34 | a tool that stops the loop appends at most its own record, and nothing follows |
| ScanRunner.LoopRecords | src/runners/scanRunner.ts:25-95 | the loop appends exactly one record per tool up to the first that stops it, and that one only if it was created |
| ScanRunner.LoopAbort | src/runners/scanRunner.ts:25-95 | the loop stops with the error of the first stopping tool, or not at all |
| ScanRunner.LoopEvents | src/runners/scanRunner.ts:25-95 | the loop takes the steps of every tool up to and including the one that stops it, in configuration order |
| ScanRunner.GoingOnEvents | src/runners/scanRunner.ts:77-95 | after a tool that does not stop the loop, the next tool's steps follow |
| ScanRunner.StoppingEvents | src/runners/scanRunner.ts:28-34 | a tool that stops the loop is the last whose steps are taken |
| ScanRunner.FinishEffect | src/runners/scanRunner.ts:99-112 | COMPLETED when the loop ran through and the update is stored; else FAILED, or unchanged with the FAILED update's error escaping when that update throws; tool records untouched |
| ScanRunner.FullScanOutcome | src/runners/scanRunner.ts:21-114 | the scan ends COMPLETED exactly when no tool stopped the loop and that write held; FAILED otherwise; only a throwing FAILED write escapes, with its own error; tool records are those of the loop; scan writes follow all tool steps |
| ScanRunner.FullScanState | src/runners/scanRunner.ts:21-114 | after a full scan the tool records are the loop's and only the scan's status has changed, to COMPLETED, FAILED, or not at all |
| ScanRunner.AllFinished | src/runners/scanRunner.ts:15-19 | with no stopping tool, one terminal record per tool, in configuration order |
| ScanRunner.AppendedRecords | src/runners/scanRunner.ts:15-19 | the per-tool records sit after the earlier records, in configuration order |
| ScanRunner.EveryToolRecorded | src/runners/scanRunner.ts:25-102 | with every record write succeeding, exactly three new terminal records, for semgrep, gitleaks and trivy in that order; earlier records kept; scan COMPLETED; nothing escapes |
| ScanRunner.NoToolAborts | src/runners/scanRunner.ts:28-34 | when every create and FAILED update succeeds, no tool stops the loop |
| ScanRunner.VerdictIsLocal | src/runners/scanRunner.ts:43-94 | a tool's fate and steps depend only on its own writes, result and summary |
| ScanRunner.SameFirstAbort | src/runners/scanRunner.ts:25-95 | the first stopping tool depends only on which tools stop |
| ScanRunner.OtherVerdictsAgree | src/runners/scanRunner.ts:43-94 | changing one tool's result or summary changes no other tool's fate, and stops neither loop |
| ScanRunner.FailureIsIsolated | src/runners/scanRunner.ts:25-95 | whatever one tool or its summary does, the scans end the same and every other tool's record is the same |
| ScanRunner.FailureKeepsOutcome | src/runners/scanRunner.ts:25-114 | whatever one tool or its summary does, the run returns, or lets the same error escape, alike |

| ScanRunner.NewRunsAgree | src/runners/scanRunner.ts:25-95 | loops whose verdicts differ in one non-stopping tool differ at most in that tool's record |
| ScanRunner.ToolEventOrder | src/runners/scanRunner.ts:28-93 | per tool: create first, then invoke, summarise only after a successful tool, and a status update last |
| Toolchain.ToThrown | src/runners/scanRunner.ts:89-90 | every adapter error reaches the runner as an `Error` with the adapter's message |
| Toolchain.Invoke | src/runners/scanRunner.ts:15-19 | each configured tool runs its own adapter on the path; every rejection is an `Error` |
| Toolchain.OracleOf | src/runners/scanRunner.ts:44-52 | the runner invokes the tool's adapter and summarises under the tool's name |
| Toolchain.AdapterFailureRecorded | src/runners/scanRunner.ts:77-93 | an adapter failure is recorded FAILED with its message and a stack, never "Unknown Error" |
| Toolchain.SummaryFailureRecorded | src/runners/scanRunner.ts:52-93 | an adapter that succeeds with a summary request that fails is recorded FAILED with the chat service's error |
| Toolchain.CompletedSummaryIsTidy | src/runners/scanRunner.ts:52-70 | a COMPLETED run always carries a non-blank summary |
| Toolchain.BlankSemgrepOutputCompletes | src/services/semgrepService.ts:20-26 | empty Semgrep output makes a COMPLETED run with an empty findings list |
| ScanSchema.GithubRepoUrlMatchesPattern | src/validations/scanSchema.ts:6 | the executable check accepts exactly the strings `^https://github\.com/.+/.+$` matches |
| ScanSchema.PatternAdmitsTrailingText | src/validations/scanSchema.ts:6 | text after the repository name, shell syntax included, passes the pattern |
| ScanSchema.StringIssues | src/validations/scanSchema.ts:6-8 | both string checks run; no issue exactly when the value is a URL and a GitHub repository URL; each failure gives its own message |
| ScanSchema.ValidateStartScan | src/validations/scanSchema.ts:5-9 | accepts exactly an object whose `repoUrl` is a string passing both checks, and returns that string; a rejection has at least one issue |
| ScanSchema.FormErrors | src/validations/scanSchema.ts:5-9 | every issue about the body itself has its message in the form errors, and every form error is such a message |
| ScanSchema.FormErrorsOfConcat | src/validations/scanSchema.ts:5-9 | form errors are collected issue by issue, in order |
| ScanSchema.FormErrorsAreUnkeyed | src/validations/scanSchema.ts:5-9 | the form errors are exactly the messages of the issues with an empty path, in order |
| ScanSchema.FieldErrors | src/validations/scanSchema.ts:5-9 | every field issue's message is listed under its field; no other field appears, and none with an empty list |
| ScanSchema.FieldErrorsAreKeyed | src/validations/scanSchema.ts:5-9 | each field lists exactly the messages of the issues whose path starts with it, in order, one per issue |

| ScanController.AcceptedUrlReachesShell | src/services/gitService.ts:32 | the validated URL is pasted unquoted into the clone command |
| ScanController.ShellTextInCloneCommand | src/services/gitService.ts:32 | a second shell command after an accepted repository name is part of the clone command line |
| ScanController.Clone | src/services/gitService.ts:17-72 | resolves exactly when cloned, with `/tmp/repo-scans/scan-<id>`; a git failure is "Git Clone failed: " plus standard error |
| ScanController.StartScanSpec | src/controllers/scanController.ts:9-67 | tool runs untouched and earlier scans kept; at most one new scan, with the next id, the validated URL and CLONING or RUNNING; only that scan, in its own directory, is launched; 201 only for a launched RUNNING scan, otherwise 400 or the error to `next` |
| ScanController.StartScan | src/controllers/scanController.ts:9-67 | the handler on the store produces exactly the state, reply and runner launch of `StartScanSpec` |
| ScanController.InvalidBodyRejected | src/controllers/scanController.ts:11-21 | a body is answered 400 exactly when it fails validation, and then nothing is stored or started |
| ScanController.CloneFailureStopsScan | src/controllers/scanController.ts:25-45 | a failed clone leaves the new scan CLONING with no tool runs, starts nothing and passes the error on |
| ScanController.StartedScan | src/controllers/scanController.ts:25-57 | success answers 201 with id, URL, RUNNING and path, hands that id and path to the runner, and stores the scan as RUNNING |
| ScanController.RunningUpdateFailure | src/controllers/scanController.ts:37-45 | the runner is launched before the RUNNING write, so a failing write fails the request while the scan goes on |
| ScanController.GetScanResults | src/controllers/scanController.ts:69-92 | 400 for a NaN id, the lookup's error to `next`, 404 for an unknown id, otherwise 200 with the scan whose id `parseInt` read and exactly its tool runs |
| ScanController.LookupByDecimalId | src/controllers/scanController.ts:77-88 | asking for scan `n` gives that scan with exactly its own tool runs, or 404 |
| ScanController.NonNumericIdRejected | src/controllers/scanController.ts:70-74 | an id on which `parseInt` finds no digit after blanks, a sign and an optional `0x` is answered 400 |
| ScanController.InsertByAge | src/controllers/scanController.ts:97 | inserting adds exactly one entry |
| ScanController.InsertByAgeSorted | src/controllers/scanController.ts:97 | inserting into a newest-first list keeps it newest first |
| ScanController.InsertByAgePermutes | src/controllers/scanController.ts:97 | inserting adds the entry and loses nothing |
| ScanController.SortNewestFirst | src/controllers/scanController.ts:97 | the result is newest first and a permutation of the input |
| ScanController.ListAllScans | src/controllers/scanController.ts:94-105 | the query's error goes to `next`; otherwise 200 with every scan and its runs, newest first |

## Left out

- Concurrency is not modelled. `startScan` starts `runFullScan` without awaiting it, and the runner's writes can interleave with the RUNNING update. The controller and the runner are modelled as separate sequential steps; `StartScan` returns the scan it launches.
- A throwing FAILED update of the scan is an unhandled rejection in the service. It is modelled as the outcome `Escaped(error)`; what Node does with the rejection is not.
- Logging is left out, except for log lines that throw where that changes the outcome: property reads on `null`, `parsed.map` and the rule `join` in gitleaks, and the `reduce` and `+` in trivy. A JSON object with its own `toString` key cannot be converted to text or a number, so the `join` and the `+` throw on it.
- The size logs at `src/runners/scanRunner.ts:50` and `:58` (`JSON.stringify(...).length`) are taken not to throw. Every adapter resolves with an object and every summary is a string.
- The eight adapters are left standalone. Only semgrep, gitleaks and trivy are in the runner's tool list, and the `Tool` datatype fixes that list. Snyk, SonarQube, Clair, Nikto and Anchore are modelled on their own.
- Outside functions are parameters, not modelled code: `JSON.parse`, `JSON.stringify`, zod's `.url()`, the OpenAI client, error stack text, and how the engine words a `TypeError`. JSON numbers are reals.
- Strings are sequences of code points. `slice(0, 3000)` in `summarizeWithAI` counts UTF-16 units, so a result with characters outside the Basic Multilingual Plane is cut at a different place.
- AiSummary.ReplyText: assumes the first choice has a `message`. A choice without one makes the source throw a `TypeError`; the model reads `content` directly.
- `cloneRepo` is an outcome parameter: cloned, git failed with its standard error, or the directory setup threw. The directory clean-up, `mkdir` and `path.join` normalisation are left out.
- The Prisma client is not part of this model. Ids count up from 1 and nothing is deleted.
- ScanRunner.RunFullScan: requires the scan to exist. The controller always passes a scan it has just created. A missing scan would make every write throw, which the write parameters can already express.
- ScanController.ListAllScans: states newest-first order and a permutation, not the exact order among scans with equal `createdAt`. The database does not fix that order.
- `Date.now()` in the SonarQube project key, and the `createdAt` clock, are inputs.
- Express wiring is left out: the app, the server, the routes, the error handler and the logger middleware.
- Gitleaks.LeakCountOfReport: the source reads the count into a double, so the count is exact only below 2^53. The model reads an unbounded whole number.
- Js.NatToString: renders every whole number as plain digits. JavaScript does so only below 10^21 and writes larger numbers in exponent form, such as "1e+23". This affects the gitleaks warning text (`Gitleaks.WarningText`) and the SonarQube project key.
- Js.ParseInt: returns an unbounded integer. `parseInt` returns a double, so ids of 2^53 and above are rounded before the lookup.
- Trivy.Plus: the text a total becomes is not kept, only that it is text. The total only reaches the log. Lengths of strings count code points, not UTF-16 units; both are numbers and neither throws.
