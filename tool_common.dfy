/** What every tool adapter shares: the command runner of
    src/utils/cliRunner.ts, the JSON parser, and the shape of an adapter's
    outcome (the commands it issued, then a report or the error it
    throws). */
module ToolCommon {
  import opened Js

  /** How an external command ended, as `child_process.exec` reports it. */
  datatype ExecOutcome =
    | Exited(stdout: string)
    | ExecFailed(stderr: string, message: string)

  /** The shell: the outcome of running each command line. */
  type Shell = string -> ExecOutcome

  /** `JSON.parse`: a value, or the message of the `SyntaxError` it throws. */
  type Parser = string -> Result<Json, string>

  /** The error an adapter throws. `CommandFailed`, `ParseRejected` and
      `TypeErr` are errors raised below the adapter and rethrown by it
      unchanged; `Raised` is an `Error` the adapter creates with its own
      message, replacing whatever went wrong. */
  datatype Failure =
    | CommandFailed(message: string)
    | ParseRejected(message: string)
    | TypeErr(fault: TypeFault)
    | Raised(message: string)

  /** One adapter call: the command lines it ran, in order, and its result. */
  datatype Run<+T> = Run(commands: seq<string>, result: Result<T, Failure>)

  /** `runCommand(cmd)`: resolves with standard output, or rejects with an
      `Error` whose message is standard error when that is non-empty and
      the process error's message otherwise. */
  function RunCommand(e: ExecOutcome): (r: Result<string, string>)
    ensures e.Exited? ==> r == Ok(e.stdout)
    ensures e.ExecFailed? && e.stderr != "" ==> r == Err(e.stderr)
    ensures e.ExecFailed? && e.stderr == "" ==> r == Err(e.message)
  {
    match e
    case Exited(out) => Ok(out)
    case ExecFailed(err, msg) => Err(if err != "" then err else msg)
  }

  /** `process.env.NAME || fallback`: an unset or empty variable takes the
      fallback. */
  function EnvOr(v: Option<string>, fallback: string): (r: string)
    ensures v.Some? && v.value != "" ==> r == v.value
    ensures v.None? || v.value == "" ==> r == fallback
  {
    if v.Some? && v.value != "" then v.value else fallback
  }

  /** Whether `parse` rejects every blank text, as `JSON.parse` does. */
  ghost predicate RejectsBlank(parse: Parser)
  {
    forall s :: IsBlank(s) ==> parse(s).Err?
  }

  /** The adapter's own error, thrown in place of whatever failed. */
  predicate IsWrapped<T>(r: Run<T>, message: string)
  {
    r.result == Err(Raised(message))
  }
}
