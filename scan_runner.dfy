/** The scan orchestrator (src/runners/scanRunner.ts): runs the configured
    tools one after another on a cloned repository, records each tool's run
    in the registry, and finally marks the scan COMPLETED or FAILED. */
module ScanRunner {
  import opened Js
  import opened Registry
  import AiSummary

  /** The tools the runner knows. */
  datatype Tool = SemgrepTool | GitleaksTool | TrivyTool

  /** The name under which a tool's run is recorded and summarised. */
  function ToolName(t: Tool): string
  {
    match t
    case SemgrepTool => "semgrep"
    case GitleaksTool => "gitleaks"
    case TrivyTool => "trivy"
  }

  /** The configured tools, in the order they run. */
  const Tools: seq<Tool> := [SemgrepTool, GitleaksTool, TrivyTool]

  /** How the database writes made for one tool end: the creation of its
      run record, the COMPLETED update and the FAILED update. */
  datatype ToolWrites = ToolWrites(create: Write, complete: Write, fail: Write)

  /** Everything outside the runner: the database, each tool's `runFn`
      (by tool name, applied to the local path) and `summarizeWithAI`
      (by tool name, applied to the tool's result). */
  datatype Oracle = Oracle(
    writes: Tool -> ToolWrites,
    invoke: (Tool, string) -> Result<Json, Thrown>,
    summarize: (Tool, Json) -> Result<string, Thrown>,
    markCompleted: Write,
    markFailed: Write)

  /** The externally visible steps, in the order the runner takes them.
      A write appears whether or not it succeeds. */
  datatype Event =
    | CreateRun(tool: Tool)
    | Invoke(tool: Tool)
    | Summarize(tool: Tool)
    | WriteCompleted(tool: Tool)
    | WriteFailed(tool: Tool)
    | WriteScan(status: Status)

  /** `runFullScan` either returns, or rejects when even the FAILED update
      of the scan throws. */
  datatype RunOutcome = Returned | Escaped(error: Thrown)

  /** The FAILED output: an `Error`'s message and stack, or "Unknown Error"
      for any other thrown value. */
  function FailedOutput(e: Thrown): (out: RunOutput)
    ensures out.Errored?
    ensures e.ErrorThrown? <==> out.stack.Some?
    ensures e.ErrorThrown? ==> out.error == e.message && out.stack == Some(e.stack)
  {
    match e
    case ErrorThrown(message, stack) => Errored(message, Some(stack))
    case ValueThrown => Errored("Unknown Error", None)
  }

  /** The inner `try` up to the COMPLETED update: run the tool, then
      summarise its result. */
  function Attempt(name: Tool, path: string, o: Oracle): (r: Result<(Json, string), Thrown>)
    ensures r.Ok? ==> o.invoke(name, path) == Ok(r.value.0) && o.summarize(name, r.value.0) == Ok(r.value.1)
    ensures o.invoke(name, path).Err? ==> r == Err(o.invoke(name, path).error)
    // a summary failure after a successful tool run is the error
    ensures o.invoke(name, path).Ok? && o.summarize(name, o.invoke(name, path).value).Err? ==>
              r == Err(o.summarize(name, o.invoke(name, path).value).error)
    ensures o.invoke(name, path).Ok? && o.summarize(name, o.invoke(name, path).value).Ok? ==>
              r == Ok((o.invoke(name, path).value, o.summarize(name, o.invoke(name, path).value).value))
  {
    match o.invoke(name, path)
    case Err(e) => Err(e)
    case Ok(raw) =>
      match o.summarize(name, raw)
      case Err(e) => Err(e)
      case Ok(summary) => Ok((raw, summary))
  }

  /** What becomes of one tool's run record: never created (the creation
      threw), created but left RUNNING (the FAILED update threw), or
      finished with a terminal status and output. */
  datatype Verdict =
    | NotCreated(error: Thrown)
    | Stuck(error: Thrown)
    | Finished(status: Status, output: RunOutput)

  /** The error that stops the whole loop, if any. */
  predicate Aborts(v: Verdict)
  {
    !v.Finished?
  }

  /** The error the inner `catch` receives, if any: a failure of the tool,
      of the summary, or of the COMPLETED update. */
  function Caught(name: Tool, path: string, o: Oracle): (r: Option<Thrown>)
    // nothing is caught exactly when the tool, its summary and the COMPLETED update all succeed
    ensures r.None? <==> && o.invoke(name, path).Ok? && o.summarize(name, o.invoke(name, path).value).Ok?
                         && o.writes(name).complete.Succeeds?
    // the first of them to throw gives the error
    ensures o.invoke(name, path).Err? ==> r == Some(o.invoke(name, path).error)
    ensures o.invoke(name, path).Ok? && o.summarize(name, o.invoke(name, path).value).Err? ==>
              r == Some(o.summarize(name, o.invoke(name, path).value).error)
    ensures Attempt(name, path, o).Ok? && o.writes(name).complete.Throws? ==> r == Some(o.writes(name).complete.error)
  {
    match Attempt(name, path, o)
    case Err(e) => Some(e)
    case Ok(_) => if o.writes(name).complete.Throws? then Some(o.writes(name).complete.error) else None
  }

  function VerdictOf(name: Tool, path: string, o: Oracle): (v: Verdict)
    ensures v.Finished? ==> Consistent(v.status, Some(v.output))
    ensures v.Finished? && v.status == Completed ==>
              o.invoke(name, path) == Ok(v.output.raw) && o.summarize(name, v.output.raw) == Ok(v.output.aiSummary)
  {
    var w := o.writes(name);
    if w.create.Throws? then NotCreated(w.create.error)
    else
      match Caught(name, path, o)
      case None =>
        var tried := Attempt(name, path, o).value;
        Finished(Completed, Summarized(tried.0, tried.1))
      case Some(e) =>
        if w.fail.Succeeds? then Finished(Failed, FailedOutput(e)) else Stuck(w.fail.error)
  }

  /** The steps taken for one tool. */
  function EventsOf(name: Tool, path: string, o: Oracle): seq<Event>
  {
    if o.writes(name).create.Throws? then [CreateRun(name)]
    else
      [CreateRun(name), Invoke(name)]
      + (if o.invoke(name, path).Ok? then [Summarize(name)] else [])
      + (if Attempt(name, path, o).Ok? then [WriteCompleted(name)] else [])
      + (if Caught(name, path, o).Some? then [WriteFailed(name)] else [])
  }

  /** A state of the registry and the error that stopped the loop, if
      any. */
  datatype Step = Step(state: Snapshot, abort: Option<Thrown>)

  /** One pass of the loop body. */
  function ToolStep(s: Snapshot, scanId: nat, path: string, name: Tool, o: Oracle): (r: Step)
    requires 1 <= scanId <= |s.scans|
    ensures r.state.scans == s.scans
  {
    match VerdictOf(name, path, o)
    case NotCreated(e) => Step(s, Some(e))
    case Stuck(e) => Step(AddToolRun(s, scanId, ToolName(name)).0, Some(e))
    case Finished(status, output) =>
      var added := AddToolRun(s, scanId, ToolName(name));
      Step(SetToolRun(added.0, added.1.id, status, output), None)
  }

  /** The loop from tool `i` on: it stops at the first error that escapes
      the inner `catch`. */
  function ProcessFrom(s: Snapshot, scanId: nat, path: string, o: Oracle, i: nat): (r: Step)
    requires 1 <= scanId <= |s.scans|
    ensures r.state.scans == s.scans
    decreases |Tools| - i
  {
    if i >= |Tools| then Step(s, None)
    else
      var st := ToolStep(s, scanId, path, Tools[i], o);
      if st.abort.Some? then st else ProcessFrom(st.state, scanId, path, o, i + 1)
  }

  /** The steps the loop takes from tool `i` on. */
  function EventsFrom(path: string, o: Oracle, i: nat): seq<Event>
    decreases |Tools| - i
  {
    if i >= |Tools| then []
    else
      EventsOf(Tools[i], path, o)
      + (if Aborts(VerdictOf(Tools[i], path, o)) then [] else EventsFrom(path, o, i + 1))
  }

  datatype ScanResult = ScanResult(state: Snapshot, events: seq<Event>, outcome: RunOutcome)

  /** `runFullScan(scanId, localPath)`: the loop, then the COMPLETED update
      of the scan; an error from either reaches the outer `catch`, which
      marks the scan FAILED. */
  function FullScan(s: Snapshot, scanId: nat, path: string, o: Oracle): (r: ScanResult)
    requires 1 <= scanId <= |s.scans|
    // only the scan being run changes status; no scan is added or removed
    ensures |r.state.scans| == |s.scans|
    ensures forall i :: 0 <= i < |s.scans| && i != scanId - 1 ==> r.state.scans[i] == s.scans[i]
    ensures r.state.scans[scanId - 1].(status := s.scans[scanId - 1].status) == s.scans[scanId - 1]
    // only the FAILED update of the scan can let an error escape, and then the scan is untouched
    ensures r.outcome.Escaped? ==> o.markFailed.Throws? && r.outcome.error == o.markFailed.error && r.state.scans == s.scans
  {
    Finish(ProcessFrom(s, scanId, path, o, 0), EventsFrom(path, o, 0), scanId, o)
  }

  /** After the loop, which took the steps `done`: the scan's COMPLETED
      update, or the outer `catch`. */
  function Finish(loop: Step, done: seq<Event>, scanId: nat, o: Oracle): (r: ScanResult)
    requires 1 <= scanId <= |loop.state.scans|
    // the tool records are left as the loop left them, and so is every other scan
    ensures r.state.toolRuns == loop.state.toolRuns
    ensures |r.state.scans| == |loop.state.scans|
    ensures forall i :: 0 <= i < |loop.state.scans| && i != scanId - 1 ==> r.state.scans[i] == loop.state.scans[i]
    // the error escapes only when the loop or the COMPLETED update failed and the FAILED update threw
    ensures r.outcome == if (loop.abort.Some? || o.markCompleted.Throws?) && o.markFailed.Throws?
                         then Escaped(o.markFailed.error) else Returned
    ensures r.outcome.Escaped? ==> r.state == loop.state
    // the steps taken are the loop's, then the scan updates
    ensures |done| <= |r.events| && r.events[..|done|] == done
  {
    if loop.abort.None? && o.markCompleted.Succeeds? then
      ScanResult(SetScanStatus(loop.state, scanId, Completed), done + [WriteScan(Completed)], Returned)
    else
      var events := done + (if loop.abort.None? then [WriteScan(Completed)] else []) + [WriteScan(Failed)];
      if o.markFailed.Succeeds? then ScanResult(SetScanStatus(loop.state, scanId, Failed), events, Returned)
      else ScanResult(loop.state, events, Escaped(o.markFailed.error))
  }

  /** One pass in which the run record cannot be created. */
  lemma NotCreatedStep(s: Snapshot, scanId: nat, path: string, name: Tool, o: Oracle)
    requires 1 <= scanId <= |s.scans|
    requires o.writes(name).create.Throws?
    ensures ToolStep(s, scanId, path, name, o) == Step(s, Some(o.writes(name).create.error))
    ensures EventsOf(name, path, o) == [CreateRun(name)]
  {
  }

  /** One pass in which the tool and its summary succeed and the COMPLETED
      update is stored. */
  lemma CompletedStep(s: Snapshot, scanId: nat, path: string, name: Tool, o: Oracle, raw: Json, summary: string)
    requires 1 <= scanId <= |s.scans|
    requires o.writes(name).create.Succeeds? && o.writes(name).complete.Succeeds?
    requires Attempt(name, path, o) == Ok((raw, summary))
    ensures ToolStep(s, scanId, path, name, o)
         == Step(SetToolRun(AddToolRun(s, scanId, ToolName(name)).0, |s.toolRuns| + 1, Completed, Summarized(raw, summary)), None)
    ensures EventsOf(name, path, o) == [CreateRun(name), Invoke(name), Summarize(name), WriteCompleted(name)]
  {
  }

  /** One pass in which the inner `catch` receives `e` after the steps
      `tried`. */
  lemma CaughtStep(s: Snapshot, scanId: nat, path: string, name: Tool, o: Oracle, e: Thrown, tried: seq<Event>)
    requires 1 <= scanId <= |s.scans|
    requires o.writes(name).create.Succeeds? && Caught(name, path, o) == Some(e)
    requires tried == [CreateRun(name), Invoke(name)]
                      + (if o.invoke(name, path).Ok? then [Summarize(name)] else [])
                      + (if Attempt(name, path, o).Ok? then [WriteCompleted(name)] else [])
    ensures var s1 := AddToolRun(s, scanId, ToolName(name)).0;
            var fail := o.writes(name).fail;
            ToolStep(s, scanId, path, name, o)
            == if fail.Succeeds? then Step(SetToolRun(s1, |s.toolRuns| + 1, Failed, FailedOutput(e)), None)
               else Step(s1, Some(fail.error))
    ensures EventsOf(name, path, o) == tried + [WriteFailed(name)]
  {
  }

  /** The loop body for one tool, on the store. */
  method RunTool(store: Store, scanId: nat, path: string, name: Tool, o: Oracle)
    returns (abort: Option<Thrown>, ghost events: seq<Event>)
    requires store.Valid() && 1 <= scanId <= |store.scans|
    modifies store
    ensures store.Valid()
    ensures Step(store.State(), abort) == ToolStep(old(store.State()), scanId, path, name, o)
    ensures events == EventsOf(name, path, o)
  {
    ghost var s0 := store.State();
    var w := o.writes(name);
    events := [CreateRun(name)];
    var created := store.CreateToolRun(scanId, ToolName(name), w.create);
    if created.Err? {
      NotCreatedStep(s0, scanId, path, name, o);
      return Some(created.error), events;
    }
    var run := created.value;
    ghost var s1 := store.State();
    assert s1 == AddToolRun(s0, scanId, ToolName(name)).0 && run.id == |s0.toolRuns| + 1;
    var failure: Option<Thrown> := None;
    events := events + [Invoke(name)];
    var raw := o.invoke(name, path);
    if raw.Err? {
      failure := Some(raw.error);
    } else {
      events := events + [Summarize(name)];
      var summary := o.summarize(name, raw.value);
      if summary.Err? {
        failure := Some(summary.error);
      } else {
        assert Attempt(name, path, o) == Ok((raw.value, summary.value));
        events := events + [WriteCompleted(name)];
        var done := store.UpdateToolRun(run.id, Completed, Summarized(raw.value, summary.value), w.complete);
        if done.Err? {
          failure := Some(done.error);
        } else {
          CompletedStep(s0, scanId, path, name, o, raw.value, summary.value);
        }
      }
    }
    abort := None;
    if failure.Some? {
      CaughtStep(s0, scanId, path, name, o, failure.value, events);
      events := events + [WriteFailed(name)];
      var failed := store.UpdateToolRun(run.id, Failed, FailedOutput(failure.value), w.fail);
      if failed.Err? {
        abort := Some(failed.error);
      }
    }
  }

  /** What one pass of the loop contributes: the rest of the loop, or
      the loop's end, and the steps taken so far. */
  lemma LoopStep(s: Snapshot, scanId: nat, path: string, o: Oracle, i: nat, done: seq<Event>)
    requires 1 <= scanId <= |s.scans| && i < |Tools|
    ensures var st := ToolStep(s, scanId, path, Tools[i], o);
            var taken := done + EventsOf(Tools[i], path, o);
            && (st.abort.None? ==> ProcessFrom(s, scanId, path, o, i) == ProcessFrom(st.state, scanId, path, o, i + 1)
                                   && done + EventsFrom(path, o, i) == taken + EventsFrom(path, o, i + 1))
            && (st.abort.Some? ==> ProcessFrom(s, scanId, path, o, i) == st && done + EventsFrom(path, o, i) == taken)
  {
    ToolStepEffect(s, scanId, path, Tools[i], o);
    var rest := EventsFrom(path, o, i + 1);
    assert done + (EventsOf(Tools[i], path, o) + rest) == (done + EventsOf(Tools[i], path, o)) + rest;
    assert EventsOf(Tools[i], path, o) + [] == EventsOf(Tools[i], path, o);
  }

  /** `runFullScan(scanId, localPath)` on the store. */
  method RunFullScan(store: Store, scanId: nat, localPath: string, o: Oracle)
    returns (outcome: RunOutcome, ghost events: seq<Event>)
    requires store.Valid() && 1 <= scanId <= |store.scans|
    modifies store
    ensures store.Valid()
    ensures ScanResult(store.State(), events, outcome) == FullScan(old(store.State()), scanId, localPath, o)
  {
    ghost var start := store.State();
    ghost var total := ProcessFrom(start, scanId, localPath, o, 0);
    ghost var all := EventsFrom(localPath, o, 0);
    var i := 0;
    var abort: Option<Thrown> := None;
    events := [];
    while i < |Tools| && abort.None?
      invariant 0 <= i <= |Tools|
      invariant store.Valid() && store.scans == start.scans
      invariant abort.None? ==> total == ProcessFrom(store.State(), scanId, localPath, o, i)
                                && all == events + EventsFrom(localPath, o, i)
      invariant abort.Some? ==> total == Step(store.State(), abort) && all == events
      decreases |Tools| - i
    {
      LoopStep(store.State(), scanId, localPath, o, i, events);
      var stepAbort;
      ghost var stepEvents;
      stepAbort, stepEvents := RunTool(store, scanId, localPath, Tools[i], o);
      events := events + stepEvents;
      abort := stepAbort;
      i := i + 1;
    }
    assert all == events by {
      if abort.None? {
        assert events + [] == events;
      }
    }
    outcome, events := MarkScan(store, scanId, events, abort, o);
  }

  /** The scan's final status update, after the steps `done`. */
  method MarkScan(store: Store, scanId: nat, ghost done: seq<Event>, abort: Option<Thrown>, o: Oracle)
    returns (outcome: RunOutcome, ghost events: seq<Event>)
    requires store.Valid() && 1 <= scanId <= |store.scans|
    modifies store
    ensures store.Valid()
    ensures ScanResult(store.State(), events, outcome) == Finish(Step(old(store.State()), abort), done, scanId, o)
  {
    events := done;
    if abort.None? {
      events := events + [WriteScan(Completed)];
      var completed := store.UpdateScanStatus(scanId, Completed, o.markCompleted);
      if completed.Ok? {
        return Returned, events;
      }
    }
    events := events + [WriteScan(Failed)];
    var failed := store.UpdateScanStatus(scanId, Failed, o.markFailed);
    outcome := if failed.Ok? then Returned else Escaped(failed.error);
  }

  // ---------------------------------------------------------------------
  // What a full scan leaves behind

  /** The first tool, from `i` on, whose verdict stops the loop, or the
      number of tools when none does. */
  function FirstAbort(path: string, o: Oracle, i: nat): (k: nat)
    requires i <= |Tools|
    ensures i <= k <= |Tools|
    ensures forall j :: i <= j < k ==> !Aborts(VerdictOf(Tools[j], path, o))
    ensures k < |Tools| ==> Aborts(VerdictOf(Tools[k], path, o))
    decreases |Tools| - i
  {
    if i == |Tools| || Aborts(VerdictOf(Tools[i], path, o)) then i
    else FirstAbort(path, o, i + 1)
  }

  /** The record a verdict leaves: its terminal status and output, or still
      RUNNING when the FAILED update threw. */
  function RecordOf(id: nat, scanId: nat, name: Tool, v: Verdict): (r: ToolRun)
    requires !v.NotCreated? && (v.Finished? ==> Consistent(v.status, Some(v.output)))
    ensures r.id == id && r.scanId == scanId && r.toolName == ToolName(name)
    ensures v.Finished? ==> IsTerminal(r) && Consistent(r.status, r.output)
    ensures v.Stuck? ==> r.status == Running && r.output.None?
  {
    if v.Finished? then ToolRun(id, scanId, ToolName(name), v.status, Some(v.output))
    else ToolRun(id, scanId, ToolName(name), Running, None)
  }

  /** The records the loop adds from tool `i` on, after `base` existing
      ones: one finished record per tool up to the first that stops the
      loop, then that tool's RUNNING record if it was created. */
  function NewRuns(scanId: nat, path: string, o: Oracle, base: nat, i: nat): (runs: seq<ToolRun>)
    decreases |Tools| - i
  {
    if i >= |Tools| then []
    else
      var v := VerdictOf(Tools[i], path, o);
      if v.NotCreated? then []
      else if v.Stuck? then [RecordOf(base + 1, scanId, Tools[i], v)]
      else [RecordOf(base + 1, scanId, Tools[i], v)] + NewRuns(scanId, path, o, base + 1, i + 1)
  }

  /** The steps of tools `i` up to (not including) `j`, in order. */
  function EventsBetween(path: string, o: Oracle, i: nat, j: nat): seq<Event>
    decreases j - i
  {
    if j <= i || j > |Tools| then [] else EventsBetween(path, o, i, j - 1) + EventsOf(Tools[j - 1], path, o)
  }

  /** The error with which a stopping verdict ends the loop. */
  function AbortError(v: Verdict): Thrown
    requires Aborts(v)
  {
    v.error
  }

  /** Adding a run record and then finishing it is the same as appending
      the finished record. */
  lemma AddThenSet(s: Snapshot, scanId: nat, name: string, status: Status, output: RunOutput)
    requires 1 <= scanId <= |s.scans|
    ensures SetToolRun(AddToolRun(s, scanId, name).0, |s.toolRuns| + 1, status, output)
         == Snapshot(s.scans, s.toolRuns + [ToolRun(|s.toolRuns| + 1, scanId, name, status, Some(output))])
  {
    var t := SetToolRun(AddToolRun(s, scanId, name).0, |s.toolRuns| + 1, status, output).toolRuns;
    assert t == s.toolRuns + [ToolRun(|s.toolRuns| + 1, scanId, name, status, Some(output))];
  }

  /** One pass of the loop body appends the tool's record, unless it
      could not be created, and stops the loop exactly when the tool's
      verdict does. */
  lemma ToolStepEffect(s: Snapshot, scanId: nat, path: string, name: Tool, o: Oracle)
    requires 1 <= scanId <= |s.scans|
    ensures var v := VerdictOf(name, path, o);
            var st := ToolStep(s, scanId, path, name, o);
            && st.state == Snapshot(s.scans, s.toolRuns + (if v.NotCreated? then [] else [RecordOf(|s.toolRuns| + 1, scanId, name, v)]))
            && st.abort == (if Aborts(v) then Some(AbortError(v)) else None)
  {
    var v := VerdictOf(name, path, o);
    if v.Finished? {
      AddThenSet(s, scanId, ToolName(name), v.status, v.output);
    } else if v.NotCreated? {
      assert s.toolRuns + [] == s.toolRuns;
    }
  }

  /** A pass for a tool that finishes lets the loop go on, and appends
      the head of `NewRuns`. */
  lemma FinishedStep(s: Snapshot, scanId: nat, path: string, o: Oracle, i: nat)
    requires 1 <= scanId <= |s.scans| && i < |Tools|
    requires VerdictOf(Tools[i], path, o).Finished?
    ensures var st := ToolStep(s, scanId, path, Tools[i], o);
            && ProcessFrom(s, scanId, path, o, i) == ProcessFrom(st.state, scanId, path, o, i + 1)
            && s.toolRuns + NewRuns(scanId, path, o, |s.toolRuns|, i)
               == st.state.toolRuns + NewRuns(scanId, path, o, |st.state.toolRuns|, i + 1)
  {
    ToolStepEffect(s, scanId, path, Tools[i], o);
    var rec := RecordOf(|s.toolRuns| + 1, scanId, Tools[i], VerdictOf(Tools[i], path, o));
    var rest := NewRuns(scanId, path, o, |s.toolRuns| + 1, i + 1);
    assert (s.toolRuns + [rec]) + rest == s.toolRuns + ([rec] + rest);
  }

  /** A pass for a tool that stops the loop is the loop's last, and what
      it appends is all of `NewRuns`. */
  lemma StoppingStep(s: Snapshot, scanId: nat, path: string, o: Oracle, i: nat)
    requires 1 <= scanId <= |s.scans| && i < |Tools|
    requires Aborts(VerdictOf(Tools[i], path, o))
    ensures ProcessFrom(s, scanId, path, o, i).state.toolRuns == s.toolRuns + NewRuns(scanId, path, o, |s.toolRuns|, i)
  {
    ToolStepEffect(s, scanId, path, Tools[i], o);
    if VerdictOf(Tools[i], path, o).NotCreated? {
      assert s.toolRuns + [] == s.toolRuns;
    }
  }

  /** The loop from tool `i` on appends exactly `NewRuns`. */
  lemma {:induction false} LoopRecords(s: Snapshot, scanId: nat, path: string, o: Oracle, i: nat)
    requires 1 <= scanId <= |s.scans| && i <= |Tools|
    ensures ProcessFrom(s, scanId, path, o, i).state.toolRuns
         == s.toolRuns + NewRuns(scanId, path, o, |s.toolRuns|, i)
    decreases |Tools| - i
  {
    if i == |Tools| {
      assert s.toolRuns + [] == s.toolRuns;
    } else if Aborts(VerdictOf(Tools[i], path, o)) {
      StoppingStep(s, scanId, path, o, i);
    } else {
      FinishedStep(s, scanId, path, o, i);
      LoopRecords(ToolStep(s, scanId, path, Tools[i], o).state, scanId, path, o, i + 1);
    }
  }

  /** The loop from tool `i` on stops with the error of the first tool
      that stops it, if any. */
  lemma {:induction false} LoopAbort(s: Snapshot, scanId: nat, path: string, o: Oracle, i: nat)
    requires 1 <= scanId <= |s.scans| && i <= |Tools|
    ensures var k := FirstAbort(path, o, i);
            ProcessFrom(s, scanId, path, o, i).abort
            == (if k < |Tools| then Some(AbortError(VerdictOf(Tools[k], path, o))) else None)
    decreases |Tools| - i
  {
    if i < |Tools| {
      var st := ToolStep(s, scanId, path, Tools[i], o);
      ToolStepEffect(s, scanId, path, Tools[i], o);
      if st.abort.None? {
        LoopAbort(st.state, scanId, path, o, i + 1);
      }
    }
  }

  /** The loop from tool `i` on takes the steps of the tools up to and
      including the one that stops it. */
  lemma {:induction false} LoopEvents(path: string, o: Oracle, i: nat)
    requires i <= |Tools|
    ensures var k := FirstAbort(path, o, i);
            EventsFrom(path, o, i) == EventsBetween(path, o, i, if k < |Tools| then k + 1 else k)
    decreases |Tools| - i
  {
    if i < |Tools| {
      if Aborts(VerdictOf(Tools[i], path, o)) {
        StoppingEvents(path, o, i);
      } else {
        GoingOnEvents(path, o, i);
        LoopEvents(path, o, i + 1);
        var k := FirstAbort(path, o, i + 1);
        EventsSplit(path, o, i, if k < |Tools| then k + 1 else k);
      }
    }
  }

  /** After a tool that does not stop the loop, the loop goes on with the
      next. */
  lemma GoingOnEvents(path: string, o: Oracle, i: nat)
    requires i < |Tools| && !Aborts(VerdictOf(Tools[i], path, o))
    ensures FirstAbort(path, o, i) == FirstAbort(path, o, i + 1)
    ensures EventsFrom(path, o, i) == EventsOf(Tools[i], path, o) + EventsFrom(path, o, i + 1)
  {
  }

  /** A tool that stops the loop is the last whose steps are taken. */
  lemma StoppingEvents(path: string, o: Oracle, i: nat)
    requires i < |Tools| && Aborts(VerdictOf(Tools[i], path, o))
    ensures EventsFrom(path, o, i) == EventsBetween(path, o, i, i + 1) == EventsOf(Tools[i], path, o)
  {
    var here := EventsOf(Tools[i], path, o);
    assert EventsBetween(path, o, i, i) == [];
    assert [] + here == here + [] == here;
  }


  /** The steps of tools `i` to `m` are tool `i`'s steps followed by the
      rest. */
  lemma {:induction false} EventsSplit(path: string, o: Oracle, i: nat, m: nat)
    requires i < m <= |Tools|
    ensures EventsBetween(path, o, i, m) == EventsOf(Tools[i], path, o) + EventsBetween(path, o, i + 1, m)
    decreases m - i
  {
    if m == i + 1 {
      assert EventsBetween(path, o, i + 1, m) == [];
      assert EventsBetween(path, o, i, i) == [];
    } else {
      EventsSplit(path, o, i, m - 1);
    }
  }

  /** The scan's final update: COMPLETED when the loop ran through and
      that update is stored; otherwise FAILED, unless that update throws
      too, which leaves the status as it was and lets the error escape.
      The tool records are left as the loop left them. */
  lemma FinishEffect(loop: Step, done: seq<Event>, scanId: nat, o: Oracle)
    requires 1 <= scanId <= |loop.state.scans|
    ensures var r := Finish(loop, done, scanId, o);
            var scans := loop.state.scans;
            var completes := loop.abort.None? && o.markCompleted.Succeeds?;
            var status := if completes then Completed
                          else if o.markFailed.Succeeds? then Failed
                          else scans[scanId - 1].status;
            && r.state == Snapshot(scans[scanId - 1 := scans[scanId - 1].(status := status)], loop.state.toolRuns)
            && r.outcome == (if !completes && o.markFailed.Throws? then Escaped(o.markFailed.error) else Returned)
            && r.events == done + (if loop.abort.None? then [WriteScan(Completed)] else [])
                           + (if completes then [] else [WriteScan(Failed)])
  {
    var scans := loop.state.scans;
    if loop.abort.None? && o.markCompleted.Succeeds? {
      assert done + [WriteScan(Completed)] + [] == done + [WriteScan(Completed)];
    } else if o.markFailed.Throws? {
      assert scans[scanId - 1 := scans[scanId - 1].(status := scans[scanId - 1].status)] == scans;
    }
  }

  /** The scan ends COMPLETED exactly when every tool finished and the
      COMPLETED update was stored. Otherwise the outer `catch` marks it
      FAILED; only when that update throws too does the error escape,
      leaving the status as it was. The loop's records are kept either
      way, and the scan writes come after every tool's steps. */
  lemma FullScanOutcome(s: Snapshot, scanId: nat, path: string, o: Oracle)
    requires 1 <= scanId <= |s.scans|
    ensures var r := FullScan(s, scanId, path, o);
            var k := FirstAbort(path, o, 0);
            var completes := k == |Tools| && o.markCompleted.Succeeds?;
            var status := if completes then Completed
                          else if o.markFailed.Succeeds? then Failed
                          else s.scans[scanId - 1].status;
            && r.state.toolRuns == s.toolRuns + NewRuns(scanId, path, o, |s.toolRuns|, 0)
            && r.state.scans == s.scans[scanId - 1 := s.scans[scanId - 1].(status := status)]
            && r.outcome == (if !completes && o.markFailed.Throws? then Escaped(o.markFailed.error) else Returned)
            && r.events == EventsBetween(path, o, 0, if k < |Tools| then k + 1 else k)
                           + (if k == |Tools| then [WriteScan(Completed)] else [])
                           + (if completes then [] else [WriteScan(Failed)])
  {
    LoopRecords(s, scanId, path, o, 0);
    LoopAbort(s, scanId, path, o, 0);
    LoopEvents(path, o, 0);
    FinishEffect(ProcessFrom(s, scanId, path, o, 0), EventsFrom(path, o, 0), scanId, o);
  }

  /** The tables after a full scan: the loop's records, and the scan's
      final status. */
  lemma FullScanState(s: Snapshot, scanId: nat, path: string, o: Oracle)
    requires 1 <= scanId <= |s.scans|
    ensures var r := FullScan(s, scanId, path, o);
            var completes := FirstAbort(path, o, 0) == |Tools| && o.markCompleted.Succeeds?;
            var status := if completes then Completed
                          else if o.markFailed.Succeeds? then Failed
                          else s.scans[scanId - 1].status;
            && r.state.toolRuns == s.toolRuns + NewRuns(scanId, path, o, |s.toolRuns|, 0)
            && r.state.scans == s.scans[scanId - 1 := s.scans[scanId - 1].(status := status)]
  {
    FullScanOutcome(s, scanId, path, o);
  }

  /** When no tool from `i` on stops the loop, each of them leaves one
      terminal record, in configuration order. */
  lemma {:induction false} AllFinished(scanId: nat, path: string, o: Oracle, base: nat, i: nat)
    requires i <= |Tools| && FirstAbort(path, o, i) == |Tools|
    ensures var added := NewRuns(scanId, path, o, base, i);
            && |added| == |Tools| - i
            && forall t :: 0 <= t < |added| ==>
                 added[t].toolName == ToolName(Tools[i + t]) && added[t].scanId == scanId && IsTerminal(added[t])
    decreases |Tools| - i
  {
    if i < |Tools| {
      AllFinished(scanId, path, o, base + 1, i + 1);
      var added := NewRuns(scanId, path, o, base, i);
      var rest := NewRuns(scanId, path, o, base + 1, i + 1);
      assert added == [RecordOf(base + 1, scanId, Tools[i], VerdictOf(Tools[i], path, o))] + rest;
      forall t | 1 <= t < |added|
        ensures added[t].toolName == ToolName(Tools[i + t])
      {
        assert added[t] == rest[t - 1];
        assert i + 1 + (t - 1) == i + t;
      }
    }
  }

  /** Records appended after `before`, one terminal record per tool of
      the scan in configuration order, sit at the end in that order. */
  lemma AppendedRecords(before: seq<ToolRun>, added: seq<ToolRun>, scanId: nat)
    requires |added| == |Tools|
    requires forall t :: 0 <= t < |added| ==>
               added[t].toolName == ToolName(Tools[t]) && added[t].scanId == scanId && IsTerminal(added[t])
    ensures var all := before + added;
            && |all| == |before| + |Tools|
            && all[..|before|] == before
            && forall j :: 0 <= j < |Tools| ==>
                 all[|before| + j].toolName == ToolName(Tools[j]) && all[|before| + j].scanId == scanId
                 && IsTerminal(all[|before| + j])
  {
    var all := before + added;
    assert all[..|before|] == before;
    forall j | 0 <= j < |Tools|
      ensures all[|before| + j] == added[j]
    {
    }
  }

  /** With no database failure, every configured tool ends with exactly
      one terminal record, in configuration order, whatever the tools
      themselves do; and the scan is COMPLETED. */
  lemma EveryToolRecorded(s: Snapshot, scanId: nat, path: string, o: Oracle)
    requires 1 <= scanId <= |s.scans|
    requires forall name :: name in Tools ==> o.writes(name).create.Succeeds? && o.writes(name).fail.Succeeds?
    requires o.markCompleted.Succeeds?
    ensures var r := FullScan(s, scanId, path, o);
            && |r.state.toolRuns| == |s.toolRuns| + |Tools|
            && r.state.toolRuns[..|s.toolRuns|] == s.toolRuns
            && (forall j :: 0 <= j < |Tools| ==>
                  var run := r.state.toolRuns[|s.toolRuns| + j];
                  run.toolName == ToolName(Tools[j]) && run.scanId == scanId && IsTerminal(run))
            && r.state.scans[scanId - 1].status == Completed
            && r.outcome == Returned
  {
    NoToolAborts(path, o, 0);
    AllFinished(scanId, path, o, |s.toolRuns|, 0);
    LoopRecords(s, scanId, path, o, 0);
    LoopAbort(s, scanId, path, o, 0);
    FinishEffect(ProcessFrom(s, scanId, path, o, 0), EventsFrom(path, o, 0), scanId, o);
    AppendedRecords(s.toolRuns, NewRuns(scanId, path, o, |s.toolRuns|, 0), scanId);
  }

  /** When every record can be created and marked FAILED, no tool stops
      the loop. */
  lemma {:induction false} NoToolAborts(path: string, o: Oracle, i: nat)
    requires i <= |Tools|
    requires forall name :: name in Tools ==> o.writes(name).create.Succeeds? && o.writes(name).fail.Succeeds?
    ensures FirstAbort(path, o, i) == |Tools|
    decreases |Tools| - i
  {
    if i < |Tools| {
      assert Tools[i] in Tools;
      NoToolAborts(path, o, i + 1);
    }
  }

  /** A tool's verdict depends only on its own writes, its own result and
      its own summary. */
  lemma VerdictIsLocal(name: Tool, path: string, o1: Oracle, o2: Oracle)
    requires o1.writes(name) == o2.writes(name) && o1.invoke(name, path) == o2.invoke(name, path)
    requires forall raw :: o1.summarize(name, raw) == o2.summarize(name, raw)
    ensures VerdictOf(name, path, o1) == VerdictOf(name, path, o2)
    ensures EventsOf(name, path, o1) == EventsOf(name, path, o2)
  {
    assert Attempt(name, path, o1) == Attempt(name, path, o2);
  }

  /** The first stopping tool depends only on which tools stop. */
  lemma {:induction false} SameFirstAbort(path: string, o1: Oracle, o2: Oracle, i: nat)
    requires i <= |Tools|
    requires forall t :: i <= t < |Tools| ==>
               (Aborts(VerdictOf(Tools[t], path, o1)) <==> Aborts(VerdictOf(Tools[t], path, o2)))
    ensures FirstAbort(path, o1, i) == FirstAbort(path, o2, i)
    decreases |Tools| - i
  {
    if i < |Tools| {
      SameFirstAbort(path, o1, o2, i + 1);
    }
  }

  /** Two oracles that differ only in tool `j`'s result and summary give
      every other tool the same verdict; and tool `j`, whose record can be
      created and marked FAILED, stops neither loop. */
  lemma OtherVerdictsAgree(path: string, o1: Oracle, o2: Oracle, j: nat)
    requires j < |Tools| && o1.writes == o2.writes
    requires forall name, p :: name != Tools[j] ==> o1.invoke(name, p) == o2.invoke(name, p)
    requires forall name, raw :: name != Tools[j] ==> o1.summarize(name, raw) == o2.summarize(name, raw)
    requires o1.writes(Tools[j]).create.Succeeds? && o1.writes(Tools[j]).fail.Succeeds?
    ensures forall t :: 0 <= t < |Tools| && t != j ==> VerdictOf(Tools[t], path, o1) == VerdictOf(Tools[t], path, o2)
    ensures !Aborts(VerdictOf(Tools[j], path, o1)) && !Aborts(VerdictOf(Tools[j], path, o2))
  {
    forall t | 0 <= t < |Tools| && t != j
      ensures VerdictOf(Tools[t], path, o1) == VerdictOf(Tools[t], path, o2)
    {
      VerdictIsLocal(Tools[t], path, o1, o2);
    }
  }

  /** Fault isolation: whatever tool `j` returns or however its summary
      ends, as long as its record can be created and marked FAILED, the
      loop goes on to the next tool, the scan ends the same way, and every
      other tool's record is the same. */
  lemma FailureIsIsolated(s: Snapshot, scanId: nat, path: string, o1: Oracle, o2: Oracle, j: nat)
    requires 1 <= scanId <= |s.scans| && j < |Tools|
    requires o1.writes == o2.writes && o1.markCompleted == o2.markCompleted && o1.markFailed == o2.markFailed
    requires forall name, p :: name != Tools[j] ==> o1.invoke(name, p) == o2.invoke(name, p)
    requires forall name, raw :: name != Tools[j] ==> o1.summarize(name, raw) == o2.summarize(name, raw)
    requires o1.writes(Tools[j]).create.Succeeds? && o1.writes(Tools[j]).fail.Succeeds?
    ensures var r1 := FullScan(s, scanId, path, o1).state;
            var r2 := FullScan(s, scanId, path, o2).state;
            && r1.scans == r2.scans && |r1.toolRuns| == |r2.toolRuns|
            && (forall t :: 0 <= t < |r1.toolRuns| && t != |s.toolRuns| + j ==> r1.toolRuns[t] == r2.toolRuns[t])
  {
    OtherVerdictsAgree(path, o1, o2, j);
    SameFirstAbort(path, o1, o2, 0);
    NewRunsAgree(scanId, path, o1, o2, |s.toolRuns|, 0, j);
    FullScanState(s, scanId, path, o1);
    FullScanState(s, scanId, path, o2);
    AppendedAgree(s.toolRuns, NewRuns(scanId, path, o1, |s.toolRuns|, 0), NewRuns(scanId, path, o2, |s.toolRuns|, 0), j);
  }

  /** Two lists that agree except at index `j` still agree except there
      once appended to the same records. */
  lemma AppendedAgree(before: seq<ToolRun>, n1: seq<ToolRun>, n2: seq<ToolRun>, j: nat)
    requires |n1| == |n2| && forall t :: 0 <= t < |n1| && t != j ==> n1[t] == n2[t]
    ensures forall t :: 0 <= t < |before + n1| && t != |before| + j ==> (before + n1)[t] == (before + n2)[t]
  {
    forall t | 0 <= t < |before + n1| && t != |before| + j
      ensures (before + n1)[t] == (before + n2)[t]
    {
      if t >= |before| {
        assert (before + n1)[t] == n1[t - |before|] && (before + n2)[t] == n2[t - |before|];
      }
    }
  }

  /** Under the same conditions the two runs end the same way: returned
      in both, or the same error escaping from both. */
  lemma FailureKeepsOutcome(s: Snapshot, scanId: nat, path: string, o1: Oracle, o2: Oracle, j: nat)
    requires 1 <= scanId <= |s.scans| && j < |Tools|
    requires o1.writes == o2.writes && o1.markCompleted == o2.markCompleted && o1.markFailed == o2.markFailed
    requires forall name, p :: name != Tools[j] ==> o1.invoke(name, p) == o2.invoke(name, p)
    requires forall name, raw :: name != Tools[j] ==> o1.summarize(name, raw) == o2.summarize(name, raw)
    requires o1.writes(Tools[j]).create.Succeeds? && o1.writes(Tools[j]).fail.Succeeds?
    ensures FullScan(s, scanId, path, o1).outcome == FullScan(s, scanId, path, o2).outcome
  {
    OtherVerdictsAgree(path, o1, o2, j);
    SameFirstAbort(path, o1, o2, 0);
    FullScanOutcome(s, scanId, path, o1);
    FullScanOutcome(s, scanId, path, o2);
  }

  /** The records of two runs whose verdicts differ at most for tool `j`,
      which stops neither, differ at most in tool `j`'s record. */
  lemma {:induction false} NewRunsAgree(scanId: nat, path: string, o1: Oracle, o2: Oracle, base: nat, i: nat, j: nat)
    requires i <= |Tools| && j < |Tools|
    requires forall t :: i <= t < |Tools| && t != j ==> VerdictOf(Tools[t], path, o1) == VerdictOf(Tools[t], path, o2)
    requires !Aborts(VerdictOf(Tools[j], path, o1)) && !Aborts(VerdictOf(Tools[j], path, o2))
    ensures var n1 := NewRuns(scanId, path, o1, base, i);
            var n2 := NewRuns(scanId, path, o2, base, i);
            |n1| == |n2| && forall t :: 0 <= t < |n1| && i + t != j ==> n1[t] == n2[t]
    decreases |Tools| - i
  {
    if i < |Tools| && !Aborts(VerdictOf(Tools[i], path, o1)) {
      NewRunsAgree(scanId, path, o1, o2, base + 1, i + 1, j);
      var n1 := NewRuns(scanId, path, o1, base, i);
      var n2 := NewRuns(scanId, path, o2, base, i);
      var r1 := NewRuns(scanId, path, o1, base + 1, i + 1);
      var r2 := NewRuns(scanId, path, o2, base + 1, i + 1);
      assert n1 == [RecordOf(base + 1, scanId, Tools[i], VerdictOf(Tools[i], path, o1))] + r1;
      assert n2 == [RecordOf(base + 1, scanId, Tools[i], VerdictOf(Tools[i], path, o2))] + r2;
      forall t | 1 <= t < |n1| && i + t != j
        ensures n1[t] == n2[t]
      {
        assert n1[t] == r1[t - 1] && n2[t] == r2[t - 1];
      }
    }
  }

  /** For one tool, the record is created before the tool runs, the tool
      runs before its result is summarised, and a status update of the
      record comes last. */
  lemma ToolEventOrder(name: Tool, path: string, o: Oracle)
    ensures var e := EventsOf(name, path, o);
            && |e| >= 1 && e[0] == CreateRun(name)
            && (o.writes(name).create.Throws? ==> |e| == 1)
            && (o.writes(name).create.Succeeds? ==>
                  && 3 <= |e| <= 5 && e[1] == Invoke(name)
                  && (e[|e| - 1] == WriteCompleted(name) || e[|e| - 1] == WriteFailed(name)))
            && (Summarize(name) in e <==> o.writes(name).create.Succeeds? && o.invoke(name, path).Ok?)
  {
  }
}
