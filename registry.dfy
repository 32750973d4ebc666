/** The scan registry: the `Scan` and `ToolRun` records the controller and
    the runner keep through Prisma (src/config/client, not part of this
    model). Ids are assigned by auto-increment from 1 and nothing is ever
    deleted, so a record's id is one more than its position. Every write
    may throw; a write that throws changes nothing. */
module Registry {
  import opened Js

  datatype Status = Cloning | Running | Completed | Failed

  datatype Scan = Scan(id: nat, repoUrl: string, status: Status, createdAt: int)

  /** The `output` of a finished tool run: the tool's result with its AI
      summary, or the error that stopped it. */
  datatype RunOutput =
    | Summarized(raw: Json, aiSummary: string)
    | Errored(error: string, stack: Option<string>)

  datatype ToolRun = ToolRun(id: nat, scanId: nat, toolName: string, status: Status, output: Option<RunOutput>)

  datatype Snapshot = Snapshot(scans: seq<Scan>, toolRuns: seq<ToolRun>)

  /** How a database call ends. */
  datatype Write = Succeeds | Throws(error: Thrown)

  /** A tool run's status and output agree: no output while running, a
      summary once completed, an error once failed. */
  predicate Consistent(status: Status, output: Option<RunOutput>)
  {
    match status
    case Cloning => false
    case Running => output.None?
    case Completed => output.Some? && output.value.Summarized?
    case Failed => output.Some? && output.value.Errored?
  }

  predicate IsTerminal(r: ToolRun)
  {
    r.status == Completed || r.status == Failed
  }

  ghost predicate WellFormed(s: Snapshot)
  {
    && (forall i :: 0 <= i < |s.scans| ==> s.scans[i].id == i + 1)
    && (forall i :: 0 <= i < |s.toolRuns| ==> s.toolRuns[i].id == i + 1)
    && (forall i :: 0 <= i < |s.toolRuns| ==> 1 <= s.toolRuns[i].scanId <= |s.scans|)
    && (forall i :: 0 <= i < |s.toolRuns| ==> Consistent(s.toolRuns[i].status, s.toolRuns[i].output))
  }

  /** `scan.create({data: {repoUrl, status}})`, with `createdAt` the clock's
      `now`. */
  function AddScan(s: Snapshot, repoUrl: string, status: Status, now: int): (r: (Snapshot, Scan))
    ensures r.1 == Scan(|s.scans| + 1, repoUrl, status, now)
    ensures r.0 == Snapshot(s.scans + [r.1], s.toolRuns)
  {
    var scan := Scan(|s.scans| + 1, repoUrl, status, now);
    (Snapshot(s.scans + [scan], s.toolRuns), scan)
  }

  /** `scan.update({where: {id}, data: {status}})`. */
  function SetScanStatus(s: Snapshot, id: nat, status: Status): (r: Snapshot)
    requires 1 <= id <= |s.scans|
    ensures |r.scans| == |s.scans| && r.toolRuns == s.toolRuns
    ensures r.scans[id - 1] == s.scans[id - 1].(status := status)
    ensures forall i :: 0 <= i < |s.scans| && i != id - 1 ==> r.scans[i] == s.scans[i]
  {
    Snapshot(s.scans[id - 1 := s.scans[id - 1].(status := status)], s.toolRuns)
  }

  /** `toolRun.create({data: {scanId, toolName, status: 'RUNNING'}})`. */
  function AddToolRun(s: Snapshot, scanId: nat, toolName: string): (r: (Snapshot, ToolRun))
    requires 1 <= scanId <= |s.scans|
    ensures r.1 == ToolRun(|s.toolRuns| + 1, scanId, toolName, Running, None)
    ensures r.0 == Snapshot(s.scans, s.toolRuns + [r.1])
  {
    var run := ToolRun(|s.toolRuns| + 1, scanId, toolName, Running, None);
    (Snapshot(s.scans, s.toolRuns + [run]), run)
  }

  /** `toolRun.update({where: {id}, data: {status, output}})`. */
  function SetToolRun(s: Snapshot, id: nat, status: Status, output: RunOutput): (r: Snapshot)
    requires 1 <= id <= |s.toolRuns|
    ensures r.scans == s.scans && |r.toolRuns| == |s.toolRuns|
    ensures r.toolRuns[id - 1] == s.toolRuns[id - 1].(status := status, output := Some(output))
    ensures forall i :: 0 <= i < |s.toolRuns| && i != id - 1 ==> r.toolRuns[i] == s.toolRuns[i]
  {
    Snapshot(s.scans, s.toolRuns[id - 1 := s.toolRuns[id - 1].(status := status, output := Some(output))])
  }

  /** Each write keeps the registry well formed: ids stay sequential,
      every run belongs to an existing scan, and a run's status agrees
      with its output. */
  lemma AddScanKeepsWellFormed(s: Snapshot, repoUrl: string, status: Status, now: int)
    requires WellFormed(s)
    ensures WellFormed(AddScan(s, repoUrl, status, now).0)
  {
  }

  lemma SetScanStatusKeepsWellFormed(s: Snapshot, id: nat, status: Status)
    requires WellFormed(s) && 1 <= id <= |s.scans|
    ensures WellFormed(SetScanStatus(s, id, status))
  {
  }

  lemma AddToolRunKeepsWellFormed(s: Snapshot, scanId: nat, toolName: string)
    requires WellFormed(s) && 1 <= scanId <= |s.scans|
    ensures WellFormed(AddToolRun(s, scanId, toolName).0)
  {
  }

  lemma SetToolRunKeepsWellFormed(s: Snapshot, id: nat, status: Status, output: RunOutput)
    requires WellFormed(s) && 1 <= id <= |s.toolRuns| && Consistent(status, Some(output))
    ensures WellFormed(SetToolRun(s, id, status, output))
  {
  }

  /** The tool runs of one scan, in the order they were created. */
  function RunsOf(runs: seq<ToolRun>, scanId: int): (r: seq<ToolRun>)
    ensures forall t :: t in r <==> t in runs && t.scanId == scanId
    // each run of the scan appears as often as in the table, and no other run
    ensures forall t :: multiset(r)[t] == if t.scanId == scanId then multiset(runs)[t] else 0
    ensures |r| <= |runs|
  {
    if runs == [] then []
    else
      var front := runs[..|runs| - 1];
      var last := runs[|runs| - 1];
      assert runs == front + [last];
      assert multiset(runs) == multiset(front) + multiset{last};
      if last.scanId == scanId then RunsOf(front, scanId) + [last] else RunsOf(front, scanId)
  }

  /** The runs of a scan keep the table's order by id. */
  lemma {:induction false} RunsOfKeepsOrder(runs: seq<ToolRun>, scanId: int)
    requires IdsIncrease(runs)
    ensures IdsIncrease(RunsOf(runs, scanId))
  {
    if runs != [] {
      var front := runs[..|runs| - 1];
      var last := runs[|runs| - 1];
      assert runs == front + [last];
      assert IdsIncrease(front);
      RunsOfKeepsOrder(front, scanId);
      if last.scanId == scanId {
        EarlierIdsSmaller(front, last);
        AppendLargerId(RunsOf(front, scanId), last);
      }
    }
  }

  lemma EarlierIdsSmaller(front: seq<ToolRun>, last: ToolRun)
    requires IdsIncrease(front + [last])
    ensures forall t :: t in front ==> t.id < last.id
  {
    forall t | t in front ensures t.id < last.id {
      var k :| 0 <= k < |front| && front[k] == t;
      assert (front + [last])[k] == t && (front + [last])[|front|] == last;
    }
  }

  lemma AppendLargerId(xs: seq<ToolRun>, last: ToolRun)
    requires IdsIncrease(xs) && forall t :: t in xs ==> t.id < last.id
    ensures IdsIncrease(xs + [last])
  {
    forall i, j | 0 <= i < j < |xs| + 1 ensures (xs + [last])[i].id < (xs + [last])[j].id {
      if j == |xs| {
        assert xs[i] in xs;
      }
    }
  }

  /** The ids of `runs` increase strictly from first to last. */
  predicate IdsIncrease(runs: seq<ToolRun>)
  {
    forall i, j :: 0 <= i < j < |runs| ==> runs[i].id < runs[j].id
  }

  /** `scan.findUnique({where: {id}})`. */
  function FindScan(s: Snapshot, id: int): (r: Option<Scan>)
    requires WellFormed(s)
    ensures r.Some? <==> 1 <= id <= |s.scans|
    ensures r.Some? ==> r.value == s.scans[id - 1] && r.value.id == id
  {
    if 1 <= id <= |s.scans| then Some(s.scans[id - 1]) else None
  }

  /** The store itself: the two tables, updated in place. */
  class Store {
    var scans: seq<Scan>
    var toolRuns: seq<ToolRun>

    ghost predicate Valid()
      reads this
    {
      WellFormed(Snapshot(scans, toolRuns))
    }

    function State(): Snapshot
      reads this
    {
      Snapshot(scans, toolRuns)
    }

    constructor ()
      ensures Valid() && scans == [] && toolRuns == []
    {
      scans := [];
      toolRuns := [];
    }

    method CreateScan(repoUrl: string, status: Status, now: int, w: Write) returns (r: Result<Scan, Thrown>)
      requires Valid()
      modifies this
      ensures Valid()
      ensures w.Throws? ==> r == Err(w.error) && State() == old(State())
      ensures w.Succeeds? ==> r == Ok(AddScan(old(State()), repoUrl, status, now).1)
                              && State() == AddScan(old(State()), repoUrl, status, now).0
    {
      if w.Throws? {
        return Err(w.error);
      }
      AddScanKeepsWellFormed(State(), repoUrl, status, now);
      var scan := Scan(|scans| + 1, repoUrl, status, now);
      scans := scans + [scan];
      r := Ok(scan);
    }

    method UpdateScanStatus(id: nat, status: Status, w: Write) returns (r: Result<(), Thrown>)
      requires Valid() && 1 <= id <= |scans|
      modifies this
      ensures Valid()
      ensures w.Throws? ==> r == Err(w.error) && State() == old(State())
      ensures w.Succeeds? ==> r == Ok(()) && State() == SetScanStatus(old(State()), id, status)
    {
      if w.Throws? {
        return Err(w.error);
      }
      SetScanStatusKeepsWellFormed(State(), id, status);
      scans := scans[id - 1 := scans[id - 1].(status := status)];
      r := Ok(());
    }

    method CreateToolRun(scanId: nat, toolName: string, w: Write) returns (r: Result<ToolRun, Thrown>)
      requires Valid() && 1 <= scanId <= |scans|
      modifies this
      ensures Valid()
      ensures w.Throws? ==> r == Err(w.error) && State() == old(State())
      ensures w.Succeeds? ==> r == Ok(AddToolRun(old(State()), scanId, toolName).1)
                              && State() == AddToolRun(old(State()), scanId, toolName).0
    {
      if w.Throws? {
        return Err(w.error);
      }
      AddToolRunKeepsWellFormed(State(), scanId, toolName);
      var run := ToolRun(|toolRuns| + 1, scanId, toolName, Running, None);
      toolRuns := toolRuns + [run];
      r := Ok(run);
    }

    method UpdateToolRun(id: nat, status: Status, output: RunOutput, w: Write) returns (r: Result<(), Thrown>)
      requires Valid() && 1 <= id <= |toolRuns| && Consistent(status, Some(output))
      modifies this
      ensures Valid()
      ensures w.Throws? ==> r == Err(w.error) && State() == old(State())
      ensures w.Succeeds? ==> r == Ok(()) && State() == SetToolRun(old(State()), id, status, output)
    {
      if w.Throws? {
        return Err(w.error);
      }
      SetToolRunKeepsWellFormed(State(), id, status, output);
      toolRuns := toolRuns[id - 1 := toolRuns[id - 1].(status := status, output := Some(output))];
      r := Ok(());
    }
  }
}
