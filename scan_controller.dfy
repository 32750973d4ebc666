/** The HTTP handlers of src/controllers/scanController.ts: start a scan,
    read one scan with its tool runs, and list all scans newest first. */
module ScanController {
  import opened Js
  import opened Registry
  import ScanSchema

  /** A scan with its tool runs, as `include: {toolRuns: true}` returns it. */
  datatype ScanWithRuns = ScanWithRuns(scan: Scan, toolRuns: seq<ToolRun>)

  /** The JSON bodies the handlers send. */
  datatype Body =
    | ErrorBody(error: string)
    | InvalidInputBody(error: string, details: ScanSchema.Flattened)
    | StartedBody(scanId: nat, repoUrl: string, status: Status, path: string)
    | ScanBody(result: ScanWithRuns)
    | ScanListBody(results: seq<ScanWithRuns>)

  /** What a handler does with the request: answer it, or pass the error
      to `next`, that is to the error-handling middleware. */
  datatype Reply = Respond(status: nat, body: Body) | Next(error: Thrown)

  const ScanRoot := "/tmp/repo-scans"

  /** `path.join(TMP_DIR, `scan-${scanId}`)` in src/services/gitService.ts. */
  function ScanDirectory(scanId: nat): string
  {
    ScanRoot + "/scan-" + NatToString(scanId)
  }

  /** The command `cloneRepo` runs. */
  function CloneCommand(repoUrl: string, scanId: nat): string
  {
    "git clone --depth=1 " + repoUrl + " " + ScanDirectory(scanId)
  }

  /** The validated URL is pasted into the clone command as it is: nothing
      quotes it, so it reaches the shell between the two spaces around
      it. */
  lemma AcceptedUrlReachesShell(body: Json, w: StartWorld, scanId: nat)
    requires ScanSchema.ValidateStartScan(body, w.isUrl).Ok?
    ensures var url := ScanSchema.ValidateStartScan(body, w.isUrl).value;
            Contains(CloneCommand(url, scanId), " " + url + " ")
  {
    var url := ScanSchema.ValidateStartScan(body, w.isUrl).value;
    OccursInMiddle("git clone --depth=1", " " + url + " ", ScanDirectory(scanId));
    assert CloneCommand(url, scanId) == "git clone --depth=1" + (" " + url + " ") + ScanDirectory(scanId);
  }

  /** The repository pattern accepts "https://github.com/a/b; reboot"
      (`ScanSchema.PatternAdmitsTrailingText`), and the second shell
      command it carries is part of the clone command line. */
  lemma ShellTextInCloneCommand(scanId: nat)
    ensures Contains(CloneCommand("https://github.com/a/b; reboot", scanId), "; reboot")
  {
    var url := "https://github.com/a/b; reboot";
    var cmd := CloneCommand(url, scanId);
    assert cmd[20..20 + |url|] == url;
    assert url[22..30] == "; reboot";
    assert cmd[42..50] == url[22..30];
    assert OccursAt(cmd, "; reboot", 42);
  }

  /** How `cloneRepo` ends: the repository is in place, `git` failed with
      the given standard error, or preparing the directory threw. */
  datatype CloneOutcome = Cloned | GitFailed(stderr: string, stack: string) | SetupFailed(error: Thrown)

  /** `await cloneRepo(repoUrl, scanId)`: the local path, or the error. */
  function Clone(scanId: nat, outcome: CloneOutcome): (r: Result<string, Thrown>)
    ensures outcome.Cloned? <==> r.Ok?
    ensures r.Ok? ==> r.value == ScanDirectory(scanId)
    ensures outcome.GitFailed? ==> r == Err(ErrorThrown("Git Clone failed: " + outcome.stderr, outcome.stack))
  {
    match outcome
    case Cloned => Ok(ScanDirectory(scanId))
    case GitFailed(stderr, stack) => Err(ErrorThrown("Git Clone failed: " + stderr, stack))
    case SetupFailed(e) => Err(e)
  }

  /** The outside world `startScan` meets: zod's URL check, the clock, the
      outcome of the create, the clone, and the RUNNING update. */
  datatype StartWorld = StartWorld(isUrl: string -> bool, now: int, create: Write, clone: CloneOutcome, markRunning: Write)

  /** What `startScan` leaves: the registry, the reply, and the scan it
      hands to `runFullScan` (id and local path), if it gets that far. */
  datatype StartResult = StartResult(state: Snapshot, reply: Reply, launch: Option<(nat, string)>)

  /** `startScan(req, res, next)` on a registry state. */
  function StartScanSpec(s: Snapshot, body: Json, w: StartWorld): (r: StartResult)
    // tool runs are never touched, and the existing scans are kept as they were
    ensures r.state.toolRuns == s.toolRuns
    ensures |s.scans| <= |r.state.scans| <= |s.scans| + 1 && r.state.scans[..|s.scans|] == s.scans
    // at most one scan is added: the next id, the validated URL, the clock's time, CLONING or RUNNING
    ensures |r.state.scans| > |s.scans| ==>
              && ScanSchema.ValidateStartScan(body, w.isUrl).Ok? && w.create.Succeeds?
              && r.state.scans[|s.scans|].id == |s.scans| + 1
              && r.state.scans[|s.scans|].repoUrl == ScanSchema.ValidateStartScan(body, w.isUrl).value
              && r.state.scans[|s.scans|].createdAt == w.now
              && r.state.scans[|s.scans|].status in {Cloning, Running}
    // only the new scan, cloned into its own directory, is handed to the runner
    ensures r.launch.Some? ==> && |r.state.scans| == |s.scans| + 1 && w.clone.Cloned?
                               && r.launch.value == (|s.scans| + 1, ScanDirectory(|s.scans| + 1))
    // the request is answered 201 or 400, or its error is passed on
    ensures r.reply.Respond? ==> r.reply.status in {201, 400}
    // 201 only for a launched scan that is now RUNNING
    ensures r.reply.Respond? && r.reply.status == 201 ==>
              r.launch.Some? && r.state.scans[|s.scans|].status == Running
  {
    match ScanSchema.ValidateStartScan(body, w.isUrl)
    case Err(issues) =>
      StartResult(s, Respond(400, InvalidInputBody("Invalid input", ScanSchema.Flatten(issues))), None)
    case Ok(repoUrl) =>
      if w.create.Throws? then StartResult(s, Next(w.create.error), None)
      else
        var created := AddScan(s, repoUrl, Cloning, w.now);
        var scan := created.1;
        match Clone(scan.id, w.clone)
        case Err(e) => StartResult(created.0, Next(e), None)
        case Ok(path) =>
          var launch := Some((scan.id, path));
          if w.markRunning.Throws? then StartResult(created.0, Next(w.markRunning.error), launch)
          else
            StartResult(SetScanStatus(created.0, scan.id, Running),
                        Respond(201, StartedBody(scan.id, repoUrl, Running, path)), launch)
  }

  /** `startScan(req, res, next)` on the store. */
  method StartScan(store: Store, body: Json, w: StartWorld) returns (reply: Reply, launch: Option<(nat, string)>)
    requires store.Valid()
    modifies store
    ensures store.Valid()
    ensures StartResult(store.State(), reply, launch) == StartScanSpec(old(store.State()), body, w)
  {
    var parsed := ScanSchema.ValidateStartScan(body, w.isUrl);
    if parsed.Err? {
      return Respond(400, InvalidInputBody("Invalid input", ScanSchema.Flatten(parsed.error))), None;
    }
    var repoUrl := parsed.value;
    var created := store.CreateScan(repoUrl, Cloning, w.now, w.create);
    if created.Err? {
      return Next(created.error), None;
    }
    var scan := created.value;
    var localPath := Clone(scan.id, w.clone);
    if localPath.Err? {
      return Next(localPath.error), None;
    }
    // runFullScan is started here and not awaited
    launch := Some((scan.id, localPath.value));
    var updated := store.UpdateScanStatus(scan.id, Running, w.markRunning);
    if updated.Err? {
      return Next(updated.error), launch;
    }
    reply := Respond(201, StartedBody(scan.id, repoUrl, Running, localPath.value));
  }

  /** A body that fails validation is answered 400 and nothing is stored;
      one that passes is never answered 400. */
  lemma InvalidBodyRejected(s: Snapshot, body: Json, w: StartWorld)
    ensures var r := StartScanSpec(s, body, w);
            var v := ScanSchema.ValidateStartScan(body, w.isUrl);
            && (v.Err? <==> r.reply.Respond? && r.reply.status == 400)
            && (v.Err? ==> r.state == s && r.launch.None?)
  {
  }

  /** When the clone fails no scan is started: the new scan stays CLONING,
      no tool run exists for it, and the clone error goes to `next`. */
  lemma CloneFailureStopsScan(s: Snapshot, body: Json, w: StartWorld)
    requires WellFormed(s)
    requires ScanSchema.ValidateStartScan(body, w.isUrl).Ok? && w.create.Succeeds? && !w.clone.Cloned?
    ensures var r := StartScanSpec(s, body, w);
            var id := |s.scans| + 1;
            && r.launch.None? && r.reply.Next?
            && |r.state.scans| == id && r.state.scans[id - 1].status == Cloning
            && r.state.toolRuns == s.toolRuns
            && RunsOf(r.state.toolRuns, id) == []
            && (w.clone.GitFailed? ==> r.reply.error.message == "Git Clone failed: " + w.clone.stderr)
  {
    var r := StartScanSpec(s, body, w);
    var id := |s.scans| + 1;
    forall t | t in r.state.toolRuns ensures t.scanId != id {
      var i :| 0 <= i < |s.toolRuns| && s.toolRuns[i] == t;
    }
    if RunsOf(r.state.toolRuns, id) != [] {
      var t := RunsOf(r.state.toolRuns, id)[0];
      assert t in RunsOf(r.state.toolRuns, id);
    }
  }

  /** A started scan is answered 201 with its id, its URL, RUNNING and the
      directory it was cloned into, and that same id and directory are
      handed to the runner. */
  lemma StartedScan(s: Snapshot, body: Json, w: StartWorld)
    requires ScanSchema.ValidateStartScan(body, w.isUrl).Ok?
    requires w.create.Succeeds? && w.clone.Cloned? && w.markRunning.Succeeds?
    ensures var r := StartScanSpec(s, body, w);
            var id := |s.scans| + 1;
            var url := body.fields["repoUrl"].s;
            && r.reply == Respond(201, StartedBody(id, url, Running, ScanDirectory(id)))
            && r.launch == Some((id, ScanDirectory(id)))
            && r.state.scans == s.scans + [Scan(id, url, Running, w.now)]
            && r.state.toolRuns == s.toolRuns
  {
    var r := StartScanSpec(s, body, w);
    var id := |s.scans| + 1;
    var url := body.fields["repoUrl"].s;
    assert r.state.scans == (s.scans + [Scan(id, url, Cloning, w.now)])[id - 1 := Scan(id, url, Running, w.now)];
  }

  /** The runner is started before the RUNNING update: when that update
      throws, the request fails although the scan goes on. */
  lemma RunningUpdateFailure(s: Snapshot, body: Json, w: StartWorld)
    requires ScanSchema.ValidateStartScan(body, w.isUrl).Ok?
    requires w.create.Succeeds? && w.clone.Cloned? && w.markRunning.Throws?
    ensures var r := StartScanSpec(s, body, w);
            && r.reply == Next(w.markRunning.error)
            && r.launch == Some((|s.scans| + 1, ScanDirectory(|s.scans| + 1)))
            && r.state.scans[|s.scans|].status == Cloning
  {
  }

  /** `getScanResults(req, res, next)`: `idParam` is the route parameter
      and `fault` the error the lookup throws, if any. */
  function GetScanResults(s: Snapshot, idParam: string, fault: Option<Thrown>): (r: Reply)
    requires WellFormed(s)
    ensures ParseInt(idParam).None? ==> r == Respond(400, ErrorBody("Invalid scan ID"))
    ensures ParseInt(idParam).Some? && fault.Some? ==> r == Next(fault.value)
    ensures ParseInt(idParam).Some? && fault.None? ==>
              var id := ParseInt(idParam).value;
              && (FindScan(s, id).None? ==> r == Respond(404, ErrorBody("Scan not found")))
              && (FindScan(s, id).Some? ==>
                    r == Respond(200, ScanBody(ScanWithRuns(s.scans[id - 1], RunsOf(s.toolRuns, id)))))
  {
    match ParseInt(idParam)
    case None => Respond(400, ErrorBody("Invalid scan ID"))
    case Some(id) =>
      if fault.Some? then Next(fault.value)
      else
        match FindScan(s, id)
        case None => Respond(404, ErrorBody("Scan not found"))
        case Some(scan) => Respond(200, ScanBody(ScanWithRuns(scan, RunsOf(s.toolRuns, id))))
  }

  /** Asking for scan `n` by its decimal id gives that scan with exactly
      its own tool runs, or 404 when there is no such scan. */
  lemma LookupByDecimalId(s: Snapshot, n: nat)
    requires WellFormed(s)
    ensures var r := GetScanResults(s, NatToString(n), None);
            && (1 <= n <= |s.scans| ==>
                  && r == Respond(200, ScanBody(ScanWithRuns(s.scans[n - 1], RunsOf(s.toolRuns, n))))
                  && forall t :: t in r.body.result.toolRuns <==> t in s.toolRuns && t.scanId == n)
            && (n == 0 || n > |s.scans| ==> r == Respond(404, ErrorBody("Scan not found")))
  {
    ParseIntOfDecimal(n, "");
    assert NatToString(n) + "" == NatToString(n);
  }

  /** An id on which `parseInt` finds no digit, after blanks, a sign and
      an optional `0x`, is answered 400. */
  lemma NonNumericIdRejected(s: Snapshot, idParam: string, fault: Option<Thrown>)
    requires WellFormed(s)
    requires var u := SplitSign(idParam[LeadingSpaces(idParam)..]).1;
             var body := if HasHexPrefix(u) then u[2..] else u;
             body == "" || !IsDigitIn(body[0], if HasHexPrefix(u) then 16 else 10)
    ensures GetScanResults(s, idParam, fault) == Respond(400, ErrorBody("Invalid scan ID"))
  {
  }

  /** `a` was created no earlier than `b`. */
  predicate NewerOrSame(a: ScanWithRuns, b: ScanWithRuns)
  {
    a.scan.createdAt >= b.scan.createdAt
  }

  predicate NewestFirst(xs: seq<ScanWithRuns>)
  {
    forall i, j :: 0 <= i < j < |xs| ==> NewerOrSame(xs[i], xs[j])
  }

  /** Puts `x` in front of the first entry older than it. */
  function InsertByAge(x: ScanWithRuns, xs: seq<ScanWithRuns>): (r: seq<ScanWithRuns>)
    ensures |r| == |xs| + 1
  {
    if xs == [] || NewerOrSame(x, xs[0]) then [x] + xs
    else [xs[0]] + InsertByAge(x, xs[1..])
  }

  /** Inserting into a newest-first list keeps it newest first; the new
      head is `x` or the old head. */
  lemma {:induction false} InsertByAgeSorted(x: ScanWithRuns, xs: seq<ScanWithRuns>)
    requires NewestFirst(xs)
    ensures var r := InsertByAge(x, xs);
            NewestFirst(r) && (r[0] == x || (xs != [] && r[0] == xs[0]))
  {
    if xs != [] && !NewerOrSame(x, xs[0]) {
      var rest := InsertByAge(x, xs[1..]);
      InsertByAgeSorted(x, xs[1..]);
      var r := [xs[0]] + rest;
      assert NewerOrSame(xs[0], rest[0]) by {
        if rest[0] != x {
          assert rest[0] == xs[1];
        }
      }
      forall i, j | 0 <= i < j < |r|
        ensures NewerOrSame(r[i], r[j])
      {
        if i == 0 {
          assert r[j] == rest[j - 1];
          if j > 1 {
            assert NewerOrSame(rest[0], rest[j - 1]);
          }
        } else {
          assert r[i] == rest[i - 1] && r[j] == rest[j - 1];
        }
      }
    }
  }

  /** Inserting adds `x` and loses nothing. */
  lemma {:induction false} InsertByAgePermutes(x: ScanWithRuns, xs: seq<ScanWithRuns>)
    ensures multiset(InsertByAge(x, xs)) == multiset(xs) + multiset{x}
  {
    if xs != [] && !NewerOrSame(x, xs[0]) {
      InsertByAgePermutes(x, xs[1..]);
      assert xs == [xs[0]] + xs[1..];
    }
  }

  /** `orderBy: {createdAt: 'desc'}`. */
  function SortNewestFirst(xs: seq<ScanWithRuns>): (r: seq<ScanWithRuns>)
    ensures NewestFirst(r)
    ensures multiset(r) == multiset(xs)
  {
    if xs == [] then []
    else
      var rest := SortNewestFirst(xs[1..]);
      InsertByAgeSorted(xs[0], rest);
      InsertByAgePermutes(xs[0], rest);
      assert xs == [xs[0]] + xs[1..];
      InsertByAge(xs[0], rest)
  }

  /** `listAllScan(req, res, next)`: every scan with its tool runs, newest
      first; `fault` is the error the query throws, if any. */
  function ListAllScans(s: Snapshot, fault: Option<Thrown>): (r: Reply)
    ensures fault.Some? ==> r == Next(fault.value)
    ensures fault.None? ==>
              && r.Respond? && r.status == 200 && r.body.ScanListBody?
              && NewestFirst(r.body.results)
              && multiset(r.body.results) == multiset(seq(|s.scans|, i requires 0 <= i < |s.scans| =>
                                                            ScanWithRuns(s.scans[i], RunsOf(s.toolRuns, s.scans[i].id))))
  {
    if fault.Some? then Next(fault.value)
    else
      var all := seq(|s.scans|, i requires 0 <= i < |s.scans| => ScanWithRuns(s.scans[i], RunsOf(s.toolRuns, s.scans[i].id)));
      Respond(200, ScanListBody(SortNewestFirst(all)))
  }
}
