/** The job loop of an assessment, internal/scanner/assessment_jobs.go: the guards
    before it, the gates of each job, the checkpoint after each outcome. What the
    environment answers is a parameter: one `World` for each job. */
module JobLoops {
  import opened Wrappers
  import opened Text
  import opened WriteJournals
  import WriteMachine
  import WriteSafety

  datatype State = Selected | Conditional | NotSelected

  /** The workflow ladder of internal/scanner/descriptor.go. */
  datatype Stage = Scope | Discovery | Dns | Reachability | Auth | Crawl | Inventory | Passive | Templates | Tls | Dast
    | Validation | WriteValidation | Results

  datatype Job = Job(id: string, scanner: string, targetID: string, application: bool, variant: string, stage: Stage,
                     authContextID: string, fuzz: bool, state: State, dependencies: seq<string>)

  datatype Status = Completed | Failed | Cancelled | Skipped | NotApplicable | Unfinished

  datatype Gap = NoGap | InterruptedWrite | PrerequisiteFailed | AuthFailed | AuthExpired | ToolUnavailable | EmptyInput

  datatype Run = Run(scanner: string, scope: string, variant: string, fingerprint: string, stage: Option<Stage>,
                     authContextID: string, status: Status, gap: Gap, authenticated: bool)

  datatype Plan = Plan(fingerprint: string, unified: bool, jobs: seq<Job>)

  /** What the guards before the loop find. */
  datatype Start = Start(
      recovered: bool, readable: bool, journal: seq<Entry>, enabled: bool, profileKnown: bool, replayStored: bool)

  /** What the environment answers while one job is worked on. */
  datatype World = World(
    identity: bool, authRefresh: bool, authBound: bool, usesWebAuth: bool, webAuth: bool,
    targetFound: bool, webTarget: bool, surfaceAuth: bool, inventory: bool, crawler: bool, crawl: Run,
      crawlStopped: bool, crawlKept: bool,
    earlier: Option<Run>, discovered: seq<Run>, katana: bool,
    checksum: bool, headers: bool, cloud: bool, ssh: bool, gvm: bool, gvmRequested: bool,
    repository: bool, checkout: bool, resource: bool, budgeted: bool, inTime: bool, adapter: bool, request: bool,
    cancelled: bool, attempt: bool, directory: bool, manifest: bool, recorded: bool, gateway: bool,
    answer: Status, stopped: bool, expired: bool, stillAuthenticated: bool, saved: bool)

  function ScopeOf(job: Job): string {
    (if job.application then "app:" else "host:") + job.targetID
  }

  function Variant(v: string): string {
    if v == "" then "legacy" else v
  }

  /** assessmentJobRunKey, on parts that hold no separator. */
  datatype RunKey = RunKey(scope: string, scanner: string, variant: string, fingerprint: string)

  function KeyOfRun(r: Run): RunKey {
    RunKey(r.scope, r.scanner, Variant(r.variant), r.fingerprint)
  }

  function KeyOfJob(job: Job, fingerprint: string): RunKey {
    RunKey(ScopeOf(job), job.scanner, Variant(job.variant), fingerprint)
  }

  function NotRun(job: Job, fingerprint: string, status: Status, gap: Gap): Run {
    Run(job.scanner, ScopeOf(job), job.variant, fingerprint, None, "", status, gap, false)
  }

  /** Run `i` is terminal, and none of the first `n` runs with its key that come
      after it is. */
  ghost predicate LastOf(existing: seq<Run>, n: nat, i: nat)
    requires n <= |existing|
  {
    i < n && existing[i].status != Unfinished
    && forall j :: i < j < n && KeyOfRun(existing[j]) == KeyOfRun(existing[i]) ==> existing[j].status == Unfinished
  }

  /** For each key the last terminal run of the first `n`, and nothing else. */
  ghost predicate StoredRuns(existing: seq<Run>, n: nat, completed: map<RunKey, Run>)
    requires n <= |existing|
  {
    && (forall i: nat :: LastOf(existing, n, i) ==>
       KeyOfRun(existing[i]) in completed && completed[KeyOfRun(existing[i])] == existing[i])
    && (forall k :: k in completed ==> exists i: nat :: LastOf(existing, n, i) && KeyOfRun(existing[i]) == k)
  }

  /** The index of the stored runs: a later terminal run replaces an earlier one. */
  method LastTerminal(existing: seq<Run>) returns (completed: map<RunKey, Run>)
    ensures StoredRuns(existing, |existing|, completed)
  {
    completed := map[];
    for i := 0 to |existing|
      invariant StoredRuns(existing, i, completed)
    {
      if existing[i].status != Unfinished {
        completed := completed[KeyOfRun(existing[i]) := existing[i]];
      }
    }
  }

  /** failedAssessmentJobs; the reasons are those of the rows. */
  method FailedJobs(jobs: seq<Job>, fingerprint: string, reason: string)
    returns (runs: seq<Run>, reasons: seq<string>)
    ensures |runs| == |reasons| == |jobs|
    ensures forall i :: 0 <= i < |jobs| ==>
      runs[i] == NotRun(jobs[i], fingerprint, Failed, NoGap) && reasons[i] == reason
  {
    runs, reasons := [], [];
    for i := 0 to |jobs|
      invariant |runs| == |reasons| == i
      invariant forall j :: 0 <= j < i ==>
        runs[j] == NotRun(jobs[j], fingerprint, Failed, NoGap) && reasons[j] == reason
    {
      runs, reasons := runs + [NotRun(jobs[i], fingerprint, Failed, NoGap)], reasons + [reason];
    }
  }

  // ----- the gates of one job ----------------------------------------------

  /** failedAssessmentDependency. */
  predicate DependenciesMet(job: Job, outcomes: map<string, Run>) {
    forall d :: d in job.dependencies ==> d in outcomes && outcomes[d].status == Completed
  }

  method DependencyFailed(job: Job, outcomes: map<string, Run>) returns (failed: bool)
    ensures failed <==> !DependenciesMet(job, outcomes)
  {
    for i := 0 to |job.dependencies|
      invariant forall j :: 0 <= j < i ==>
          job.dependencies[j] in outcomes && outcomes[job.dependencies[j]].status == Completed
    {
      var d := job.dependencies[i];
      if d !in outcomes || outcomes[d].status != Completed {
        return true;
      }
    }
    return false;
  }

  predicate Reusable(job: Job, w: World, completed: map<RunKey, Run>, fingerprint: string) {
    var k := KeyOfJob(job, fingerprint);
    k in completed && completed[k].status == Completed && (!w.authBound || completed[k].authenticated || !w.usesWebAuth)
      && w.checksum
  }

  /** The resource gates, in their order; None lets the job through. */
  function Refused(job: Job, w: World): (r: Option<Status>)
    ensures r != Some(Completed)
  {
    if (job.scanner == "prowler" || job.scanner == "scoutsuite") && !w.cloud then Some(Skipped)
    else if (job.scanner == "vuls" || job.scanner == "lynis") && !w.ssh then Some(Skipped)
    else if job.scanner == "openvas" && !w.gvm && w.gvmRequested then Some(Skipped)
    else if w.repository && !w.checkout then Some(Skipped)
    else if job.state == Conditional && !w.resource then Some(Skipped)
    else if w.budgeted && !w.inTime then Some(Skipped)
    else if !w.adapter then Some(Failed)
    else if !w.request then Some(Failed)
    else if w.cancelled then Some(Cancelled)
    else if !w.attempt || !w.directory || !w.manifest then Some(Failed)
    else if w.recorded && !w.gateway then Some(Failed)
    else None
  }

  /** Past checkpoint and prerequisites, what lets a job reach its runner. */
  predicate Open(job: Job, w: World, completed: map<RunKey, Run>, fingerprint: string) {
    && (job.authContextID != "" ==> w.identity)
    && job.scanner != "auth" && job.scanner != "katana" && job.state != NotSelected
    && (job.authContextID == "" && w.authBound && w.usesWebAuth ==> w.webAuth)
    && !Reusable(job, w, completed, fingerprint) && Refused(job, w).None?
  }

  /** What the coordinator makes of the runner's answer. */
  function Scanned(w: World): Status {
    if w.expired then Failed else if w.stopped then Cancelled else if w.answer == Unfinished then Failed else w.answer
  }

  predicate SessionLost(job: Job, w: World) {
    Scanned(w) == Completed && w.headers && w.usesWebAuth && job.scanner == "nuclei" && !w.stillAuthenticated
  }

  // ----- the crawl of a surface --------------------------------------------

  /** A katana job of the plan takes the crawl of its target over as its own run. */
  predicate Explicit(plan: Plan, target: string) {
    exists k :: 0 <= k < |plan.jobs| && plan.jobs[k].scanner == "katana" && plan.jobs[k].targetID == target
  }

  /** The preparation starts the crawler: no usable inventory is left of an earlier
      call, and a bound session was verified. */
  predicate Crawls(w: World) {
    !w.inventory && w.crawler && (w.authBound ==> w.surfaceAuth)
  }

  /** The session ended while the crawl was running. */
  predicate CrawlLost(w: World) {
    !w.crawlStopped && w.crawl.status == Completed && w.authBound && w.headers && !w.crawlKept
  }

  /** What the coordinator makes of the crawler's answer. */
  function Crawled(w: World): Run {
    if w.crawlStopped then w.crawl.(status := Cancelled, authenticated := false)
    else if CrawlLost(w) then w.crawl.(status := Failed, gap := AuthExpired, authenticated := false)
    else w.crawl.(authenticated := w.authBound && w.headers && w.crawl.status == Completed)
  }

  /** The crawl of a preparation: a new one, the one that left the inventory, or
      none. */
  function CrawlOf(w: World): Option<Run> {
    if Crawls(w) then Some(Crawled(w)) else if w.inventory then w.earlier else None
  }

  /** The discovery rows a preparation adds to the results. */
  function Found(plan: Plan, target: string, w: World): seq<Run> {
    (if CrawlOf(w).Some? && !Explicit(plan, target) then [CrawlOf(w).value] else []) + w.discovered
  }

  // ----- what the loop remembers of targets --------------------------------

  /** The targets with a verified session, those whose surface was prepared, and the
      crawls taken over by katana jobs. */
  datatype Memory = Memory(verified: set<string>, prepared: set<string>, crawled: map<string, Run>)

  /** A scanner job that is selected, with the session it needs. */
  predicate Gate(job: Job, w: World) {
    && job.scanner != "auth" && job.scanner != "katana" && job.state != NotSelected
    && (job.authContextID == "" && w.authBound && w.usesWebAuth ==> w.webAuth)
  }

  /** The turn prepares the surface of its target: a selected crawl, or the first test
      of the target under a named identity. */
  predicate Prepares(job: Job, w: World, prepared: set<string>) {
    w.targetFound && if job.scanner == "katana" then job.state == Selected
      else Gate(job, w) && job.authContextID != "" && job.targetID !in prepared
  }

  predicate Visits(job: Job, w: World, prepared: set<string>) {
    Prepares(job, w, prepared) && w.webTarget
  }

  /** A visit looks at the session first, and loses it with an expired crawl. */
  function SessionsVisited(target: string, w: World, verified: set<string>): set<string> {
    var seen := if !w.authBound then verified else if w.surfaceAuth then verified + {target} else verified - {target};
    if Crawls(w) && CrawlLost(w) then seen - {target} else seen
  }

  /** A login verifies the session of the target, and so does a test that uses it. */
  function SessionsOwn(job: Job, w: World, verified: set<string>): set<string> {
    if job.authContextID == "" &&
      (if job.scanner == "auth" then w.authRefresh else Gate(job, w) && w.authBound && w.usesWebAuth && w.webAuth)
    then verified + {job.targetID} else verified
  }

  function SessionsScanned(job: Job, w: World, verified: set<string>, called: bool): set<string> {
    if called && SessionLost(job, w) then verified - {job.targetID} else verified
  }

  function CrawlsTaken(plan: Plan, target: string, w: World, crawled: map<string, Run>): map<string, Run> {
    if Explicit(plan, target) && CrawlOf(w).Some? then crawled[target := CrawlOf(w).value] else crawled
  }

  /** The memory after a turn that got past checkpoint, prerequisites and identity. */
  function Remember(plan: Plan, job: Job, w: World, m: Memory, called: bool): Memory {
    var visited := Visits(job, w, m.prepared);
    Memory(
      SessionsScanned(job, w,
                      SessionsOwn(job, w, if visited then SessionsVisited(job.targetID, w, m.verified) else m.verified),
                      called),
      if Prepares(job, w, m.prepared) then m.prepared + {job.targetID} else m.prepared,
      if visited then CrawlsTaken(plan, job.targetID, w, m.crawled) else m.crawled)
  }

  /** The outcome says which job it is the outcome of. */
  predicate Labels(r: Run, job: Job, fingerprint: string) {
    KeyOfRun(r) == KeyOfJob(job, fingerprint)
  }

  /** The row of a job carries the job's stage and identity, too. */
  predicate IsOutcome(r: Run, job: Job, fingerprint: string) {
    Labels(r, job, fingerprint) && r.stage == Some(job.stage) && r.authContextID == job.authContextID
  }

  ghost predicate Labelled(completed: map<RunKey, Run>) {
    forall k :: k in completed ==> KeyOfRun(completed[k]) == k
  }

  // ----- the loop ----------------------------------------------------------

  /** The variables the loop carries. `at` are the places of the outcomes in
      `results`; `calls` are the jobs whose runner was invoked, `visits` those that
      prepared the surface of a web target, and `crawls` those that crawled it. */
  class Loop {
    const plan: Plan
    const completed: map<RunKey, Run>
    var results: seq<Run>
    var outcomes: map<string, Run>
    var checkpointFailed: bool
    var authVerified: set<string>
    var prepared: set<string>
    var crawled: map<string, Run>
    ghost var at: seq<nat>
    ghost var calls: seq<nat>
    ghost var visits: seq<nat>
    ghost var crawls: seq<nat>
    ghost var discovered: set<Run>

    constructor (plan: Plan, completed: map<RunKey, Run>)
      requires Labelled(completed)
      ensures this.plan == plan && this.completed == completed && results == [] && outcomes == map[]
      ensures !checkpointFailed && at == [] && calls == visits == crawls == [] && crawled == map[] && discovered == {}
          && authVerified == {} && prepared == {}
    {
      this.plan, this.completed, results, outcomes := plan, completed, [], map[];
      checkpointFailed, authVerified, prepared, crawled := false, {}, {}, map[];
      at, calls, visits, crawls, discovered := [], [], [], [], {};
    }

    /** appendOutcome: the row, its entry in the outcomes, and the checkpoint. */
    method AppendOutcome(job: Job, run: Run, saved: bool)
      modifies this
      ensures State() == Append(old(State()), job, run, saved)
    {
      var row := run.(stage := Some(job.stage), authContextID := job.authContextID);
      at := at + [|results|];
      results := results + [row];
      outcomes := outcomes[job.id := row];
      if !saved {
        checkpointFailed := true;
        row := row.(status := Failed, gap := InterruptedWrite);
        results := results[|results| - 1 := row];
        outcomes := outcomes[job.id := row];
      }
    }

    /** prepareSurface: it may crawl the target, and append discovery runs of its
        own. */
    method PrepareSurface(ghost n: nat, job: Job, w: World)
      modifies this`prepared, this`visits, this`crawls, this`crawled, this`results, this`discovered, this`authVerified
      ensures visits == if w.webTarget then old(visits) + [n] else old(visits)
      ensures Visited(plan, n, job, w, old(State()), State())
      ensures prepared == old(prepared) + {job.targetID}
      ensures authVerified == if w.webTarget then SessionsVisited(job.targetID, w, old(authVerified))
          else old(authVerified)
      ensures crawled == if w.webTarget then CrawlsTaken(plan, job.targetID, w, old(crawled)) else old(crawled)
    {
      hide Explicit, Crawls, CrawlLost, CrawlOf, Found, Visited, CrawlsTaken;
      NotVisited(plan, n, job, w, State());
      VisitedVerified(plan, n, job, w, State());
      prepared := prepared + {job.targetID};
      if !w.webTarget {
        return;
      }
      if w.authBound {
        authVerified := if w.surfaceAuth then authVerified + {job.targetID} else authVerified - {job.targetID};
      }
      var crawl := Crawl(n, job, w);
      TakeOver(n, job, w, crawl);
      VisitIs(plan, n, job, w, old(State()), State());
    }

    /** What a visit of the target leaves: the crawl becomes the run of the katana job
        or a row, and the other discovery runs become rows. */
    method TakeOver(ghost n: nat, job: Job, w: World, crawl: Option<Run>)
      requires crawl == CrawlOf(w)
      modifies this`visits, this`crawled, this`results, this`discovered
      ensures visits == old(visits) + [n] && results == old(results) + Found(plan, job.targetID, w)
      ensures discovered == old(discovered) + RunsOf(Found(plan, job.targetID, w))
      ensures crawled == CrawlsTaken(plan, job.targetID, w, old(crawled))
    {
      hide CrawlOf;
      visits := visits + [n];
      var explicit := false;
      for i := 0 to |plan.jobs|
        invariant explicit <==> exists k :: 0 <= k < i && plan.jobs[k].scanner == "katana"
                                  && plan.jobs[k].targetID == job.targetID
      {
        if plan.jobs[i].scanner == "katana" && plan.jobs[i].targetID == job.targetID {
          explicit := true;
        }
      }
      assert explicit == Explicit(plan, job.targetID);
      if crawl.Some? && explicit {
        crawled := crawled[job.targetID := crawl.value];
      }
      var found := (if crawl.Some? && !explicit then [crawl.value] else []) + w.discovered;
      results := results + found;
      discovered := discovered + RunsOf(found);
    }

    /** The crawl of a preparation, once the session was looked at. */
    method Crawl(ghost n: nat, job: Job, w: World) returns (crawl: Option<Run>)
      requires w.authBound ==> (job.targetID in authVerified <==> w.surfaceAuth)
      modifies this`crawls, this`authVerified
      ensures crawl == CrawlOf(w)
      ensures authVerified ==
              if Crawls(w) && CrawlLost(w) then old(authVerified) - {job.targetID} else old(authVerified)
      ensures crawls == if Crawls(w) then old(crawls) + [n] else old(crawls)
    {
      crawl := None;
      if !w.inventory && w.crawler && (!w.authBound || job.targetID in authVerified) {
        crawls := crawls + [n];
        var run := if w.crawlStopped then w.crawl.(status := Cancelled) else w.crawl;
        run := run.(authenticated := w.authBound && w.headers && run.status == Completed);
        if run.authenticated && !w.crawlKept {
          run := run.(status := Failed, gap := AuthExpired, authenticated := false);
          authVerified := authVerified - {job.targetID};
        }
        crawl := Some(run);
      } else if w.inventory {
        crawl := w.earlier;
      }
    }

    /** One turn of the loop, up to the outcome it appends. */
    method Turn(ghost n: nat, job: Job, w: World) returns (run: Run)
      requires Labelled(completed)
      modifies this
      ensures Turned(plan, completed, n, job, w, old(State()), State(), run)
      ensures Cause(job, w, old(State())) != NoGap ==>
        run == NotRun(job, plan.fingerprint, Skipped, Cause(job, w, old(State()))) && State() == old(State())
    {
      hide DependenciesMet, Turned, Labelled;
      if checkpointFailed {
        HeldBackTurn(plan, completed, n, job, w, State(), InterruptedWrite);
        return NotRun(job, plan.fingerprint, Skipped, InterruptedWrite);
      }
      var refused := DependencyFailed(job, outcomes);
      if refused {
        HeldBackTurn(plan, completed, n, job, w, State(), PrerequisiteFailed);
        return NotRun(job, plan.fingerprint, Skipped, PrerequisiteFailed);
      }
      if job.authContextID != "" && !w.identity {
        HeldBackTurn(plan, completed, n, job, w, State(), AuthFailed);
        return NotRun(job, plan.fingerprint, Skipped, AuthFailed);
      }
      if job.scanner == "auth" {
        run := Login(n, job, w);
      } else if job.scanner == "katana" {
        run := Katana(n, job, w);
      } else {
        run := Test(n, job, w);
      }
    }

    /** A login: of a named identity, which was refreshed before, or of the session
        that is bound to the target. */
    method Login(ghost n: nat, job: Job, w: World) returns (run: Run)
      requires job.scanner == "auth" && Through(job, w, State())
      modifies this`authVerified
      ensures Turned(plan, completed, n, job, w, old(State()), State(), run)
      ensures run.status == Completed <==> job.authContextID != "" || job.targetID in authVerified
      ensures run.gap == if run.status == Completed then NoGap else AuthFailed
    {
      hide DependenciesMet, Visited;
      NotVisited(plan, n, job, w, State());
      VisitedVerified(plan, n, job, w, State());
      run := NotRun(job, plan.fingerprint, Completed, NoGap);
      if job.authContextID != "" {
        return;
      }
      if w.authRefresh {
        authVerified := authVerified + {job.targetID};
      }
      if job.targetID !in authVerified {
        run := run.(status := Failed, gap := AuthFailed);
      }
    }

    /** A scanner job. */
    method Test(ghost n: nat, job: Job, w: World) returns (run: Run)
      requires Labelled(completed) && job.scanner != "auth" && job.scanner != "katana" && Through(job, w, State())
      modifies this
      ensures Turned(plan, completed, n, job, w, old(State()), State(), run)
      ensures job.state != NotSelected && !Gate(job, w) ==>
        run.gap == if job.targetID in old(authVerified) then AuthExpired else AuthFailed
    {
      hide DependenciesMet, Turned, Visited, Reusable, Refused, Scanned, SessionLost, Labelled, CrawlsTaken,
        SessionsVisited;
      ghost var before := State();
      NotVisited(plan, n, job, w, before);
      if job.state == NotSelected {
        HeldBackTurn(plan, completed, n, job, w, before, NoGap);
        return NotRun(job, plan.fingerprint, Skipped, NoGap);
      }
      if job.authContextID == "" && w.authBound && w.usesWebAuth {
        if !w.webAuth {
          var gap := if job.targetID in authVerified then AuthExpired else AuthFailed;
          HeldBackTurn(plan, completed, n, job, w, before, gap);
          return NotRun(job, plan.fingerprint, Skipped, gap);
        }
        authVerified := authVerified + {job.targetID};
        VisitedVerified(plan, n, job, w, before);
      } else if job.authContextID != "" && job.targetID !in prepared && w.targetFound {
        PrepareSurface(n, job, w);
      }
      ghost var visited := State();
      run := Scan(n, job, w);
      TestTurn(plan, completed, n, job, w, before, visited, State(), run);
    }

    /** A crawl job: its run is the crawl of the surface preparation. */
    method Katana(ghost n: nat, job: Job, w: World) returns (run: Run)
      requires job.scanner == "katana" && Through(job, w, State())
      modifies this
      ensures Turned(plan, completed, n, job, w, old(State()), State(), run)
      ensures job.state != Selected ==> run.gap == ToolUnavailable
      ensures job.state == Selected ==> run.gap == if job.targetID in crawled then crawled[job.targetID].gap
          else if w.katana then EmptyInput else ToolUnavailable
    {
      hide DependenciesMet, Visited, SessionsVisited, CrawlsTaken;
      NotVisited(plan, n, job, w, State());
      var fp := plan.fingerprint;
      if job.state != Selected {
        return NotRun(job, fp, Skipped, ToolUnavailable);
      }
      if w.targetFound {
        PrepareSurface(n, job, w);
      }
      if job.targetID in crawled {
        run := crawled[job.targetID];
      } else {
        run := NotRun(job, fp, Skipped, if w.katana then EmptyInput else ToolUnavailable);
      }
      run := run.(scanner := job.scanner, scope := ScopeOf(job), fingerprint := fp, variant := job.variant);
    }

    /** A scanner job past its authentication: a stored result, a refusal, or the
        runner's answer. */
    method Scan(ghost n: nat, job: Job, w: World) returns (run: Run)
      requires Labelled(completed)
      modifies this
      ensures outcomes == old(outcomes) && at == old(at) && checkpointFailed == old(checkpointFailed)
      ensures results == old(results) && visits == old(visits) && crawls == old(crawls) && discovered == old(discovered)
          && crawled == old(crawled)
      ensures prepared == old(prepared)
      ensures authVerified == SessionsScanned(job, w, old(authVerified), calls != old(calls))
      ensures Labels(run, job, plan.fingerprint)
      ensures run.authenticated <==>
        if Reusable(job, w, completed, plan.fingerprint) then completed[KeyOfJob(job, plan.fingerprint)].authenticated
        else Refused(job, w).None? && w.headers && w.usesWebAuth && Scanned(w) == Completed && !SessionLost(job, w)
      ensures calls == if Reusable(job, w, completed, plan.fingerprint) || Refused(job, w).Some? then old(calls)
          else old(calls) + [n]
      ensures run.status == if Reusable(job, w, completed, plan.fingerprint) then Completed
                            else if Refused(job, w).Some? then Refused(job, w).value
                            else if SessionLost(job, w) then Failed else Scanned(w)
    {
      var fp := plan.fingerprint;
      if Reusable(job, w, completed, fp) {
        return completed[KeyOfJob(job, fp)];
      }
      var refused := Refused(job, w);
      if refused.Some? {
        return NotRun(job, fp, refused.value, NoGap);
      }
      calls := calls + [n];
      run := NotRun(job, fp, Scanned(w), NoGap).(authenticated := w.headers && w.usesWebAuth
        && Scanned(w) == Completed);
      if SessionLost(job, w) {
        run := run.(status := Failed, gap := AuthExpired, authenticated := false);
        authVerified := authVerified - {job.targetID};
      }
    }

    ghost function State(): Ledger
      reads this
    {
      Ledger(results, outcomes, checkpointFailed, at, calls, visits, crawls, discovered, authVerified, crawled,
        prepared)
    }
  }

  /** The loop's variables as a value. */
  datatype Ledger = Ledger(
    results: seq<Run>, outcomes: map<string, Run>, failed: bool, at: seq<nat>, calls: seq<nat>, visits: seq<nat>,
      crawls: seq<nat>,
    discovered: set<Run>, verified: set<string>, crawled: map<string, Run>, prepared: set<string>)

  function MemoryOf(l: Ledger): Memory {
    Memory(l.verified, l.prepared, l.crawled)
  }

  function Append(l: Ledger, job: Job, run: Run, saved: bool): Ledger {
    var row := run.(stage := Some(job.stage), authContextID := job.authContextID);
    var stored := if saved then row else row.(status := Failed, gap := InterruptedWrite);
    l.(results := l.results + [stored], outcomes := l.outcomes[job.id := stored], failed := l.failed
      || !saved, at := l.at + [|l.results|])
  }

  // ----- what every turn keeps ---------------------------------------------

  ghost predicate UniqueIDs(jobs: seq<Job>) {
    forall i, j :: 0 <= i < j < |jobs| ==> jobs[i].id != jobs[j].id
  }

  /** What a turn may do to the target by preparing its surface, or nothing. */
  ghost predicate Visited(plan: Plan, n: nat, job: Job, w: World, l: Ledger, l': Ledger) {
    if l'.visits == l.visits then
      l'.results == l.results && l'.discovered == l.discovered && l'.crawls == l.crawls
    else
      && l'.visits == l.visits + [n]
      && l'.results == l.results + Found(plan, job.targetID, w)
      && l'.discovered == l.discovered + RunsOf(Found(plan, job.targetID, w))
      && l'.crawls == (if Crawls(w) then l.crawls + [n] else l.crawls)
  }

  function RunsOf(runs: seq<Run>): set<Run> {
    set r | r in runs
  }

  lemma {:induction false} NotVisited(plan: Plan, n: nat, job: Job, w: World, l: Ledger)
    ensures Visited(plan, n, job, w, l, l)
  {
    hide Found, Crawls, CrawlOf, Explicit;
  }

  /** Only the preparation of a surface concerns what Visited speaks of. */
  lemma {:induction false} VisitedVerified(plan: Plan, n: nat, job: Job, w: World, l: Ledger)
    ensures forall verified, prepared :: Visited(plan, n, job, w, l, l.(verified := verified, prepared := prepared))
  {
    hide Found, Crawls, CrawlOf, Explicit;
  }

  lemma {:induction false} VisitIs(plan: Plan, n: nat, job: Job, w: World, l: Ledger, l': Ledger)
    requires l'.visits == l.visits + [n] && l'.results == l.results + Found(plan, job.targetID, w)
    requires l'.discovered == l.discovered + RunsOf(Found(plan, job.targetID, w))
    requires l'.crawls == if Crawls(w) then l.crawls + [n] else l.crawls
    ensures Visited(plan, n, job, w, l, l')
  {
    hide Found, Crawls, CrawlOf, Explicit;
  }

  /** Past the gates that come before everything else. */
  predicate Through(job: Job, w: World, l: Ledger) {
    !l.failed && DependenciesMet(job, l.outcomes) && (job.authContextID != "" ==> w.identity)
  }

  /** What it takes to end completed: a named identity or a verified session, a
      completed crawl of the target, a stored completed run, or a runner that was
      called and completed. `m` is the memory at the end of the turn. */
  predicate Earns(job: Job, w: World, completed: map<RunKey, Run>, fingerprint: string, m: Memory, called: bool) {
    if job.scanner == "auth" then job.authContextID != "" || job.targetID in m.verified
    else if job.scanner == "katana" then
      job.state == Selected && job.targetID in m.crawled && m.crawled[job.targetID].status == Completed
    else
      && Gate(job, w)
      && (Reusable(job, w, completed, fingerprint) || (called && Scanned(w) == Completed && !SessionLost(job, w)))
  }

  /** What it takes to count as authenticated. */
  predicate Authenticates(job: Job, w: World, completed: map<RunKey, Run>, fingerprint: string, m: Memory,
          called: bool) {
    if job.scanner == "auth" then false
    else if job.scanner == "katana" then
      job.state == Selected && job.targetID in m.crawled && m.crawled[job.targetID].authenticated
    else
      && Gate(job, w)
      && (if Reusable(job, w, completed, fingerprint) then completed[KeyOfJob(job, fingerprint)].authenticated
          else called && w.headers && w.usesWebAuth && Scanned(w) == Completed && !SessionLost(job, w))
  }

  /** What one turn does before its outcome is appended. */
  ghost predicate Turned(plan: Plan, completed: map<RunKey, Run>, n: nat, job: Job, w: World, l: Ledger, l': Ledger,
          run: Run) {
    var through, called := Through(job, w, l), l'.calls != l.calls;
    && l'.outcomes == l.outcomes && l'.at == l.at && l'.failed == l.failed
    && Labels(run, job, plan.fingerprint)
    && Visited(plan, n, job, w, l, l')
    && l'.visits == (if through && Visits(job, w, l.prepared) then l.visits + [n] else l.visits)
    && MemoryOf(l') == (if through then Remember(plan, job, w, MemoryOf(l), called) else MemoryOf(l))
    && l'.calls == (if through && Open(job, w, completed, plan.fingerprint) then l.calls + [n] else l.calls)
    && (run.status == Completed <==>
       through && Earns(job, w, completed, plan.fingerprint, MemoryOf(l'), called))
    && (run.authenticated <==>
       through && Authenticates(job, w, completed, plan.fingerprint, MemoryOf(l'), called))
  }

  /** A gate of the turn is closed. */
  predicate HeldBack(job: Job, w: World, l: Ledger) {
    !Through(job, w, l) || (job.scanner != "auth" && job.scanner != "katana" && !Gate(job, w))
  }

  lemma {:induction false} HeldBackTurn(plan: Plan, completed: map<RunKey, Run>, n: nat, job: Job, w: World, l: Ledger,
          gap: Gap)
    requires HeldBack(job, w, l)
    ensures Turned(plan, completed, n, job, w, l, l, NotRun(job, plan.fingerprint, Skipped, gap))
  {
    hide DependenciesMet, Visited, Reusable, Refused;
    NotVisited(plan, n, job, w, l);
  }

  /** A scanner job that was let through: a visit, perhaps, and then the scan. */
  lemma {:induction false} TestTurn(plan: Plan, completed: map<RunKey, Run>, n: nat, job: Job, w: World, l: Ledger,
          v: Ledger, l': Ledger, run: Run)
    requires Through(job, w, l) && Gate(job, w) && Labels(run, job, plan.fingerprint)
    requires Visited(plan, n, job, w, l, v) && v.outcomes == l.outcomes && v.at == l.at && v.failed == l.failed
        && v.calls == l.calls
    requires v.visits == if Visits(job, w, l.prepared) then l.visits + [n] else l.visits
    requires MemoryOf(v) == Remember(plan, job, w, MemoryOf(l), false)
    requires l' == v.(calls := l'.calls, verified := l'.verified)
        && l'.verified == SessionsScanned(job, w, v.verified, l'.calls != l.calls)
    requires l'.calls == if Reusable(job, w, completed, plan.fingerprint) || Refused(job, w).Some? then l.calls
        else l.calls + [n]
    requires run.status == if Reusable(job, w, completed, plan.fingerprint) then Completed
                           else if Refused(job, w).Some? then Refused(job, w).value
                           else if SessionLost(job, w) then Failed else Scanned(w)
    requires run.authenticated <==>
      if Reusable(job, w, completed, plan.fingerprint) then completed[KeyOfJob(job, plan.fingerprint)].authenticated
      else Refused(job, w).None? && w.headers && w.usesWebAuth && Scanned(w) == Completed && !SessionLost(job, w)
    ensures Turned(plan, completed, n, job, w, l, l', run)
  {
    hide DependenciesMet, Visited, Reusable, Refused, SessionLost, Scanned, Labels, SessionsVisited, CrawlsTaken,
      Visits, Prepares;
    VisitedRest(plan, n, job, w, l, v, l');
  }

  lemma {:induction false} VisitedRest(plan: Plan, n: nat, job: Job, w: World, l: Ledger, v: Ledger, l': Ledger)
    requires Visited(plan, n, job, w, l, v) && l' == v.(calls := l'.calls, verified := l'.verified)
    ensures Visited(plan, n, job, w, l, l')
  {
    hide Found, Crawls, CrawlOf, Explicit;
  }

  /** Why a job was held back before anything else was asked. */
  function Cause(job: Job, w: World, l: Ledger): Gap {
    if l.failed then InterruptedWrite
    else if !DependenciesMet(job, l.outcomes) then PrerequisiteFailed
    else if job.authContextID != "" && !w.identity then AuthFailed
    else NoGap
  }

  /** Some checkpoint before job `n` was not stored. */
  ghost predicate Broken(worlds: seq<World>, n: nat) {
    exists i :: 0 <= i < n && i < |worlds| && !worlds[i].saved
  }

  /** One row for each of the first `n` jobs, in the order of the plan; the other
      rows come from discovery. */
  ghost predicate Rows(plan: Plan, n: nat, l: Ledger) {
    && |l.at| == n <= |plan.jobs|
    && (forall i :: 0 <= i < n ==>
       l.at[i] < |l.results| && IsOutcome(l.results[l.at[i]], plan.jobs[i], plan.fingerprint))
    && (forall i, j :: 0 <= i < j < n ==> l.at[i] < l.at[j])
    && (forall k :: 0 <= k < |l.results| ==> k in l.at || l.results[k] in l.discovered)
  }

  predicate DoneAt(l: Ledger, i: nat) {
    i < |l.at| && l.at[i] < |l.results| && l.results[l.at[i]].status == Completed
  }

  predicate SessionAt(l: Ledger, i: nat) {
    i < |l.at| && l.at[i] < |l.results| && l.results[l.at[i]].authenticated
  }

  /** Every prerequisite of job `i` comes earlier and completed. */
  ghost predicate Met(jobs: seq<Job>, l: Ledger, i: nat)
    requires i < |jobs|
  {
    forall d :: d in jobs[i].dependencies ==> Provided(jobs, l, i, d)
  }

  ghost predicate Provided(jobs: seq<Job>, l: Ledger, i: nat, d: string) {
    exists j :: 0 <= j < i && j < |jobs| && jobs[j].id == d && DoneAt(l, j)
  }

  ghost predicate Reached(l: Ledger, i: nat) {
    i in l.calls || i in l.visits
  }

  /** The outcomes are the rows, by job ID. */
  ghost predicate Indexed(plan: Plan, n: nat, l: Ledger) {
    && n <= |plan.jobs| && |l.at| == n
    && (forall i :: 0 <= i < n ==>
       plan.jobs[i].id in l.outcomes && l.at[i] < |l.results| && l.outcomes[plan.jobs[i].id] == l.results[l.at[i]])
    && (forall d :: d in l.outcomes ==> exists i :: 0 <= i < n && plan.jobs[i].id == d)
  }

  /** Nothing reached a target or completed after a checkpoint was lost. */
  ghost predicate Sticky(worlds: seq<World>, n: nat, l: Ledger) {
    && (l.failed <==> Broken(worlds, n))
    && forall i: nat ::
      && (Reached(l, i) ==> i < n && !Broken(worlds, i))
      && (i < n && DoneAt(l, i) ==> !Broken(worlds, i + 1))
  }

  /** What reached a target, and what completed, had its prerequisites. */
  ghost predicate Ordered(jobs: seq<Job>, n: nat, l: Ledger)
    requires n <= |jobs|
  {
    forall i: nat :: i < n && (Reached(l, i) || DoneAt(l, i)) ==> Met(jobs, l, i)
  }

  /** A job's runner is invoked: no checkpoint was lost before, its prerequisites
      completed, and nothing else holds it back. */
  ghost predicate Runs(plan: Plan, worlds: seq<World>, completed: map<RunKey, Run>, l: Ledger, i: nat)
    requires i < |plan.jobs| == |worlds|
  {
    !Broken(worlds, i) && Met(plan.jobs, l, i) && Open(plan.jobs[i], worlds[i], completed, plan.fingerprint)
  }

  /** Runners were invoked for exactly these jobs, once each, in plan order. */
  ghost predicate Called(plan: Plan, worlds: seq<World>, completed: map<RunKey, Run>, n: nat, l: Ledger)
    requires n <= |plan.jobs| == |worlds|
  {
    && Increasing(l.calls, n) && (forall i: nat :: i < n ==> (i in l.calls <==> Runs(plan, worlds, completed, l, i)))
    && Crawling(worlds, n, l.visits, l.crawls)
  }

  /** Of the turns that prepared a surface exactly these crawled. */
  ghost predicate Crawling(worlds: seq<World>, n: nat, visits: seq<nat>, crawls: seq<nat>)
    requires n <= |worlds|
  {
    && Increasing(visits, n) && Increasing(crawls, n)
    && forall i: nat :: i < n ==> (i in crawls <==> i in visits && Crawls(worlds[i]))
  }

  /** Turn `i` got past checkpoint, prerequisites and identity. */
  ghost predicate Opened(plan: Plan, worlds: seq<World>, l: Ledger, i: nat)
    requires i < |plan.jobs| == |worlds|
  {
    !Broken(worlds, i) && Met(plan.jobs, l, i) && (plan.jobs[i].authContextID != "" ==> worlds[i].identity)
  }

  /** What the first `n` turns leave in memory, by the rows and the calls they made. */
  ghost function MemoryAt(plan: Plan, worlds: seq<World>, l: Ledger, n: nat): Memory
    requires n <= |plan.jobs| == |worlds|
  {
    if n == 0 then Memory({}, {}, map[])
    else
      var m := MemoryAt(plan, worlds, l, n - 1);
      if Opened(plan, worlds, l, n - 1) then Remember(plan, plan.jobs[n - 1], worlds[n - 1], m, n - 1 in l.calls) else m
  }

  /** The surface of the target is visited in turn `i`. */
  ghost predicate VisitsAt(plan: Plan, worlds: seq<World>, l: Ledger, i: nat)
    requires i < |plan.jobs| == |worlds|
  {
    Opened(plan, worlds, l, i) && Visits(plan.jobs[i], worlds[i], MemoryAt(plan, worlds, l, i).prepared)
  }

  ghost predicate EarnedAt(plan: Plan, worlds: seq<World>, completed: map<RunKey, Run>, l: Ledger, i: nat)
    requires i < |plan.jobs| == |worlds|
  {
    && Opened(plan, worlds, l, i)
    && Earns(plan.jobs[i], worlds[i], completed, plan.fingerprint, MemoryAt(plan, worlds, l, i + 1), i in l.calls)
  }

  ghost predicate AuthenticatedAt(plan: Plan, worlds: seq<World>, completed: map<RunKey, Run>, l: Ledger, i: nat)
    requires i < |plan.jobs| == |worlds|
  {
    && Opened(plan, worlds, l, i)
    && Authenticates(plan.jobs[i], worlds[i], completed, plan.fingerprint, MemoryAt(plan, worlds, l, i + 1),
         i in l.calls)
  }

  /** The loop's variables are what the turns left; exactly the rows that earned it
      and were stored are completed, and exactly the sessions that held count. */
  ghost predicate Honest(plan: Plan, worlds: seq<World>, completed: map<RunKey, Run>, n: nat, l: Ledger)
    requires n <= |plan.jobs| == |worlds|
  {
    && MemoryOf(l) == MemoryAt(plan, worlds, l, n)
    && (forall i: nat :: i < n ==> (i in l.visits <==> VisitsAt(plan, worlds, l, i)))
    && (forall i: nat :: i < n ==> (DoneAt(l, i) <==> worlds[i].saved && EarnedAt(plan, worlds, completed, l, i)))
    && (forall i: nat :: i < n ==> (SessionAt(l, i) <==> AuthenticatedAt(plan, worlds, completed, l, i)))
  }

  ghost predicate Gated(plan: Plan, worlds: seq<World>, completed: map<RunKey, Run>, n: nat, l: Ledger) {
    && n <= |plan.jobs| == |worlds|
    && Sticky(worlds, n, l) && Ordered(plan.jobs, n, l) && Called(plan, worlds, completed, n, l)
       && Honest(plan, worlds, completed, n, l)
  }

  ghost predicate Increasing(xs: seq<nat>, n: nat) {
    && (forall i, j :: 0 <= i < j < |xs| ==> xs[i] < xs[j])
    && (forall i :: 0 <= i < |xs| ==> xs[i] < n)
  }

  lemma {:induction false} RowsKept(plan: Plan, completed: map<RunKey, Run>, n: nat, w: World, l: Ledger, l': Ledger,
          run: Run)
    requires n < |plan.jobs| && Rows(plan, n, l) && Turned(plan, completed, n, plan.jobs[n], w, l, l', run)
    ensures Rows(plan, n + 1, Append(l', plan.jobs[n], run, w.saved))
  {
    hide Turned, Append, Rows;
    TurnAddsRows(plan, completed, n, w, l, l', run);
    RowsMore(plan, n, l, l', run, w.saved);
  }

  /** The rows of a turn before its outcome come from discovery. */
  lemma {:induction false} TurnAddsRows(plan: Plan, completed: map<RunKey, Run>, n: nat, w: World, l: Ledger,
          l': Ledger, run: Run)
    requires n < |plan.jobs| && Turned(plan, completed, n, plan.jobs[n], w, l, l', run)
    ensures l'.at == l.at && l.results <= l'.results && Labels(run, plan.jobs[n], plan.fingerprint)
    ensures forall r :: r in l.discovered ==> r in l'.discovered
    ensures forall k :: |l.results| <= k < |l'.results| ==> l'.results[k] in l'.discovered
  {
    hide DependenciesMet, Reusable, KeyOfJob, Labels, Earns, Authenticates, Remember, Visits, Open, Through;
  }

  lemma {:induction false} RowsMore(plan: Plan, n: nat, l: Ledger, l': Ledger, run: Run, saved: bool)
    requires n < |plan.jobs| && Rows(plan, n, l) && Labels(run, plan.jobs[n], plan.fingerprint)
    requires l'.at == l.at && l.results <= l'.results
    requires forall r :: r in l.discovered ==> r in l'.discovered
    requires forall k :: |l.results| <= k < |l'.results| ==> l'.results[k] in l'.discovered
    ensures Rows(plan, n + 1, Append(l', plan.jobs[n], run, saved))
  {
    var next := Append(l', plan.jobs[n], run, saved);
    assert l.results <= next.results;
    forall k | 0 <= k < |next.results|
      ensures k in next.at || next.results[k] in next.discovered
    {
      if k < |l.results| {
        assert k in l.at || l.results[k] in l.discovered;
      } else {
        assert k == |l'.results| ==> next.at[n] == k;
      }
    }
  }

  lemma {:induction false} IndexedKept(plan: Plan, completed: map<RunKey, Run>, n: nat, w: World, l: Ledger, l': Ledger,
          run: Run)
    requires n < |plan.jobs| && UniqueIDs(plan.jobs) && Indexed(plan, n, l)
        && Turned(plan, completed, n, plan.jobs[n], w, l, l', run)
    ensures Indexed(plan, n + 1, Append(l', plan.jobs[n], run, w.saved))
  {
    hide Turned, Append, Indexed, UniqueIDs;
    TurnKeepsIndex(plan, completed, n, w, l, l', run);
    IndexedMore(plan, n, l, l', run, w.saved);
  }

  lemma {:induction false} TurnKeepsIndex(plan: Plan, completed: map<RunKey, Run>, n: nat, w: World, l: Ledger,
          l': Ledger, run: Run)
    requires n < |plan.jobs| && Turned(plan, completed, n, plan.jobs[n], w, l, l', run)
    ensures l'.outcomes == l.outcomes && l'.at == l.at && l.results <= l'.results
  {
    hide DependenciesMet, Reusable, KeyOfJob, Labels, Earns, Authenticates, Remember, Visits;
  }

  lemma {:induction false} IndexedMore(plan: Plan, n: nat, l: Ledger, l': Ledger, run: Run, saved: bool)
    requires n < |plan.jobs| && UniqueIDs(plan.jobs) && Indexed(plan, n, l)
    requires l'.outcomes == l.outcomes && l'.at == l.at && l.results <= l'.results
    ensures Indexed(plan, n + 1, Append(l', plan.jobs[n], run, saved))
  {
    var next := Append(l', plan.jobs[n], run, saved);
    assert l.results <= next.results;
    forall i | 0 <= i < n + 1
      ensures plan.jobs[i].id in next.outcomes && next.at[i] < |next.results|
          && next.outcomes[plan.jobs[i].id] == next.results[next.at[i]]
    {
      assert i < n ==> plan.jobs[i].id != plan.jobs[n].id;
    }
    forall d | d in next.outcomes
      ensures exists i :: 0 <= i < n + 1 && plan.jobs[i].id == d
    {
      if d != plan.jobs[n].id {
        assert d in l.outcomes;
      }
    }
  }

  /** The gate on the outcomes is the gate on the rows. */
  lemma {:induction false} DependenciesAreRows(plan: Plan, n: nat, l: Ledger)
    requires n < |plan.jobs| && UniqueIDs(plan.jobs) && Indexed(plan, n, l)
    ensures DependenciesMet(plan.jobs[n], l.outcomes) <==> Met(plan.jobs, l, n)
  {
    forall d | d in plan.jobs[n].dependencies
      ensures d in l.outcomes && l.outcomes[d].status == Completed <==> Provided(plan.jobs, l, n, d)
    {
      if d in l.outcomes {
        var i :| 0 <= i < n && plan.jobs[i].id == d;
        assert DoneAt(l, i) <==> l.outcomes[d].status == Completed;
      }
    }
  }

  lemma {:induction false} MetStays(jobs: seq<Job>, l: Ledger, l': Ledger, i: nat)
    requires i < |jobs|
    requires forall j: nat :: j < i ==> (DoneAt(l, j) <==> DoneAt(l', j))
    ensures Met(jobs, l, i) <==> Met(jobs, l', i)
  {
    forall d | d in jobs[i].dependencies
      ensures Provided(jobs, l, i, d) <==> Provided(jobs, l', i, d)
    {
      if Provided(jobs, l, i, d) {
        var j :| 0 <= j < i && j < |jobs| && jobs[j].id == d && DoneAt(l, j);
        assert DoneAt(l', j);
      }
      if Provided(jobs, l', i, d) {
        var j :| 0 <= j < i && j < |jobs| && jobs[j].id == d && DoneAt(l', j);
        assert DoneAt(l, j);
      }
    }
  }

  lemma {:induction false} BrokenMore(worlds: seq<World>, n: nat)
    requires n < |worlds|
    ensures Broken(worlds, n + 1) <==> Broken(worlds, n) || !worlds[n].saved
  {
  }

  /** The rows before stay; the new one is done only if the turn completed it and
      the checkpoint was stored. */
  lemma {:induction false} DoneMore(plan: Plan, completed: map<RunKey, Run>, n: nat, w: World, l: Ledger, l': Ledger,
          run: Run)
    requires n < |plan.jobs| && Rows(plan, n, l) && Turned(plan, completed, n, plan.jobs[n], w, l, l', run)
    ensures var next := Append(l', plan.jobs[n], run, w.saved);
            && (forall i: nat :: i < n ==> (DoneAt(next, i) <==> DoneAt(l, i)))
            && (DoneAt(next, n) <==> run.status == Completed && w.saved)
            && (forall i: nat :: i < n ==> (SessionAt(next, i) <==> SessionAt(l, i)))
            && (SessionAt(next, n) <==> run.authenticated)
  {
    hide DependenciesMet, Reusable, KeyOfJob, Labels, IsOutcome;
    var next := Append(l', plan.jobs[n], run, w.saved);
    assert l.results <= next.results;
    assert next.at[n] == |l'.results|;
  }

  lemma {:induction false} IncreasingMore(xs: seq<nat>, n: nat)
    requires Increasing(xs, n)
    ensures Increasing(xs, n + 1) && Increasing(xs + [n], n + 1)
  {
  }

  lemma {:induction false} GatedKept(plan: Plan, worlds: seq<World>, completed: map<RunKey, Run>, n: nat, l: Ledger,
          l': Ledger, run: Run)
    requires n < |plan.jobs| && UniqueIDs(plan.jobs) && Rows(plan, n, l) && Indexed(plan, n, l)
        && Gated(plan, worlds, completed, n, l)
    requires Turned(plan, completed, n, plan.jobs[n], worlds[n], l, l', run)
    ensures Gated(plan, worlds, completed, n + 1, Append(l', plan.jobs[n], run, worlds[n].saved))
  {
    hide Rows, Indexed, DependenciesMet, Called, DoneAt, SessionAt, Reached, Met, UniqueIDs, Open, Runs, Labels, Earns,
      Authenticates, Remember, Visits, Honest, Visited, Opened, Broken;
    var next := Append(l', plan.jobs[n], run, worlds[n].saved);
    DoneMore(plan, completed, n, worlds[n], l, l', run);
    ReachedMore(plan, completed, n, worlds[n], l, l', run);
    DependenciesAreRows(plan, n, l);
    NotReachedYet(plan, worlds, completed, n, l);
    ThroughIsOpened(plan, worlds, n, l);
    RunsIsOpen(plan, worlds, completed, n, l);
    OpenedStays(plan, worlds, l, next, n);
    VisitsMore(plan, n, worlds[n], l, l');
    CalledMore(plan, worlds, completed, n, l, next);
    EarlierStay(l, next, n);
    HonestMore(plan, worlds, completed, n, l, next);
    StickyMore(worlds, n, l, next);
    OrderedMore(plan.jobs, n, l, next);
  }

  lemma {:induction false} NotReachedYet(plan: Plan, worlds: seq<World>, completed: map<RunKey, Run>, n: nat, l: Ledger)
    requires Gated(plan, worlds, completed, n, l)
    ensures !Reached(l, n) && n !in l.calls && n !in l.visits
  {
    hide Runs, Ordered, Honest, Broken, DoneAt;
  }

  lemma {:induction false} ThroughIsOpened(plan: Plan, worlds: seq<World>, n: nat, l: Ledger)
    requires n < |plan.jobs| == |worlds| && Sticky(worlds, n, l)
    requires DependenciesMet(plan.jobs[n], l.outcomes) <==> Met(plan.jobs, l, n)
    ensures Through(plan.jobs[n], worlds[n], l) <==> Opened(plan, worlds, l, n)
  {
    hide DependenciesMet, Met, Broken, Reached, DoneAt;
  }

  lemma {:induction false} RunsIsOpen(plan: Plan, worlds: seq<World>, completed: map<RunKey, Run>, n: nat, l: Ledger)
    requires n < |plan.jobs| == |worlds| && Sticky(worlds, n, l)
    requires DependenciesMet(plan.jobs[n], l.outcomes) <==> Met(plan.jobs, l, n)
    ensures Runs(plan, worlds, completed, l, n) <==>
      Through(plan.jobs[n], worlds[n], l) && Open(plan.jobs[n], worlds[n], completed, plan.fingerprint)
  {
    hide DependenciesMet, Met, Broken, Reached, DoneAt, Reusable, Refused;
  }

  lemma {:induction false} EarlierStay(l: Ledger, next: Ledger, n: nat)
    requires next.calls == l.calls || next.calls == l.calls + [n]
    requires next.visits == l.visits || next.visits == l.visits + [n]
    requires n !in l.calls && n !in l.visits
    ensures forall i: nat :: i < n ==> (i in next.calls <==> i in l.calls) && (i in next.visits <==> i in l.visits)
    ensures (n in next.calls <==> next.calls != l.calls) && (n in next.visits <==> next.visits != l.visits)
  {
  }

  lemma {:induction false} StickyMore(worlds: seq<World>, n: nat, l: Ledger, next: Ledger)
    requires n < |worlds| && Sticky(worlds, n, l) && next.failed == (l.failed || !worlds[n].saved)
    requires forall i: nat :: Reached(next, i) ==> Reached(l, i) || (i == n && !l.failed)
    requires forall i: nat :: i < n ==> (DoneAt(next, i) <==> DoneAt(l, i))
    requires DoneAt(next, n) ==> !l.failed && worlds[n].saved
    ensures Sticky(worlds, n + 1, next)
  {
    BrokenMore(worlds, n);
    hide Broken, Reached, DoneAt;
  }

  lemma {:induction false} OrderedMore(jobs: seq<Job>, n: nat, l: Ledger, next: Ledger)
    requires n < |jobs| && Ordered(jobs, n, l) && !Reached(l, n)
    requires forall i: nat :: Reached(next, i) ==> Reached(l, i) || (i == n && Met(jobs, l, n))
    requires forall i: nat :: i < n ==> (DoneAt(next, i) <==> DoneAt(l, i))
    requires DoneAt(next, n) ==> Met(jobs, l, n)
    ensures Ordered(jobs, n + 1, next)
  {
    hide Reached, DoneAt, Met;
    forall i: nat | i < n + 1 && (Reached(next, i) || DoneAt(next, i))
      ensures Met(jobs, next, i)
    {
      assert Met(jobs, l, i);
      MetStays(jobs, l, next, i);
    }
  }

  lemma {:induction false} VisitsMore(plan: Plan, n: nat, w: World, l: Ledger, l': Ledger)
    requires n < |plan.jobs| && Visited(plan, n, plan.jobs[n], w, l, l')
    ensures l'.visits == l.visits || l'.visits == l.visits + [n]
    ensures l'.crawls == if l'.visits != l.visits && Crawls(w) then l.crawls + [n] else l.crawls
  {
    hide Crawls, Found, Explicit, CrawlOf;
  }

  lemma {:induction false} CalledMore(plan: Plan, worlds: seq<World>, completed: map<RunKey, Run>, n: nat, l: Ledger,
          next: Ledger)
    requires n < |plan.jobs| == |worlds| && Called(plan, worlds, completed, n, l)
    requires next.calls == if Runs(plan, worlds, completed, l, n) then l.calls + [n] else l.calls
    requires next.visits == l.visits || next.visits == l.visits + [n]
    requires next.crawls == if next.visits != l.visits && Crawls(worlds[n]) then l.crawls + [n] else l.crawls
    requires forall i: nat :: i < n ==> (DoneAt(next, i) <==> DoneAt(l, i))
    ensures Called(plan, worlds, completed, n + 1, next)
  {
    hide Runs, DoneAt, Increasing, Crawls, Crawling;
    CrawlingMore(worlds, n, l.visits, next.visits, l.crawls, next.crawls);
    IncreasingMore(l.calls, n);
    IncreasingBelow(l.calls, n);
    forall i: nat | i < n + 1
      ensures i in next.calls <==> Runs(plan, worlds, completed, next, i)
    {
      RunsStay(plan, worlds, completed, l, next, i);
    }
  }

  lemma {:induction false} IncreasingBelow(xs: seq<nat>, n: nat)
    requires Increasing(xs, n)
    ensures forall i :: i in xs ==> i < n
  {
  }

  lemma {:induction false} RunsStay(plan: Plan, worlds: seq<World>, completed: map<RunKey, Run>, l: Ledger,
          next: Ledger, i: nat)
    requires i < |plan.jobs| == |worlds| && forall j: nat :: j < i ==> (DoneAt(next, j) <==> DoneAt(l, j))
    ensures Runs(plan, worlds, completed, next, i) <==> Runs(plan, worlds, completed, l, i)
  {
    hide Broken, Met, Open, DoneAt;
    MetStays(plan.jobs, l, next, i);
  }

  lemma {:induction false} CrawlingMore(worlds: seq<World>, n: nat, visits: seq<nat>, visits': seq<nat>,
          crawls: seq<nat>, crawls': seq<nat>)
    requires n < |worlds| && Crawling(worlds, n, visits, crawls) && (visits' == visits || visits' == visits + [n])
    requires crawls' == if visits' != visits && Crawls(worlds[n]) then crawls + [n] else crawls
    ensures Crawling(worlds, n + 1, visits', crawls')
  {
    hide Crawls;
    IncreasingMore(visits, n);
    IncreasingMore(crawls, n);
    assert n !in visits && n !in crawls;
    hide Increasing;
  }

  lemma {:induction false} OpenedStays(plan: Plan, worlds: seq<World>, l: Ledger, next: Ledger, i: nat)
    requires i < |plan.jobs| == |worlds| && forall j: nat :: j < i ==> (DoneAt(next, j) <==> DoneAt(l, j))
    ensures Opened(plan, worlds, next, i) <==> Opened(plan, worlds, l, i)
  {
    hide Broken, Met, DoneAt;
    MetStays(plan.jobs, l, next, i);
  }

  /** Later turns do not change what the earlier ones left. */
  lemma {:induction false} MemoryStays(plan: Plan, worlds: seq<World>, l: Ledger, next: Ledger, n: nat)
    requires n <= |plan.jobs| == |worlds|
    requires forall j: nat :: j < n ==> (DoneAt(next, j) <==> DoneAt(l, j)) && (j in next.calls <==> j in l.calls)
    ensures MemoryAt(plan, worlds, next, n) == MemoryAt(plan, worlds, l, n)
  {
    hide Opened, Remember, DoneAt;
    if n > 0 {
      MemoryStays(plan, worlds, l, next, n - 1);
      OpenedStays(plan, worlds, l, next, n - 1);
    }
  }

  lemma {:induction false} EarnedStays(plan: Plan, worlds: seq<World>, completed: map<RunKey, Run>, l: Ledger,
          next: Ledger, i: nat)
    requires i < |plan.jobs| == |worlds|
    requires forall j: nat :: j <= i ==> (DoneAt(next, j) <==> DoneAt(l, j)) && (j in next.calls <==> j in l.calls)
    ensures VisitsAt(plan, worlds, next, i) <==> VisitsAt(plan, worlds, l, i)
    ensures EarnedAt(plan, worlds, completed, next, i) <==> EarnedAt(plan, worlds, completed, l, i)
    ensures AuthenticatedAt(plan, worlds, completed, next, i) <==> AuthenticatedAt(plan, worlds, completed, l, i)
  {
    hide Opened, MemoryAt, Earns, Authenticates, Visits, DoneAt;
    OpenedStays(plan, worlds, l, next, i);
    MemoryStays(plan, worlds, l, next, i);
    MemoryStays(plan, worlds, l, next, i + 1);
  }

  /** The rows before stay as they were. */
  lemma {:induction false} HonestMore(plan: Plan, worlds: seq<World>, completed: map<RunKey, Run>, n: nat, l: Ledger,
          next: Ledger)
    requires n < |plan.jobs| == |worlds| && Honest(plan, worlds, completed, n, l)
    requires forall i: nat :: i < n ==> (DoneAt(next, i) <==> DoneAt(l, i)) && (SessionAt(next, i) <==> SessionAt(l, i))
    requires forall i: nat :: i < n ==> (i in next.calls <==> i in l.calls) && (i in next.visits <==> i in l.visits)
    requires Opened(plan, worlds, l, n) <==> Opened(plan, worlds, next, n)
    requires MemoryOf(next) == if Opened(plan, worlds, next, n)
      then Remember(plan, plan.jobs[n], worlds[n], MemoryOf(l), n in next.calls) else MemoryOf(l)
    requires n in next.visits <==> Opened(plan, worlds, next, n) && Visits(plan.jobs[n], worlds[n], l.prepared)
    requires DoneAt(next, n) <==>
      && worlds[n].saved && Opened(plan, worlds, next, n)
      && Earns(plan.jobs[n], worlds[n], completed, plan.fingerprint, MemoryOf(next), n in next.calls)
    requires SessionAt(next, n) <==>
      && Opened(plan, worlds, next, n)
      && Authenticates(plan.jobs[n], worlds[n], completed, plan.fingerprint, MemoryOf(next), n in next.calls)
    ensures Honest(plan, worlds, completed, n + 1, next)
  {
    hide Opened, Earns, Authenticates, Visits, DoneAt, SessionAt, Remember, VisitsAt, EarnedAt, AuthenticatedAt;
    MemoryStays(plan, worlds, l, next, n);
    assert MemoryAt(plan, worlds, next, n + 1) == MemoryOf(next);
    LastTurn(plan, worlds, completed, next, n);
    forall i: nat | i < n
      ensures i in next.visits <==> VisitsAt(plan, worlds, next, i)
      ensures DoneAt(next, i) <==> worlds[i].saved && EarnedAt(plan, worlds, completed, next, i)
      ensures SessionAt(next, i) <==> AuthenticatedAt(plan, worlds, completed, next, i)
    {
      EarnedStays(plan, worlds, completed, l, next, i);
    }
  }

  lemma {:induction false} LastTurn(plan: Plan, worlds: seq<World>, completed: map<RunKey, Run>, l: Ledger, n: nat)
    requires n < |plan.jobs| == |worlds|
    ensures EarnedAt(plan, worlds, completed, l, n) <==>
      && Opened(plan, worlds, l, n)
      && Earns(plan.jobs[n], worlds[n], completed, plan.fingerprint, MemoryAt(plan, worlds, l, n + 1), n in l.calls)
    ensures AuthenticatedAt(plan, worlds, completed, l, n) <==>
      && Opened(plan, worlds, l, n)
      && Authenticates(plan.jobs[n], worlds[n], completed, plan.fingerprint, MemoryAt(plan, worlds, l, n + 1),
           n in l.calls)
    ensures VisitsAt(plan, worlds, l, n) <==>
      Opened(plan, worlds, l, n) && Visits(plan.jobs[n], worlds[n], MemoryAt(plan, worlds, l, n).prepared)
  {
    hide Opened, MemoryAt, Earns, Authenticates, Visits;
  }

  lemma {:induction false} ReachedMore(plan: Plan, completed: map<RunKey, Run>, n: nat, w: World, l: Ledger, l': Ledger,
          run: Run)
    requires n < |plan.jobs| && Turned(plan, completed, n, plan.jobs[n], w, l, l', run)
    ensures var next := Append(l', plan.jobs[n], run, w.saved);
            forall i: nat :: Reached(next, i) ==>
              Reached(l, i) || (i == n && !l.failed && DependenciesMet(plan.jobs[n], l.outcomes))
  {
    hide DependenciesMet, KeyOfJob, Labels, Reusable, Remember, Earns, Authenticates, Visits;
  }

  // ----- the whole call ----------------------------------------------------

  predicate Blocked(entries: seq<Entry>) {
    exists e :: e in entries && !Settled(e)
  }

  /** What the rows of a refused assessment show. */
  datatype Refusal = Refusal(fingerprint: string, reason: Reason, gap: Gap)

  datatype Reason = NoFingerprint | NotRecovered | UnresolvedWrite | WorkflowDisabled | UnknownProfile | NoReplayStore

  function ReasonText(reason: Reason): string {
    match reason
    case NoFingerprint => "accepted plan fingerprint is required"
    case NotRecovered => "write journal recovery failed; automatic resume was refused"
    case UnresolvedWrite => "unresolved write journal prevents automatic resume"
    case WorkflowDisabled => "accepted expanded workflow is disabled; executor was not changed"
    case UnknownProfile => "assessment plan contains an unsupported web profile"
    case NoReplayStore => "encrypted replay storage unavailable"
  }

  /** The guards before the loop, in their order. */
  function Guard(plan: Plan, start: Start): Option<Refusal> {
    var fp := plan.fingerprint;
    if plan.jobs != [] && Trim(fp) == "" then Some(Refusal("", NoFingerprint, NoGap))
    else if start.enabled && plan.unified && !start.recovered then
      Some(Refusal(fp, NotRecovered, InterruptedWrite))
    else if !start.readable || Blocked(start.journal) then
      Some(Refusal(fp, UnresolvedWrite, InterruptedWrite))
    else if plan.unified && !start.enabled then
      Some(Refusal(fp, WorkflowDisabled, NoGap))
    else if !start.profileKnown then
      Some(Refusal(fp, UnknownProfile, NoGap))
    else if start.enabled && plan.unified && !start.replayStored then
      Some(Refusal(fp, NoReplayStore, NoGap))
    else None
  }

  /** The rows of a refusal; an interrupted write is marked on each of them. */
  method RefusedJobs(jobs: seq<Job>, refusal: Refusal) returns (runs: seq<Run>, reasons: seq<string>)
    ensures |runs| == |reasons| == |jobs|
    ensures forall i :: 0 <= i < |jobs| ==>
      runs[i] == NotRun(jobs[i], refusal.fingerprint, Failed, refusal.gap) && reasons[i] == ReasonText(refusal.reason)
  {
    hide ReasonText;
    runs, reasons := FailedJobs(jobs, refusal.fingerprint, ReasonText(refusal.reason));
    if refusal.gap == NoGap {
      return;
    }
    for i := 0 to |runs|
      invariant |runs| == |jobs|
      invariant forall j :: 0 <= j < |runs| ==>
        runs[j] == NotRun(jobs[j], refusal.fingerprint, Failed, if j < i then refusal.gap else NoGap)
    {
      runs := runs[i := runs[i].(gap := refusal.gap)];
    }
  }

  /** The last write of the workflow marks the last row when it fails. */
  function Sealed(rows: seq<Run>, saved: bool): seq<Run> {
    if saved || rows == [] then rows
    else rows[|rows| - 1 := rows[|rows| - 1].(status := Failed, gap := InterruptedWrite)]
  }

  method RunLoop(plan: Plan, worlds: seq<World>, completed: map<RunKey, Run>) returns (rows: seq<Run>, ghost l: Ledger)
    requires |worlds| == |plan.jobs| && Labelled(completed)
    ensures rows == l.results && Rows(plan, |plan.jobs|, l)
    ensures UniqueIDs(plan.jobs) ==> Indexed(plan, |plan.jobs|, l) && Gated(plan, worlds, completed, |plan.jobs|, l)
  {
    hide Rows, Indexed, Gated, Turned, Append, Broken, UniqueIDs, Cause, Labelled;
    var loop := new Loop(plan, completed);
    NothingYet(plan, worlds, completed);
    for i := 0 to |plan.jobs|
      invariant loop.plan == plan && loop.completed == completed && fresh(loop)
      invariant Rows(plan, i, loop.State())
      invariant UniqueIDs(plan.jobs) ==>
          Indexed(plan, i, loop.State()) && Gated(plan, worlds, completed, i, loop.State())
    {
      ghost var before := loop.State();
      var run := loop.Turn(i, plan.jobs[i], worlds[i]);
      ghost var turned := loop.State();
      loop.AppendOutcome(plan.jobs[i], run, worlds[i].saved);
      TurnKeeps(plan, worlds, completed, i, before, turned, run);
    }
    l := loop.State();
    rows := loop.results;
  }

  method RunAssessmentJobs(plan: Plan, start: Start, existing: seq<Run>, worlds: seq<World>, comparisons: seq<Run>,
          finalSaved: bool)
    returns (results: seq<Run>, reasons: seq<string>, ghost l: Ledger, ghost completed: map<RunKey, Run>)
    requires |worlds| == |plan.jobs|
    ensures Guard(plan, start).None? ==> StoredRuns(existing, |existing|, completed)
    ensures Guard(plan, start).Some? ==>
      var refusal := Guard(plan, start).value;
      && |results| == |reasons| == |plan.jobs| && l.calls == [] && l.visits == []
      && forall i :: 0 <= i < |results| ==>
         && results[i] == NotRun(plan.jobs[i], refusal.fingerprint, Failed, refusal.gap)
         && reasons[i] == ReasonText(refusal.reason)
    ensures Guard(plan, start).None? ==>
        results == Sealed(l.results + comparisons, finalSaved) && Rows(plan, |plan.jobs|, l)
    ensures Guard(plan, start).None? && UniqueIDs(plan.jobs) ==>
      Indexed(plan, |plan.jobs|, l) && Gated(plan, worlds, completed, |plan.jobs|, l)
  {
    hide Rows, Indexed, Gated, UniqueIDs, Guard, ReasonText;
    completed, reasons := map[], [];
    l := Ledger([], map[], false, [], [], [], [], {}, {}, map[], {});
    var refusal := Guarded(plan, start);
    if refusal.Some? {
      results, reasons := RefusedJobs(plan.jobs, refusal.value);
      return;
    }
    var stored := LastTerminal(existing);
    completed := stored;
    var rows;
    rows, l := RunLoop(plan, worlds, stored);
    results := rows + comparisons;
    if !finalSaved && |results| > 0 {
      results := results[|results| - 1 := results[|results| - 1].(status := Failed, gap := InterruptedWrite)];
    }
  }

  lemma {:induction false} NothingYet(plan: Plan, worlds: seq<World>, completed: map<RunKey, Run>)
    requires |worlds| == |plan.jobs|
    ensures var l := Ledger([], map[], false, [], [], [], [], {}, {}, map[], {});
            Rows(plan, 0, l) && Indexed(plan, 0, l) && Gated(plan, worlds, completed, 0, l)
  {
  }

  lemma {:induction false} TurnKeeps(plan: Plan, worlds: seq<World>, completed: map<RunKey, Run>, n: nat, l: Ledger,
          l': Ledger, run: Run)
    requires n < |plan.jobs| == |worlds| && Rows(plan, n, l)
        && Turned(plan, completed, n, plan.jobs[n], worlds[n], l, l', run)
    ensures Rows(plan, n + 1, Append(l', plan.jobs[n], run, worlds[n].saved))
    ensures UniqueIDs(plan.jobs) && Indexed(plan, n, l) && Gated(plan, worlds, completed, n, l) ==>
      && Indexed(plan, n + 1, Append(l', plan.jobs[n], run, worlds[n].saved))
      && Gated(plan, worlds, completed, n + 1, Append(l', plan.jobs[n], run, worlds[n].saved))
  {
    RowsKept(plan, completed, n, worlds[n], l, l', run);
    if UniqueIDs(plan.jobs) && Indexed(plan, n, l) && Gated(plan, worlds, completed, n, l) {
      IndexedKept(plan, completed, n, worlds[n], l, l', run);
      GatedKept(plan, worlds, completed, n, l, l', run);
    }
  }

  method Guarded(plan: Plan, start: Start) returns (refusal: Option<Refusal>)
    ensures refusal == Guard(plan, start)
  {
    var fp := plan.fingerprint;
    if plan.jobs != [] && Trim(fp) == "" {
      return Some(Refusal("", NoFingerprint, NoGap));
    }
    var expanded := start.enabled && plan.unified;
    if expanded && !start.recovered {
      return Some(Refusal(fp, NotRecovered, InterruptedWrite));
    }
    var unresolved := UnresolvedWrites(start.journal, start.readable);
    if |unresolved| > 0 {
      return Some(Refusal(fp, UnresolvedWrite, InterruptedWrite));
    }
    if plan.unified && !expanded {
      return Some(Refusal(fp, WorkflowDisabled, NoGap));
    }
    if !start.profileKnown {
      return Some(Refusal(fp, UnknownProfile, NoGap));
    }
    if expanded && !start.replayStored {
      return Some(Refusal(fp, NoReplayStore, NoGap));
    }
    return None;
  }

  // ----- what the call promises --------------------------------------------

  /** `path` leads from a job to one of its prerequisites, direct or not. */
  ghost predicate Upstream(jobs: seq<Job>, path: seq<nat>) {
    && path != [] && (forall k :: 0 <= k < |path| ==> path[k] < |jobs|)
    && forall k :: 0 <= k < |path| - 1 ==> jobs[path[k + 1]].id in jobs[path[k]].dependencies
  }

  /** A runner is invoked, and a surface prepared, only after every transitive
      prerequisite ended completed; and so it stays in the results. */
  lemma {:induction false} UpstreamCompleted(plan: Plan, worlds: seq<World>, completed: map<RunKey, Run>, l: Ledger,
          path: seq<nat>, comparisons: seq<Run>, finalSaved: bool)
    requires UniqueIDs(plan.jobs) && Rows(plan, |plan.jobs|, l) && Gated(plan, worlds, completed, |plan.jobs|, l)
    requires Upstream(plan.jobs, path) && |path| > 1 && (Reached(l, path[0]) || DoneAt(l, path[0]))
    ensures var j := path[|path| - 1];
            && j < path[0] && DoneAt(l, j)
            && Sealed(l.results + comparisons, finalSaved)[l.at[j]].status == Completed
  {
    hide Called, Honest, Sticky, IsOutcome, Labels, Broken;
    var i, d := path[0], path[1];
    assert Met(plan.jobs, l, i);
    assert Provided(plan.jobs, l, i, plan.jobs[d].id);
    var j :| 0 <= j < i && plan.jobs[j].id == plan.jobs[d].id && DoneAt(l, j);
    assert j == d;
    if |path| > 2 {
      UpstreamCompleted(plan, worlds, completed, l, path[1..], comparisons, finalSaved);
    } else {
      assert l.at[d] < l.at[i];
    }
  }

  /** After a checkpoint that could not be stored nothing reaches a target any
      more, even if later checkpoints can be stored. */
  lemma {:induction false} NothingAfterLostCheckpoint(plan: Plan, worlds: seq<World>, completed: map<RunKey, Run>,
          l: Ledger, lost: nat, later: nat)
    requires Gated(plan, worlds, completed, |plan.jobs|, l)
    requires lost < later < |plan.jobs| && !worlds[lost].saved
    ensures !Reached(l, later) && !DoneAt(l, later) && !DoneAt(l, lost)
  {
    assert Broken(worlds, later);
    assert Broken(worlds, lost + 1) && Broken(worlds, later + 1);
  }

  /** The cleanup of a sent write is not declared, failed, or went out and was
      answered with a status from 200 to 299. */
  ghost predicate CleanedUp(e: Entry, log: seq<WriteMachine.Event>) {
    || (e.state == Sent && e.cleanupVerb == "" && e.cleanupURL == "" && e.cleanupRef == "")
    || e.state == CleanupFailed || (e.state == CleanupDone && WriteMachine.Cleaned(log, e.id))
  }

  /** The guard and the write protocol together: a call that gets past its guards
      finds every write answered that was ever sent on this journal, and its cleanup
      answered with success, failed, or not declared. */
  lemma {:induction false} PastTheGuards(plan: Plan, start: Start, s0: WriteMachine.Sys, steps: seq<WriteMachine.Step>,
          key: string)
    requires WriteSafety.Start(s0) && start.journal == WriteMachine.Run(s0, steps).disk.visible
    requires Guard(plan, start).None? && WriteMachine.WriteSent(key) in WriteMachine.Run(s0, steps).log
    ensures WriteMachine.Answered(WriteMachine.Run(s0, steps).log, key)
    ensures exists e :: e in start.journal && e.id == key && CleanedUp(e, WriteMachine.Run(s0, steps).log)
  {
    WriteSafety.ResolvedMeansAnswered(s0, steps, key);
    WriteSafety.ResolvedMeansCleaned(s0, steps, key);
    assert key in Ids(start.journal);
  }

  // ----- what is taken over, and what runs ---------------------------------

  /** A run of the same work as a job: scanner, target, variant and plan. */
  predicate SameWork(r: Run, job: Job, fingerprint: string) {
    && r.scanner == job.scanner && r.fingerprint == fingerprint
    && r.scope == (if job.application then "app:" else "host:") + job.targetID
    && (r.variant == job.variant || (r.variant in {"", "legacy"} && job.variant in {"", "legacy"}))
  }

  /** Stored run `k` can stand for the job: completed, with no terminal run of the
      same work after it, its artifact intact, and made in the session of the target
      where one is bound and used. */
  ghost predicate StandsFor(existing: seq<Run>, k: nat, job: Job, w: World, fingerprint: string) {
    && k < |existing| && existing[k].status == Completed && SameWork(existing[k], job, fingerprint)
    && (forall j :: k < j < |existing| && SameWork(existing[j], job, fingerprint) ==> existing[j].status == Unfinished)
    && w.checksum && (w.authBound && w.usesWebAuth ==> existing[k].authenticated)
  }

  lemma {:induction false} SameWorkIsKey(r: Run, job: Job, fingerprint: string)
    ensures SameWork(r, job, fingerprint) <==> KeyOfRun(r) == KeyOfJob(job, fingerprint)
  {
  }

  lemma {:induction false} ReusableExactly(existing: seq<Run>, completed: map<RunKey, Run>, job: Job, w: World,
          fingerprint: string)
    requires StoredRuns(existing, |existing|, completed)
    ensures Reusable(job, w, completed, fingerprint) <==>
            exists k: nat :: StandsFor(existing, k, job, w, fingerprint)
    ensures forall k: nat :: StandsFor(existing, k, job, w, fingerprint) ==>
      KeyOfJob(job, fingerprint) in completed && completed[KeyOfJob(job, fingerprint)] == existing[k]
  {
    hide KeyOfRun, KeyOfJob, SameWork;
    forall r: Run
      ensures SameWork(r, job, fingerprint) <==> KeyOfRun(r) == KeyOfJob(job, fingerprint)
    {
      SameWorkIsKey(r, job, fingerprint);
    }
    if Reusable(job, w, completed, fingerprint) {
      var k: nat :| LastOf(existing, |existing|, k) && KeyOfRun(existing[k]) == KeyOfJob(job, fingerprint);
      assert StandsFor(existing, k, job, w, fingerprint);
    }
    forall k: nat | StandsFor(existing, k, job, w, fingerprint)
      ensures KeyOfJob(job, fingerprint) in completed && completed[KeyOfJob(job, fingerprint)] == existing[k]
    {
      assert LastOf(existing, |existing|, k);
    }
  }

  /** The gates of a scanner job, without their order. */
  predicate LetThrough(job: Job, w: World) {
    && job.scanner != "auth" && job.scanner != "katana" && job.state != NotSelected
    && (if job.authContextID != "" then w.identity else w.authBound && w.usesWebAuth ==> w.webAuth)
    && (job.scanner in {"prowler", "scoutsuite"} ==> w.cloud) && (job.scanner in {"vuls", "lynis"} ==> w.ssh)
    && (job.scanner == "openvas" ==> w.gvm || !w.gvmRequested) && (w.repository ==> w.checkout)
    && (job.state == Conditional ==> w.resource) && (w.budgeted ==> w.inTime)
    && w.adapter && w.request && !w.cancelled && w.attempt && w.directory && w.manifest && (w.recorded ==> w.gateway)
  }

  lemma {:induction false} OpenExactly(job: Job, w: World, completed: map<RunKey, Run>, fingerprint: string)
    ensures Open(job, w, completed, fingerprint) <==>
            LetThrough(job, w) && !Reusable(job, w, completed, fingerprint)
  {
    hide Reusable;
  }

  /** Past checkpoints and prerequisites a scanner is run exactly when its gates are
      open and no stored run can stand for the job. */
  lemma {:induction false} CalledExactly(plan: Plan, worlds: seq<World>, existing: seq<Run>,
          completed: map<RunKey, Run>, l: Ledger, i: nat)
    requires StoredRuns(existing, |existing|, completed) && i < |plan.jobs|
    requires Gated(plan, worlds, completed, |plan.jobs|, l)
    ensures i in l.calls <==>
      && !Broken(worlds, i) && Met(plan.jobs, l, i) && LetThrough(plan.jobs[i], worlds[i])
      && !exists k: nat :: StandsFor(existing, k, plan.jobs[i], worlds[i], plan.fingerprint)
  {
    hide Open, StoredRuns, Sticky, Ordered, Honest, Crawling, Increasing, Broken, Met, LetThrough, StandsFor;
    OpenExactly(plan.jobs[i], worlds[i], completed, plan.fingerprint);
    ReusableExactly(existing, completed, plan.jobs[i], worlds[i], plan.fingerprint);
    assert i in l.calls <==> Runs(plan, worlds, completed, l, i);
  }

  /** Exactly these scanner rows are completed: the job got past its gates, its
      checkpoint was stored, and a stored run stands for it, or the scanner was run,
      answered so, was not stopped, and kept its session. */
  lemma {:induction false} TestedExactly(plan: Plan, worlds: seq<World>, existing: seq<Run>,
          completed: map<RunKey, Run>, l: Ledger, i: nat)
    requires StoredRuns(existing, |existing|, completed) && i < |plan.jobs|
    requires Gated(plan, worlds, completed, |plan.jobs|, l)
    requires plan.jobs[i].scanner != "auth" && plan.jobs[i].scanner != "katana"
    ensures var job, w := plan.jobs[i], worlds[i];
            DoneAt(l, i) <==>
              && w.saved && !Broken(worlds, i) && Met(plan.jobs, l, i) && (job.authContextID != "" ==> w.identity)
              && job.state != NotSelected && (job.authContextID == "" && w.authBound && w.usesWebAuth ==> w.webAuth)
              && ((exists k: nat :: StandsFor(existing, k, job, w, plan.fingerprint))
                  || (i in l.calls && w.answer == Completed && !w.stopped && !w.expired
                      && (job.scanner == "nuclei" && w.headers && w.usesWebAuth ==> w.stillAuthenticated)))
  {
    hide StoredRuns, Sticky, Ordered, Called, Reusable, Broken, Met, DoneAt, StandsFor, MemoryAt;
    ReusableExactly(existing, completed, plan.jobs[i], worlds[i], plan.fingerprint);
    assert DoneAt(l, i) <==> worlds[i].saved && EarnedAt(plan, worlds, completed, l, i);
  }

  /** Exactly these scanner rows count as made in a session: a stored one that was, or a
      run that used it, completed and kept it. */
  lemma {:induction false} TestSessionExactly(plan: Plan, worlds: seq<World>, existing: seq<Run>,
          completed: map<RunKey, Run>, l: Ledger, i: nat)
    requires StoredRuns(existing, |existing|, completed) && i < |plan.jobs|
    requires Gated(plan, worlds, completed, |plan.jobs|, l)
    requires plan.jobs[i].scanner != "auth" && plan.jobs[i].scanner != "katana"
    ensures var job, w := plan.jobs[i], worlds[i];
            SessionAt(l, i) <==>
              && !Broken(worlds, i) && Met(plan.jobs, l, i) && (job.authContextID != "" ==> w.identity)
              && job.state != NotSelected && (job.authContextID == "" && w.authBound && w.usesWebAuth ==> w.webAuth)
              && ((exists k: nat :: StandsFor(existing, k, job, w, plan.fingerprint) && existing[k].authenticated)
                  || (i in l.calls && w.headers && w.usesWebAuth && w.answer == Completed && !w.stopped && !w.expired
                      && (job.scanner == "nuclei" ==> w.stillAuthenticated)))
  {
    hide StoredRuns, Sticky, Ordered, Broken, Met, StandsFor, MemoryAt, SessionAt, Reusable, KeyOfJob, Runs;
    ReusableExactly(existing, completed, plan.jobs[i], worlds[i], plan.fingerprint);
    OpenExactly(plan.jobs[i], worlds[i], completed, plan.fingerprint);
    CalledIsOpen(plan, worlds, completed, l, i);
    assert SessionAt(l, i) <==> AuthenticatedAt(plan, worlds, completed, l, i);
  }

  lemma {:induction false} CalledIsOpen(plan: Plan, worlds: seq<World>, completed: map<RunKey, Run>, l: Ledger, i: nat)
    requires i < |plan.jobs| && Gated(plan, worlds, completed, |plan.jobs|, l)
    ensures i in l.calls ==> Open(plan.jobs[i], worlds[i], completed, plan.fingerprint)
  {
    hide Sticky, Ordered, Honest, Crawling, Increasing, Broken, Met, Open;
    assert i in l.calls <==> Runs(plan, worlds, completed, l, i);
  }

  /** And these others: never a login, and a selected crawl job if the last crawl left
      so far was made in a session. */
  lemma {:induction false} SessionExactly(plan: Plan, worlds: seq<World>, completed: map<RunKey, Run>, l: Ledger,
          i: nat)
    requires i < |plan.jobs| && Gated(plan, worlds, completed, |plan.jobs|, l)
    ensures plan.jobs[i].scanner == "auth" ==> !SessionAt(l, i)
    ensures plan.jobs[i].scanner == "katana" ==>
      (SessionAt(l, i) <==>
        && !Broken(worlds, i) && Met(plan.jobs, l, i) && (plan.jobs[i].authContextID != "" ==> worlds[i].identity)
        && plan.jobs[i].state == Selected
        && exists j: nat ::
             LastCrawl(plan, worlds, l, i + 1, plan.jobs[i].targetID, j) && CrawlInSession(worlds[j]))
  {
    hide Sticky, Ordered, Called, Broken, Met, MemoryAt, LastCrawl, CrawlOf, CrawlInSession, SessionAt, Explicit;
    if plan.jobs[i].scanner == "katana" {
      CrawlJobExplicit(plan, i);
      CrawlsRemembered(plan, worlds, l, i + 1, plan.jobs[i].targetID);
      forall j: nat | LastCrawl(plan, worlds, l, i + 1, plan.jobs[i].targetID, j)
        ensures j < |worlds| && (CrawlOf(worlds[j]).value.authenticated <==> CrawlInSession(worlds[j]))
      {
        LastCrawlIsWhole(plan, worlds, l, i + 1, plan.jobs[i].targetID, j);
      }
    }
    assert SessionAt(l, i) <==> AuthenticatedAt(plan, worlds, completed, l, i);
  }

  // ----- sessions and crawls -----------------------------------------------

  /** Turn `j` verified the session of its target: a login, a visit that found it
      alive, or a test that was going to use it. */
  ghost predicate VerifiedIn(plan: Plan, worlds: seq<World>, l: Ledger, j: nat)
    requires j < |plan.jobs| == |worlds|
  {
    var job, w := plan.jobs[j], worlds[j];
    && Opened(plan, worlds, l, j)
    && (if job.scanner == "auth" then job.authContextID == "" && w.authRefresh
        else if VisitsAt(plan, worlds, l, j) then w.authBound && w.surfaceAuth
        else
          && job.scanner != "katana" && job.state != NotSelected && job.authContextID == ""
          && w.authBound && w.usesWebAuth && w.webAuth)
  }

  /** Turn `j` lost it: a visit that found it dead, a crawl or a scan that outlived
      it. */
  ghost predicate LostIn(plan: Plan, worlds: seq<World>, l: Ledger, j: nat)
    requires j < |plan.jobs| == |worlds|
  {
    var job, w := plan.jobs[j], worlds[j];
    && Opened(plan, worlds, l, j)
    && ((VisitsAt(plan, worlds, l, j) && w.authBound
         && (!w.surfaceAuth || (!w.inventory && w.crawler && !w.crawlStopped && w.crawl.status == Completed && w.headers
                                && !w.crawlKept)))
        || (j in l.calls && job.scanner == "nuclei" && w.headers && w.usesWebAuth && !w.stillAuthenticated
            && w.answer == Completed && !w.stopped && !w.expired))
  }

  /** The session of the target was verified in one of the first `n` turns and not lost
      in that turn or after it. */
  ghost predicate Alive(plan: Plan, worlds: seq<World>, l: Ledger, n: nat, target: string)
    requires n <= |plan.jobs| == |worlds|
  {
    exists j: nat :: AliveSince(plan, worlds, l, n, target, j)
  }

  ghost predicate AliveSince(plan: Plan, worlds: seq<World>, l: Ledger, n: nat, target: string, j: nat)
    requires n <= |plan.jobs| == |worlds|
  {
    && j < n && plan.jobs[j].targetID == target && VerifiedIn(plan, worlds, l, j)
    && forall k: nat :: j <= k < n && plan.jobs[k].targetID == target ==> !LostIn(plan, worlds, l, k)
  }

  lemma {:induction false} SessionTurn(plan: Plan, worlds: seq<World>, l: Ledger, n: nat, target: string)
    requires n < |plan.jobs| == |worlds|
    ensures target in MemoryAt(plan, worlds, l, n + 1).verified <==>
      (target in MemoryAt(plan, worlds, l, n).verified
         || (plan.jobs[n].targetID == target && VerifiedIn(plan, worlds, l, n)))
      && !(plan.jobs[n].targetID == target && LostIn(plan, worlds, l, n))
  {
    hide Opened, CrawlsTaken;
  }

  lemma {:induction false} SessionsAlive(plan: Plan, worlds: seq<World>, l: Ledger, n: nat, target: string)
    requires n <= |plan.jobs| == |worlds|
    ensures target in MemoryAt(plan, worlds, l, n).verified <==> Alive(plan, worlds, l, n, target)
  {
    hide VerifiedIn, LostIn;
    if n > 0 {
      SessionsAlive(plan, worlds, l, n - 1, target);
      SessionTurn(plan, worlds, l, n - 1, target);
      AliveTurn(plan, worlds, l, n - 1, target);
    }
    hide MemoryAt;
  }

  lemma {:induction false} AliveTurn(plan: Plan, worlds: seq<World>, l: Ledger, n: nat, target: string)
    requires n < |plan.jobs| == |worlds|
    ensures Alive(plan, worlds, l, n + 1, target) <==>
      (Alive(plan, worlds, l, n, target) || (plan.jobs[n].targetID == target && VerifiedIn(plan, worlds, l, n)))
      && !(plan.jobs[n].targetID == target && LostIn(plan, worlds, l, n))
  {
    hide VerifiedIn, LostIn;
    if j: nat :| AliveSince(plan, worlds, l, n, target, j) {
      assert !(plan.jobs[n].targetID == target && LostIn(plan, worlds, l, n)) ==>
          AliveSince(plan, worlds, l, n + 1, target, j);
    }
    var next := n + 1;
    if Alive(plan, worlds, l, next, target) {
      var j: nat :| AliveSince(plan, worlds, l, next, target, j);
      assert j < n ==> AliveSince(plan, worlds, l, n, target, j);
    }
    assert plan.jobs[n].targetID == target && VerifiedIn(plan, worlds, l, n) && !LostIn(plan, worlds, l, n) ==>
        AliveSince(plan, worlds, l, n + 1, target, n);
  }

  /** A login is completed exactly for a refreshed identity or a session that was
      verified and not lost since. */
  lemma {:induction false} LoginExactly(plan: Plan, worlds: seq<World>, completed: map<RunKey, Run>, l: Ledger, i: nat)
    requires i < |plan.jobs| && Gated(plan, worlds, completed, |plan.jobs|, l) && plan.jobs[i].scanner == "auth"
    ensures var job, w := plan.jobs[i], worlds[i];
            DoneAt(l, i) <==>
              && w.saved && !Broken(worlds, i) && Met(plan.jobs, l, i)
              && if job.authContextID != "" then w.identity else Alive(plan, worlds, l, i + 1, job.targetID)
  {
    hide Sticky, Ordered, Called, Broken, Met, DoneAt, MemoryAt, Alive;
    SessionsAlive(plan, worlds, l, i + 1, plan.jobs[i].targetID);
    assert DoneAt(l, i) <==> worlds[i].saved && EarnedAt(plan, worlds, completed, l, i);
  }

  /** Turn `j` left this crawl of the target, and no turn of the first `n` after it
      left another one. */
  ghost predicate LastCrawl(plan: Plan, worlds: seq<World>, l: Ledger, n: nat, target: string, j: nat)
    requires n <= |plan.jobs| == |worlds|
  {
    && j < n && CrawlIn(plan, worlds, l, target, j)
    && forall k: nat :: j < k < n ==> !CrawlIn(plan, worlds, l, target, k)
  }

  /** Turn `j` visited the target and crawled it, or found the crawl of an earlier
      call that its inventory comes from. */
  ghost predicate CrawlIn(plan: Plan, worlds: seq<World>, l: Ledger, target: string, j: nat)
    requires j < |plan.jobs| == |worlds|
  {
    var w := worlds[j];
    && plan.jobs[j].targetID == target && VisitsAt(plan, worlds, l, j)
    && (if w.inventory then w.earlier.Some? else w.crawler && (w.authBound ==> w.surfaceAuth))
  }

  lemma {:induction false} CrawlsRemembered(plan: Plan, worlds: seq<World>, l: Ledger, n: nat, target: string)
    requires n <= |plan.jobs| == |worlds| && Explicit(plan, target)
    ensures target in MemoryAt(plan, worlds, l, n).crawled <==>
            exists j: nat :: LastCrawl(plan, worlds, l, n, target, j)
    ensures forall j: nat :: LastCrawl(plan, worlds, l, n, target, j) ==>
      target in MemoryAt(plan, worlds, l, n).crawled
      && CrawlOf(worlds[j]) == Some(MemoryAt(plan, worlds, l, n).crawled[target])
  {
    if n > 0 {
      hide *;
      CrawlsRemembered(plan, worlds, l, n - 1, target);
      CrawlTurn(plan, worlds, l, n - 1, n, target);
      LastCrawlTurn(plan, worlds, l, n - 1, n, target);
      if CrawlIn(plan, worlds, l, target, n - 1) {
        assert LastCrawl(plan, worlds, l, n, target, n - 1);
      } else {
        assert forall j: nat ::
          LastCrawl(plan, worlds, l, n, target, j) <==> LastCrawl(plan, worlds, l, n - 1, target, j);
      }
    } else {
      hide Opened, Explicit, CrawlOf, CrawlIn;
    }
  }

  lemma {:induction false} CrawlTurn(plan: Plan, worlds: seq<World>, l: Ledger, n: nat, next: nat, target: string)
    requires n + 1 == next <= |plan.jobs| == |worlds| && Explicit(plan, target)
    ensures var before, after := MemoryAt(plan, worlds, l, n).crawled, MemoryAt(plan, worlds, l, next).crawled;
            if CrawlIn(plan, worlds, l, target, n) then
              target in after && CrawlOf(worlds[n]) == Some(after[target])
            else (target in after <==> target in before) && (target in after ==> after[target] == before[target])
  {
    hide Opened, SessionsVisited, SessionsOwn, SessionsScanned, Crawled, Visits;
    var before := MemoryAt(plan, worlds, l, n);
    assert MemoryAt(plan, worlds, l, next).crawled ==
      if VisitsAt(plan, worlds, l, n) then CrawlsTaken(plan, plan.jobs[n].targetID, worlds[n], before.crawled)
      else before.crawled;
  }

  lemma {:induction false} LastCrawlTurn(plan: Plan, worlds: seq<World>, l: Ledger, n: nat, next: nat, target: string)
    requires n + 1 == next <= |plan.jobs| == |worlds|
    ensures forall j: nat :: LastCrawl(plan, worlds, l, next, target, j) <==>
      if CrawlIn(plan, worlds, l, target, n) then j == n else LastCrawl(plan, worlds, l, n, target, j)
  {
    hide CrawlIn;
    forall j: nat
      ensures LastCrawl(plan, worlds, l, next, target, j) <==>
        if CrawlIn(plan, worlds, l, target, n) then j == n else LastCrawl(plan, worlds, l, n, target, j)
    {
      if LastCrawl(plan, worlds, l, next, target, j) {
        assert j < n ==> !CrawlIn(plan, worlds, l, target, n);
      }
    }
  }

  /** The crawl is whole: an earlier one that completed, or a new one that answered so,
      was not stopped, and kept its session. */
  predicate WholeCrawl(w: World) {
    if w.inventory then w.earlier.Some? && w.earlier.value.status == Completed
    else
      && w.crawl.status == Completed && !w.crawlStopped
      && (w.authBound && w.headers ==> w.crawlKept)
  }

  /** The crawl was made in a verified session: an earlier one that was, or a new one
      that used it, completed and kept it. */
  predicate CrawlInSession(w: World) {
    if w.inventory then w.earlier.Some? && w.earlier.value.authenticated
    else w.authBound && w.headers && w.crawl.status == Completed && !w.crawlStopped && w.crawlKept
  }

  lemma {:induction false} CrawlJobExplicit(plan: Plan, i: nat)
    requires i < |plan.jobs| && plan.jobs[i].scanner == "katana"
    ensures Explicit(plan, plan.jobs[i].targetID)
  {
  }

  lemma {:induction false} LastCrawlIsWhole(plan: Plan, worlds: seq<World>, l: Ledger, n: nat, target: string, j: nat)
    requires n <= |plan.jobs| == |worlds| && LastCrawl(plan, worlds, l, n, target, j)
    ensures j < n && CrawlOf(worlds[j]).Some?
    ensures CrawlOf(worlds[j]).value.status == Completed <==> WholeCrawl(worlds[j])
    ensures CrawlOf(worlds[j]).value.authenticated <==> CrawlInSession(worlds[j])
  {
    hide VisitsAt;
  }

  /** A crawl job is completed exactly when it is selected and the last crawl of its
      target that was left so far is completed, not stopped, and kept its session. */
  lemma {:induction false} CrawledExactly(plan: Plan, worlds: seq<World>, completed: map<RunKey, Run>, l: Ledger,
          i: nat)
    requires i < |plan.jobs| && Gated(plan, worlds, completed, |plan.jobs|, l) && plan.jobs[i].scanner == "katana"
    ensures var job, w := plan.jobs[i], worlds[i];
            DoneAt(l, i) <==>
              && w.saved && !Broken(worlds, i) && Met(plan.jobs, l, i) && (job.authContextID != "" ==> w.identity)
              && job.state == Selected
              && exists j: nat :: LastCrawl(plan, worlds, l, i + 1, job.targetID, j) && WholeCrawl(worlds[j])
  {
    hide Sticky, Ordered, Called, Broken, Met, DoneAt, MemoryAt, LastCrawl, CrawlOf, WholeCrawl, Explicit;
    CrawlJobExplicit(plan, i);
    CrawlsRemembered(plan, worlds, l, i + 1, plan.jobs[i].targetID);
    forall j: nat | LastCrawl(plan, worlds, l, i + 1, plan.jobs[i].targetID, j)
      ensures j < |worlds| && (CrawlOf(worlds[j]).value.status == Completed <==> WholeCrawl(worlds[j]))
    {
      LastCrawlIsWhole(plan, worlds, l, i + 1, plan.jobs[i].targetID, j);
    }
    assert DoneAt(l, i) <==> worlds[i].saved && EarnedAt(plan, worlds, completed, l, i);
  }

  lemma {:induction false} PreparedGrows(plan: Plan, worlds: seq<World>, l: Ledger, i: nat, n: nat)
    requires i <= n <= |plan.jobs| == |worlds|
    ensures MemoryAt(plan, worlds, l, i).prepared <= MemoryAt(plan, worlds, l, n).prepared
  {
    hide Opened, Prepares, Visits, SessionsVisited, SessionsOwn, SessionsScanned, CrawlsTaken;
    if i < n {
      PreparedGrows(plan, worlds, l, i, n - 1);
    }
  }

  /** A test prepares a surface only if no turn before it did: of two visits of one
      target the later is that of a crawl job. */
  lemma {:induction false} VisitedOnce(plan: Plan, worlds: seq<World>, completed: map<RunKey, Run>, l: Ledger, i: nat,
          k: nat)
    requires Gated(plan, worlds, completed, |plan.jobs|, l) && i < k < |plan.jobs| && i in l.visits && k in l.visits
    requires plan.jobs[i].targetID == plan.jobs[k].targetID
    ensures plan.jobs[k].scanner == "katana"
  {
    hide Sticky, Ordered, Called, DoneAt, SessionAt, Opened;
    assert VisitsAt(plan, worlds, l, i) && VisitsAt(plan, worlds, l, k);
    PreparedGrows(plan, worlds, l, i + 1, k);
    assert plan.jobs[i].targetID in MemoryAt(plan, worlds, l, i + 1).prepared;
  }

  /** The rows are those of the jobs, field by field. */
  lemma {:induction false} RowOf(plan: Plan, l: Ledger, i: nat)
    requires i < |plan.jobs| && Rows(plan, |plan.jobs|, l)
    ensures var r, job := l.results[l.at[i]], plan.jobs[i];
            && SameWork(r, job, plan.fingerprint) && r.stage == Some(job.stage) && r.authContextID == job.authContextID
    ensures forall j :: 0 <= j < i ==> l.at[j] < l.at[i]
  {
    SameWorkIsKey(l.results[l.at[i]], plan.jobs[i], plan.fingerprint);
  }

  /** A crawl is a row of its own exactly when no crawl job of the plan takes it over. */
  lemma {:induction false} CrawlRows(plan: Plan, target: string, w: World)
    requires CrawlOf(w).Some?
    ensures Found(plan, target, w) ==
      (if exists k :: 0 <= k < |plan.jobs| && plan.jobs[k].scanner == "katana" && plan.jobs[k].targetID == target
       then [] else [CrawlOf(w).value]) + w.discovered
  {
    hide CrawlOf;
  }
}

