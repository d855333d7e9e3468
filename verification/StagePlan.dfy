/** The workflow ladder of internal/scanner/descriptor.go and the prerequisites
    that assignStages of internal/scanner/planner.go derives from it. */
module StagePlans {
  import opened NormalForms
  import opened RowOrders
  import opened JobLoops

  function Rank(s: Stage): nat {
    match s
    case Scope => 0
    case Discovery => 1
    case Dns => 2
    case Reachability => 3
    case Auth => 4
    case Crawl => 5
    case Inventory => 6
    case Passive => 7
    case Templates => 8
    case Tls => 9
    case Dast => 10
    case Validation => 11
    case WriteValidation => 12
    case Results => 13
  }

  function Prerequisites(s: Stage): (r: seq<Stage>)
    ensures forall p :: p in r ==> Rank(p) < Rank(s)
  {
    match s
    case Scope => []
    case Discovery => [Scope]
    case Dns => [Discovery]
    case Reachability => [Dns]
    case Auth => [Reachability]
    case Crawl => [Auth]
    case Inventory => [Crawl]
    case Passive => [Inventory]
    case Templates => [Inventory]
    case Tls => [Reachability]
    case Dast => [Inventory]
    case Validation => [Inventory]
    case WriteValidation => [Validation]
    case Results => [Passive, Templates, Tls, Dast, Validation, WriteValidation]
  }

  function StageForScanner(id: string): Stage {
    if id == "subfinder" || id == "amass" then Discovery
    else if id == "dnsx" then Dns
    else if id == "httpx" || id == "nmap" || id == "masscan" then Reachability
    else if id == "auth" then Auth
    else if id == "katana" || id == "gau" || id == "waybackurls" then Crawl
    else if id == "nuclei" || id == "nikto" then Templates
    else if id == "testssl" || id == "sslyze" then Tls
    else if id == "dalfox" || id == "apichecks" then Validation
    else if id == "apiwrites" || id == "nextjs-actions" || id == "nextjs-boundaries" then WriteValidation
    else if id == "nextjs-assets" then Passive
    else Dast
  }

  function StageOf(job: Job): Stage {
    if job.fuzz then WriteValidation else StageForScanner(job.scanner)
  }

  /** The workflow a job belongs to: one target under one identity. */
  predicate SameWorkflow(a: Job, b: Job) {
    a.targetID == b.targetID && a.authContextID == b.authContextID
  }

  predicate On(job: Job, a: Job, s: Stage, web: set<string>) {
    a.scanner in web && SameWorkflow(a, job) && StageOf(a) == s
  }

  /** The IDs of the workflow jobs of one stage, in the order of the jobs. */
  function Members(jobs: seq<Job>, job: Job, s: Stage, web: set<string>): (r: seq<string>)
    ensures forall d :: d in r <==> exists k :: 0 <= k < |jobs| && On(job, jobs[k], s, web) && jobs[k].id == d
  {
    if jobs == [] then []
    else
      var n := |jobs| - 1;
      var front := Members(jobs[..n], job, s, web);
      assert forall k :: 0 <= k < n ==> jobs[..n][k] == jobs[k];
      if On(job, jobs[n], s, web) then front + [jobs[n].id] else front
  }

  // ----- what the prerequisites are ----------------------------------------

  /** The jobs on the nearest stages below that have any. */
  ghost predicate Nearest(jobs: seq<Job>, job: Job, s: Stage, web: set<string>, d: string)
    decreases Rank(s), 0
  {
    exists p :: p in Prerequisites(s) && Stands(jobs, job, p, web, d)
  }

  /** What stage `p` stands for: its jobs, or what stands in for it. */
  ghost predicate Stands(jobs: seq<Job>, job: Job, p: Stage, web: set<string>, d: string)
    decreases Rank(p), 1
  {
    if Members(jobs, job, p, web) != [] then d in Members(jobs, job, p, web) else Nearest(jobs, job, p, web, d)
  }

  // ----- the search --------------------------------------------------------

  ghost predicate Covered(jobs: seq<Job>, job: Job, web: set<string>, deps: seq<string>, p: Stage) {
    forall d :: Stands(jobs, job, p, web, d) ==> d in deps
  }

  /** `visit`: a depth-first search with one set of visited stages. */
  method Visit(jobs: seq<Job>, job: Job, web: set<string>, s: Stage, visited: set<Stage>, deps: seq<string>)
    returns (visited': set<Stage>, deps': seq<string>)
    requires forall v :: v in visited && Rank(v) < Rank(s) ==> Covered(jobs, job, web, deps, v)
    ensures visited <= visited' && forall v :: v in visited' - visited ==> Rank(v) < Rank(s)
    ensures forall v :: v in visited' && Rank(v) < Rank(s) ==> Covered(jobs, job, web, deps', v)
    ensures forall d :: d in deps' ==> d in deps || Nearest(jobs, job, s, web, d)
    ensures forall d :: d in deps || Nearest(jobs, job, s, web, d) ==> d in deps'
    decreases Rank(s)
  {
    hide Members, Stands, Nearest, Rank, Prerequisites, Covered;
    visited', deps' := visited, deps;
    var below := Prerequisites(s);
    for i := 0 to |below|
      invariant visited <= visited' && forall v :: v in visited' - visited ==> Rank(v) < Rank(s)
      invariant forall v :: v in visited' && Rank(v) < Rank(s) ==> Covered(jobs, job, web, deps', v)
      invariant forall d :: d in deps' ==> d in deps || Nearest(jobs, job, s, web, d)
      invariant forall d :: d in deps ==> d in deps'
      invariant forall k :: 0 <= k < i ==> below[k] in visited'
    {
      var p := below[i];
      if p !in visited' {
        ghost var before := deps';
        visited' := visited' + {p};
        var ids := Members(jobs, job, p, web);
        StandsFor(jobs, job, p, web);
        if ids != [] {
          deps' := deps' + ids;
        } else {
          visited', deps' := Visit(jobs, job, web, p, visited', deps');
        }
        CoveredMore(jobs, job, web, before, deps', p);
        NearestIntro(jobs, job, s, p, web);
      }
    }
    NearestCovered(jobs, job, s, web, deps', visited');
  }

  lemma {:induction false} StandsFor(jobs: seq<Job>, job: Job, p: Stage, web: set<string>)
    ensures forall d :: Stands(jobs, job, p, web, d) <==>
      if Members(jobs, job, p, web) != [] then d in Members(jobs, job, p, web) else Nearest(jobs, job, p, web, d)
  {
    hide Members, Nearest;
  }

  lemma {:induction false} CoveredMore(jobs: seq<Job>, job: Job, web: set<string>, deps: seq<string>,
          deps': seq<string>, p: Stage)
    requires forall d :: d in deps ==> d in deps'
    requires forall d :: Stands(jobs, job, p, web, d) ==> d in deps'
    ensures Covered(jobs, job, web, deps', p)
    ensures forall v :: Covered(jobs, job, web, deps, v) ==> Covered(jobs, job, web, deps', v)
  {
    hide Stands;
  }

  lemma {:induction false} NearestIntro(jobs: seq<Job>, job: Job, s: Stage, p: Stage, web: set<string>)
    requires p in Prerequisites(s)
    ensures forall d :: Stands(jobs, job, p, web, d) ==> Nearest(jobs, job, s, web, d)
  {
    hide Stands, Prerequisites;
  }

  lemma {:induction false} NearestCovered(jobs: seq<Job>, job: Job, s: Stage, web: set<string>, deps: seq<string>,
          visited: set<Stage>)
    requires forall p :: p in Prerequisites(s) ==> p in visited
    requires forall v :: v in visited && Rank(v) < Rank(s) ==> Covered(jobs, job, web, deps, v)
    ensures forall d :: Nearest(jobs, job, s, web, d) ==> d in deps
  {
    hide Stands, Prerequisites, Rank;
    forall d | Nearest(jobs, job, s, web, d)
      ensures d in deps
    {
      var p :| p in Prerequisites(s) && Stands(jobs, job, p, web, d);
      assert Covered(jobs, job, web, deps, p);
    }
  }

  // ----- the prerequisites of every job ------------------------------------

  /** The prerequisites of a job: for a workflow job its nearest stages, sorted
      and without repeats; for any other none. */
  ghost predicate Assigned(jobs: seq<Job>, job: Job, deps: seq<string>, web: set<string>) {
    && (forall d :: d in deps <==> job.scanner in web && Nearest(jobs, job, StageOf(job), web, d))
    && (forall i, j :: 0 <= i < j < |deps| ==> StrLe(deps[i], deps[j]) && deps[i] != deps[j])
  }

  method DependenciesOf(jobs: seq<Job>, job: Job, web: set<string>) returns (deps: seq<string>)
    ensures Assigned(jobs, job, deps, web)
  {
    if job.scanner !in web {
      return [];
    }
    hide Nearest, Stands, Covered;
    StrOrder();
    var _, found := Visit(jobs, job, web, StageOf(job), {}, []);
    deps := SortDedupe(found, StrLe, StrSame);
    forall d | d in found
      ensures d in deps
    {
      assert Represented(d, deps, StrSame);
    }
  }

  /** assignStages, in place. */
  method AssignStages(jobs: array<Job>, web: set<string>)
    modifies jobs
    ensures forall i :: 0 <= i < jobs.Length ==>
        jobs[i] == old(jobs[i]).(stage := StageOf(old(jobs[i])), dependencies := jobs[i].dependencies)
    ensures forall i :: 0 <= i < jobs.Length ==> Assigned(old(jobs[..]), old(jobs[i]), jobs[i].dependencies, web)
  {
    hide Assigned, StageOf;
    ghost var before := jobs[..];
    var all := jobs[..];
    for i := 0 to jobs.Length
      invariant forall k :: i <= k < jobs.Length ==> jobs[k] == before[k]
      invariant forall k :: 0 <= k < i ==>
          jobs[k] == before[k].(stage := StageOf(before[k]), dependencies := jobs[k].dependencies)
      invariant forall k :: 0 <= k < i ==> Assigned(before, before[k], jobs[k].dependencies, web)
    {
      var deps := DependenciesOf(all, jobs[i], web);
      jobs[i] := jobs[i].(stage := StageOf(jobs[i]), dependencies := deps);
    }
  }

  /** A plan whose jobs went through AssignStages. */
  ghost predicate AllAssigned(jobs: seq<Job>, web: set<string>) {
    forall i :: 0 <= i < |jobs| ==>
      jobs[i].stage == StageOf(jobs[i]) && Assigned(jobs, jobs[i], jobs[i].dependencies, web)
  }

  ghost predicate Alike(a: seq<Job>, b: seq<Job>) {
    |a| == |b| && forall i :: 0 <= i < |a| ==> b[i] == a[i].(stage := b[i].stage, dependencies := b[i].dependencies)
  }

  lemma {:induction false} MembersAlike(a: seq<Job>, b: seq<Job>, job: Job, job': Job, s: Stage, web: set<string>)
    requires Alike(a, b) && SameWorkflow(job, job')
    ensures Members(a, job, s, web) == Members(b, job', s, web)
  {
    if a != [] {
      var n := |a| - 1;
      MembersAlike(a[..n], b[..n], job, job', s, web);
    }
  }

  lemma {:induction false} NearestAlike(a: seq<Job>, b: seq<Job>, job: Job, job': Job, s: Stage, web: set<string>,
          d: string)
    requires Alike(a, b) && SameWorkflow(job, job')
    ensures Nearest(a, job, s, web, d) <==> Nearest(b, job', s, web, d)
    decreases Rank(s)
  {
    hide Members, Alike, Prerequisites, Rank;
    forall p | p in Prerequisites(s)
      ensures Stands(a, job, p, web, d) <==> Stands(b, job', p, web, d)
    {
      MembersAlike(a, b, job, job', p, web);
      NearestAlike(a, b, job, job', p, web, d);
    }
  }

  /** The jobs as they are afterwards satisfy their own prerequisites. */
  lemma {:induction false} AssignedAfter(before: seq<Job>, after: seq<Job>, web: set<string>)
    requires Alike(before, after)
    requires forall i :: 0 <= i < |after| ==>
        after[i].stage == StageOf(before[i]) && Assigned(before, before[i], after[i].dependencies, web)
    ensures AllAssigned(after, web)
  {
    forall i | 0 <= i < |after|
      ensures after[i].stage == StageOf(after[i]) && Assigned(after, after[i], after[i].dependencies, web)
    {
      assert StageOf(after[i]) == StageOf(before[i]) && SameWorkflow(before[i], after[i]);
      hide Nearest, StageOf;
      forall d
        ensures Nearest(before, before[i], StageOf(before[i]), web, d) <==>
            Nearest(after, after[i], StageOf(before[i]), web, d)
      {
        NearestAlike(before, after, before[i], after[i], StageOf(before[i]), web, d);
      }
    }
  }

  // ----- prerequisites reach every stage below -----------------------------

  /** Stage `a` is consumed by `s`, directly or through the ladder. */
  predicate Ancestor(s: Stage, a: Stage)
    decreases Rank(s)
  {
    exists p :: p in Prerequisites(s) && (p == a || Ancestor(p, a))
  }

  /** From the prerequisites of a stage a chain of prerequisites leads to every
      workflow job on every ancestor stage, empty stages in between or not. */
  lemma {:induction false} ChainTo(jobs: seq<Job>, web: set<string>, job: Job, s: Stage, a: Stage, k: nat)
    returns (path: seq<nat>)
    requires AllAssigned(jobs, web) && Ancestor(s, a) && k < |jobs| && On(job, jobs[k], a, web)
    ensures Upstream(jobs, path) && path[|path| - 1] == k && Nearest(jobs, job, s, web, jobs[path[0]].id)
    decreases Rank(s)
  {
    var p :| p in Prerequisites(s) && (p == a || Ancestor(p, a));
    hide Prerequisites, Rank, Ancestor, StageOf, AllAssigned, Members, Upstream, On;
    var members := Members(jobs, job, p, web);
    if p == a {
      assert jobs[k].id in members;
      path := JustOne(jobs, k);
      assert Stands(jobs, job, p, web, jobs[k].id);
    } else if members == [] {
      path := ChainTo(jobs, web, job, p, a, k);
      assert Stands(jobs, job, p, web, jobs[path[0]].id);
    } else {
      var m := MemberAt(jobs, job, p, web, jobs[k], a);
      var rest := ChainTo(jobs, web, jobs[m], p, a, k);
      assert Stands(jobs, job, p, web, jobs[m].id);
      NearestIsDependency(jobs, web, m, jobs[rest[0]].id);
      path := Prepend(jobs, m, rest);
    }
  }

  lemma {:induction false} JustOne(jobs: seq<Job>, k: nat) returns (path: seq<nat>)
    requires k < |jobs|
    ensures path == [k] && Upstream(jobs, path)
  {
    path := [k];
  }

  /** Some job of a stage that has any; it shares the workflow. */
  lemma {:induction false} MemberAt(jobs: seq<Job>, job: Job, p: Stage, web: set<string>, other: Job, a: Stage)
    returns (m: nat)
    requires Members(jobs, job, p, web) != [] && On(job, other, a, web)
    ensures m < |jobs| && jobs[m].scanner in web && StageOf(jobs[m]) == p && On(jobs[m], other, a, web)
    ensures jobs[m].id in Members(jobs, job, p, web)
  {
    hide StageOf;
    var d := Members(jobs, job, p, web)[0];
    assert d in Members(jobs, job, p, web);
    m :| m < |jobs| && On(job, jobs[m], p, web) && jobs[m].id == d;
  }

  lemma {:induction false} NearestIsDependency(jobs: seq<Job>, web: set<string>, m: nat, d: string)
    requires AllAssigned(jobs, web) && m < |jobs| && jobs[m].scanner in web
    ensures d in jobs[m].dependencies <==> Nearest(jobs, jobs[m], StageOf(jobs[m]), web, d)
  {
    hide Nearest, StageOf;
  }

  lemma {:induction false} Prepend(jobs: seq<Job>, m: nat, rest: seq<nat>) returns (path: seq<nat>)
    requires m < |jobs| && Upstream(jobs, rest) && jobs[rest[0]].id in jobs[m].dependencies
    ensures path == [m] + rest && Upstream(jobs, path)
  {
    path := [m] + rest;
    forall k | 0 <= k < |path| - 1
      ensures jobs[path[k + 1]].id in jobs[path[k]].dependencies
    {
      assert k > 0 ==> path[k] == rest[k - 1] && path[k + 1] == rest[k];
    }
  }

  /** The plan and the loop together: when a workflow job reaches its target, every
      job of its workflow on every ancestor stage has ended completed. */
  lemma {:induction false} StagesInOrder(plan: Plan, worlds: seq<World>, completed: map<RunKey, JobLoops.Run>,
          l: Ledger, web: set<string>, i: nat, a: Stage, k: nat)
    requires AllAssigned(plan.jobs, web) && UniqueIDs(plan.jobs)
    requires Rows(plan, |plan.jobs|, l) && Gated(plan, worlds, completed, |plan.jobs|, l)
    requires i < |plan.jobs| && plan.jobs[i].scanner in web && (Reached(l, i) || DoneAt(l, i))
    requires Ancestor(plan.jobs[i].stage, a) && k < |plan.jobs| && On(plan.jobs[i], plan.jobs[k], a, web)
    ensures k < i && DoneAt(l, k)
  {
    hide StageOf, Ancestor, Rows, Gated, Nearest;
    assert plan.jobs[i].stage == StageOf(plan.jobs[i]);
    var rest := ChainTo(plan.jobs, web, plan.jobs[i], plan.jobs[i].stage, a, k);
    NearestIsDependency(plan.jobs, web, i, plan.jobs[rest[0]].id);
    var path := Prepend(plan.jobs, i, rest);
    UpstreamCompleted(plan, worlds, completed, l, path, [], true);
  }

  /** Prerequisites lie on strictly earlier stages. */
  lemma {:induction false} NearestIsEarlier(jobs: seq<Job>, job: Job, s: Stage, web: set<string>, d: string)
    returns (k: nat)
    requires Nearest(jobs, job, s, web, d)
    ensures k < |jobs| && jobs[k].id == d && Rank(StageOf(jobs[k])) < Rank(s) && jobs[k].scanner in web
        && SameWorkflow(jobs[k], job)
    decreases Rank(s)
  {
    var p :| p in Prerequisites(s) && Stands(jobs, job, p, web, d);
    hide StageOf, Prerequisites;
    if Members(jobs, job, p, web) != [] {
      k :| k < |jobs| && On(job, jobs[k], p, web) && jobs[k].id == d;
    } else {
      k := NearestIsEarlier(jobs, job, p, web, d);
    }
  }

  /** So ordering by stage is a topological order: in a plan sorted by stage every
      prerequisite names an earlier job. */
  lemma {:induction false} StageOrderIsTopological(jobs: seq<Job>, web: set<string>, i: nat, d: string)
    requires AllAssigned(jobs, web) && i < |jobs| && d in jobs[i].dependencies
    requires forall x, y :: 0 <= x < y < |jobs| ==> Rank(jobs[x].stage) <= Rank(jobs[y].stage)
    ensures exists k :: 0 <= k < i && jobs[k].id == d && jobs[k].scanner in web && SameWorkflow(jobs[k], jobs[i])
  {
    var k := NearestIsEarlier(jobs, jobs[i], StageOf(jobs[i]), web, d);
    hide StageOf, Rank, Nearest;
    assert jobs[k].stage == StageOf(jobs[k]) && jobs[i].stage == StageOf(jobs[i]);
    assert k != i && !(i < k);
  }

  // ----- assigning, then sorting -------------------------------------------

  lemma {:induction false} MembersShuffled(a: seq<Job>, b: seq<Job>, job: Job, s: Stage, web: set<string>)
    requires multiset(a) == multiset(b)
    ensures forall d :: d in Members(a, job, s, web) <==> d in Members(b, job, s, web)
    ensures Members(a, job, s, web) == [] <==> Members(b, job, s, web) == []
  {
    hide On;
    Contained(a, b, job, s, web);
    Contained(b, a, job, s, web);
    var x, y := Members(a, job, s, web), Members(b, job, s, web);
    hide Members;
    assert x != [] ==> x[0] in y;
    assert y != [] ==> y[0] in x;
  }

  lemma {:induction false} Contained(a: seq<Job>, b: seq<Job>, job: Job, s: Stage, web: set<string>)
    requires multiset(a) == multiset(b)
    ensures forall d :: d in Members(a, job, s, web) ==> d in Members(b, job, s, web)
  {
    hide On;
    forall d | d in Members(a, job, s, web)
      ensures d in Members(b, job, s, web)
    {
      var k :| 0 <= k < |a| && On(job, a[k], s, web) && a[k].id == d;
      assert a[k] in multiset(b);
      var m :| 0 <= m < |b| && b[m] == a[k];
    }
  }

  lemma {:induction false} NearestShuffled(a: seq<Job>, b: seq<Job>, job: Job, s: Stage, web: set<string>, d: string)
    requires multiset(a) == multiset(b)
    ensures Nearest(a, job, s, web, d) <==> Nearest(b, job, s, web, d)
    decreases Rank(s)
  {
    hide Members, Prerequisites, Rank;
    forall p | p in Prerequisites(s)
      ensures Stands(a, job, p, web, d) <==> Stands(b, job, p, web, d)
    {
      MembersShuffled(a, b, job, p, web);
      NearestShuffled(a, b, job, p, web, d);
    }
  }

  /** The prerequisites do not depend on the order of the jobs: sorting a plan keeps
      what was assigned. */
  lemma {:induction false} AssignedShuffled(a: seq<Job>, b: seq<Job>, web: set<string>)
    requires multiset(a) == multiset(b) && AllAssigned(a, web)
    ensures AllAssigned(b, web)
  {
    hide Nearest, StageOf;
    forall i | 0 <= i < |b|
      ensures b[i].stage == StageOf(b[i]) && Assigned(b, b[i], b[i].dependencies, web)
    {
      assert b[i] in multiset(a);
      var j :| 0 <= j < |a| && a[j] == b[i];
      forall d
        ensures Nearest(a, b[i], StageOf(b[i]), web, d) <==> Nearest(b, b[i], StageOf(b[i]), web, d)
      {
        NearestShuffled(a, b, b[i], StageOf(b[i]), web, d);
      }
    }
  }

  /** By stage, then by job ID. */
  predicate PlanLe(a: Job, b: Job) {
    Rank(a.stage) < Rank(b.stage) || (Rank(a.stage) == Rank(b.stage) && StrLe(a.id, b.id))
  }

  lemma {:induction false} PlanOrder()
    ensures Preorder(PlanLe)
  {
    StrOrder();
    hide StrLe, Rank;
  }

  /** Every prerequisite of every job names an earlier job of its workflow. */
  ghost predicate Topological(jobs: seq<Job>, web: set<string>) {
    forall i, d :: 0 <= i < |jobs| && d in jobs[i].dependencies ==>
      exists k :: 0 <= k < i && jobs[k].id == d && jobs[k].scanner in web && SameWorkflow(jobs[k], jobs[i])
  }

  lemma {:induction false} SortedIsTopological(jobs: seq<Job>, web: set<string>)
    requires AllAssigned(jobs, web) && Sorted(jobs, PlanLe)
    ensures Topological(jobs, web)
  {
    assert forall x, y :: 0 <= x < y < |jobs| ==> PlanLe(jobs[x], jobs[y]);
    hide AllAssigned, Rank, StrLe;
    forall i, d | 0 <= i < |jobs| && d in jobs[i].dependencies
      ensures exists k :: 0 <= k < i && jobs[k].id == d && jobs[k].scanner in web && SameWorkflow(jobs[k], jobs[i])
    {
      StageOrderIsTopological(jobs, web, i, d);
    }
  }

  /** The end of PlanAssessment: the stages and prerequisites are assigned, then the
      jobs are sorted. What comes out is what the loop of StagesInOrder runs on. */
  method PlanJobs(jobs: array<Job>, web: set<string>) returns (plan: seq<Job>)
    modifies jobs
    ensures Alike(old(jobs[..]), jobs[..]) && multiset(plan) == multiset(jobs[..])
    ensures Sorted(plan, PlanLe) && AllAssigned(plan, web) && Topological(plan, web)
    ensures forall i, j :: 0 <= i < j < |plan| ==>
      Rank(plan[i].stage) <= Rank(plan[j].stage) && (plan[i].stage == plan[j].stage ==> StrLe(plan[i].id, plan[j].id))
  {
    ghost var before := jobs[..];
    AssignStages(jobs, web);
    hide Assigned, StageOf, AllAssigned, Topological, PlanLe, Sorted, Sort, Preorder;
    AssignedAfter(before, jobs[..], web);
    PlanOrder();
    plan := Sort(jobs[..], PlanLe);
    SortCorrect(jobs[..], PlanLe);
    AssignedShuffled(jobs[..], plan, web);
    SortedIsTopological(plan, web);
  }

  // ----- the ladder, by the names of the scanners --------------------------

  predicate Finds(job: Job) {
    !job.fuzz && job.scanner in {"subfinder", "amass"}
  }

  predicate Probes(job: Job) {
    !job.fuzz && job.scanner in {"httpx", "nmap", "masscan"}
  }

  predicate Crawlers(job: Job) {
    !job.fuzz && job.scanner in {"katana", "gau", "waybackurls"}
  }

  predicate Certificates(job: Job) {
    !job.fuzz && job.scanner in {"testssl", "sslyze"}
  }

  predicate Checkers(job: Job) {
    !job.fuzz && job.scanner in {"dalfox", "apichecks"}
  }

  predicate Writers(job: Job) {
    job.fuzz || job.scanner in {"apiwrites", "nextjs-actions", "nextjs-boundaries"}
  }

  predicate Templaters(job: Job) {
    !job.fuzz && job.scanner in {"nuclei", "nikto"}
  }

  predicate Resolves(job: Job) {
    !job.fuzz && job.scanner == "dnsx"
  }

  predicate LogsIn(job: Job) {
    !job.fuzz && job.scanner == "auth"
  }

  predicate ReadsAssets(job: Job) {
    !job.fuzz && job.scanner == "nextjs-assets"
  }

  /** The table of the scanners. */
  lemma {:induction false} StageByName(job: Job)
    ensures var s := StageOf(job);
            && (Finds(job) <==> s == Discovery) && (Resolves(job) <==> s == Dns) && (Probes(job) <==> s == Reachability)
            && (LogsIn(job) <==> s == Auth) && (Crawlers(job) <==> s == Crawl) && (ReadsAssets(job) <==> s == Passive)
            && (Templaters(job) <==> s == Templates) && (Certificates(job) <==> s == Tls)
            && (Checkers(job) <==> s == Validation) && (Writers(job) <==> s == WriteValidation)
            && s != Scope && s != Inventory && s != Results
  {
  }

  /** What must have run before `x`: names, hosts and probes before everything that
      comes later, login and crawl before everything but certificate tests, and the
      checks of parameters and operations before the writes. */
  predicate Precedes(y: Job, x: Job) {
    var early := Finds(x);
    var named := early || Resolves(x);
    var probed := named || Probes(x);
    || (Finds(y) && !early)
    || (Resolves(y) && !named)
    || (Probes(y) && !probed)
    || (LogsIn(y) && !probed && !LogsIn(x) && !Certificates(x))
    || (Crawlers(y) && !probed && !LogsIn(x) && !Certificates(x) && !Crawlers(x))
    || (Checkers(y) && Writers(x))
  }

  /** The stages that a stage consumes, directly or not. */
  function Below(s: Stage): set<Stage> {
    match s
    case Scope => {}
    case Discovery => {Scope}
    case Dns => {Scope, Discovery}
    case Reachability => {Scope, Discovery, Dns}
    case Auth => {Scope, Discovery, Dns, Reachability}
    case Tls => {Scope, Discovery, Dns, Reachability}
    case Crawl => {Scope, Discovery, Dns, Reachability, Auth}
    case Inventory => {Scope, Discovery, Dns, Reachability, Auth, Crawl}
    case WriteValidation => {Scope, Discovery, Dns, Reachability, Auth, Crawl, Inventory, Validation}
    case Results => {Scope, Discovery, Dns, Reachability, Auth, Crawl, Inventory, Passive, Templates, Tls, Dast,
      Validation, WriteValidation}
    case _ => {Scope, Discovery, Dns, Reachability, Auth, Crawl, Inventory}
  }

  lemma {:induction false} AncestorExactly(s: Stage, a: Stage)
    ensures Ancestor(s, a) <==> a in Below(s)
    decreases Rank(s)
  {
    forall p | p in Prerequisites(s)
      ensures Ancestor(p, a) <==> a in Below(p)
    {
      AncestorExactly(p, a);
    }
    BelowIsUnion(s, a);
    hide Below, Prerequisites, Rank;
  }

  lemma {:induction false} BelowIsUnion(s: Stage, a: Stage)
    ensures a in Below(s) <==> exists p :: p in Prerequisites(s) && (p == a || a in Below(p))
  {
    match s
    case Scope =>
    case Results =>
      assert Passive in Prerequisites(s) && Tls in Prerequisites(s) && WriteValidation in Prerequisites(s)
        && Templates in Prerequisites(s) && Dast in Prerequisites(s) && Validation in Prerequisites(s);
    case _ =>
      assert |Prerequisites(s)| == 1 && Prerequisites(s)[0] in Prerequisites(s);
  }

  /** The table of the ladder and the table of the scanners together. */
  lemma {:induction false} AncestorByName(x: Job, y: Job)
    ensures Ancestor(StageOf(x), StageOf(y)) <==> Precedes(y, x)
  {
    hide Finds, Resolves, Probes, LogsIn, Crawlers, ReadsAssets, Templaters, Certificates, Checkers, Writers, StageOf,
      Ancestor;
    StageByName(x);
    StageByName(y);
    AncestorExactly(StageOf(x), StageOf(y));
  }

  /** When a workflow job reaches its target everything of its workflow that must
      have run before it has completed. */
  lemma {:induction false} WorkflowByName(plan: Plan, worlds: seq<World>, completed: map<RunKey, JobLoops.Run>,
          l: Ledger, web: set<string>, i: nat, k: nat)
    requires AllAssigned(plan.jobs, web) && UniqueIDs(plan.jobs)
    requires Rows(plan, |plan.jobs|, l) && Gated(plan, worlds, completed, |plan.jobs|, l)
    requires i < |plan.jobs| && plan.jobs[i].scanner in web && (Reached(l, i) || DoneAt(l, i))
    requires k < |plan.jobs| && plan.jobs[k].scanner in web
    requires plan.jobs[k].targetID == plan.jobs[i].targetID && plan.jobs[k].authContextID == plan.jobs[i].authContextID
    requires Precedes(plan.jobs[k], plan.jobs[i])
    ensures k < i && DoneAt(l, k)
  {
    hide Precedes, StageOf, Ancestor, Rows, Gated;
    AncestorByName(plan.jobs[i], plan.jobs[k]);
    assert plan.jobs[i].stage == StageOf(plan.jobs[i]);
    StagesInOrder(plan, worlds, completed, l, web, i, StageOf(plan.jobs[k]), k);
  }

  /** And nothing else is a prerequisite. */
  lemma {:induction false} PrerequisiteByName(jobs: seq<Job>, web: set<string>, i: nat, d: string)
    requires AllAssigned(jobs, web) && i < |jobs| && d in jobs[i].dependencies
    ensures exists k :: 0 <= k < |jobs| && jobs[k].id == d && jobs[k].scanner in web && SameWorkflow(jobs[k], jobs[i])
              && Precedes(jobs[k], jobs[i])
  {
    var k := NearestIsAncestor(jobs, jobs[i], StageOf(jobs[i]), web, d);
    AncestorByName(jobs[i], jobs[k]);
    hide StageOf, Ancestor, Precedes, Nearest;
  }

  lemma {:induction false} NearestIsAncestor(jobs: seq<Job>, job: Job, s: Stage, web: set<string>, d: string)
    returns (k: nat)
    requires Nearest(jobs, job, s, web, d)
    ensures k < |jobs| && jobs[k].id == d && jobs[k].scanner in web && SameWorkflow(jobs[k], job)
    ensures Ancestor(s, StageOf(jobs[k]))
    decreases Rank(s)
  {
    var p :| p in Prerequisites(s) && Stands(jobs, job, p, web, d);
    hide StageOf, Prerequisites;
    if Members(jobs, job, p, web) != [] {
      k :| k < |jobs| && On(job, jobs[k], p, web) && jobs[k].id == d;
    } else {
      k := NearestIsAncestor(jobs, job, p, web, d);
    }
  }

  /** The order in which stages are run. */
  const LADDER: seq<Stage> := [Scope, Discovery, Dns, Reachability, Auth, Crawl, Inventory, Passive, Templates, Tls,
    Dast, Validation, WriteValidation, Results]

  lemma {:induction false} RankIsPlace(s: Stage)
    ensures Rank(s) < |LADDER| && LADDER[Rank(s)] == s
  {
  }

  /** Of the tests, recorded assets come first, then templates, certificates, the
      other scanners, the checks, and the writes. */
  predicate RunsBefore(a: Job, b: Job) {
    var other := !Finds(b) && !Resolves(b) && !Probes(b) && !LogsIn(b) && !Crawlers(b);
    || (ReadsAssets(a) && other && !ReadsAssets(b))
    || (Templaters(a) && other && !ReadsAssets(b) && !Templaters(b))
    || (Certificates(a) && other && !ReadsAssets(b) && !Templaters(b) && !Certificates(b))
    || (!Checkers(a) && !Writers(a) && (Checkers(b) || Writers(b)))
    || (Checkers(a) && Writers(b))
  }

  lemma {:induction false} RunsInOrder(plan: seq<Job>, web: set<string>, i: nat, k: nat)
    requires AllAssigned(plan, web) && Sorted(plan, PlanLe) && i < |plan| && k < |plan|
    requires RunsBefore(plan[i], plan[k]) || Precedes(plan[i], plan[k])
    ensures i < k
  {
    hide Rank, StageOf, RunsBefore, Precedes, StrLe;
    var a, b := plan[i], plan[k];
    assert a.stage == StageOf(a) && b.stage == StageOf(b);
    if k <= i {
      assert k < i ==> PlanLe(b, a);
      RanksByName(a, b);
    }
  }

  lemma {:induction false} RanksByName(a: Job, b: Job)
    requires RunsBefore(a, b) || Precedes(a, b)
    ensures Rank(StageOf(a)) < Rank(StageOf(b))
  {
    hide Finds, Resolves, Probes, LogsIn, Crawlers, ReadsAssets, Templaters, Certificates, Checkers, Writers, StageOf;
    StageByName(a);
    StageByName(b);
  }
}
