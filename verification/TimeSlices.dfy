/** How the job loop of internal/scanner/assessment_jobs.go divides the web time of
    a target among the jobs that still wait for it. Times are in nanoseconds. */
module TimeSlices {
  import opened JobLoops

  /** Integer division as Go does it, toward zero. */
  function Quotient(a: int, b: int): int
    requires b > 0
  {
    if a >= 0 then a / b else -(-a / b)
  }

  // ----- the count ---------------------------------------------------------

  /** A later job that still waits for the web time of `job`. `w` says whether its
      stored run verifies. */
  predicate Waits(job: Job, later: Job, completed: map<RunKey, Run>, w: World, fingerprint: string) {
    var key := KeyOfJob(later, fingerprint);
    && later.targetID == job.targetID && later.state != NotSelected
    && !(key in completed && completed[key].status == Completed && w.checksum)
  }

  /** How many of the jobs from `k` on wait. */
  function Waiting(jobs: seq<Job>, job: Job, completed: map<RunKey, Run>, worlds: seq<World>, fingerprint: string,
          k: nat): nat
    requires k <= |jobs| == |worlds|
    decreases |jobs| - k
  {
    if k == |jobs| then 0
    else
      (if Waits(job, jobs[k], completed, worlds[k], fingerprint) then 1 else 0) +
      Waiting(jobs, job, completed, worlds, fingerprint, k + 1)
  }

  function Pending(jobs: seq<Job>, i: nat, completed: map<RunKey, Run>, worlds: seq<World>,
          fingerprint: string): (r: nat)
    requires i < |jobs| == |worlds|
    ensures r >= 1
  {
    1 + Waiting(jobs, jobs[i], completed, worlds, fingerprint, i + 1)
  }

  method CountPending(jobs: seq<Job>, i: nat, completed: map<RunKey, Run>, worlds: seq<World>, fingerprint: string)
    returns (pending: nat)
    requires i < |jobs| == |worlds|
    ensures pending == Pending(jobs, i, completed, worlds, fingerprint)
  {
    pending := 1;
    var job := jobs[i];
    for k := i + 1 to |jobs|
      invariant pending + Waiting(jobs, job, completed, worlds, fingerprint, k) == Pending(jobs, i, completed, worlds,
          fingerprint)
    {
      var later := jobs[k];
      if later.targetID != job.targetID || (later.state != Selected && later.state != Conditional) {
        continue;
      }
      var key := KeyOfJob(later, fingerprint);
      if key in completed && completed[key].status == Completed && worlds[k].checksum {
        continue;
      }
      pending := pending + 1;
    }
  }

  lemma {:induction false} WaitingFrom(jobs: seq<Job>, a: Job, b: Job, completed: map<RunKey, Run>, worlds: seq<World>,
          fingerprint: string, k: nat, j: nat)
    requires k <= j <= |jobs| == |worlds| && a.targetID == b.targetID
    ensures Waiting(jobs, a, completed, worlds, fingerprint, k) >= Waiting(jobs, b, completed, worlds, fingerprint, j)
    ensures k < j && Waits(a, jobs[j - 1], completed, worlds[j - 1], fingerprint) ==>
      Waiting(jobs, a, completed, worlds, fingerprint, k) > Waiting(jobs, b, completed, worlds, fingerprint, j)
    decreases |jobs| - k
  {
    if k < |jobs| {
      WaitingFrom(jobs, a, b, completed, worlds, fingerprint, k + 1, if k < j then j else j + 1);
    }
  }

  /** Of two jobs of one target the later counts fewer, if the earlier counted it. */
  lemma {:induction false} PendingDrops(jobs: seq<Job>, i: nat, j: nat, completed: map<RunKey, Run>, worlds: seq<World>,
          fingerprint: string)
    requires i < j < |jobs| == |worlds| && jobs[i].targetID == jobs[j].targetID
    requires Waits(jobs[i], jobs[j], completed, worlds[j], fingerprint)
    ensures Pending(jobs, j, completed, worlds, fingerprint) < Pending(jobs, i, completed, worlds, fingerprint)
  {
    WaitingFrom(jobs, jobs[i], jobs[j], completed, worlds, fingerprint, i + 1, j + 1);
  }

  /** It counts as many, if the earlier counted none up to it. */
  lemma {:induction false} NoneWaits(jobs: seq<Job>, a: Job, b: Job, completed: map<RunKey, Run>, worlds: seq<World>,
          fingerprint: string, k: nat, j: nat)
    requires k <= j <= |jobs| == |worlds| && a.targetID == b.targetID
    requires forall m :: k <= m < j ==> !Waits(a, jobs[m], completed, worlds[m], fingerprint)
    ensures Waiting(jobs, a, completed, worlds, fingerprint, k) == Waiting(jobs, b, completed, worlds, fingerprint, j)
    decreases |jobs| - k
  {
    if k < |jobs| {
      NoneWaits(jobs, a, b, completed, worlds, fingerprint, k + 1, if k < j then j else j + 1);
    }
  }

  // ----- what the count misses ---------------------------------------------

  /** The stored run of a job is complete and verifies, but it was not made in the
      session that is bound to the target now. */
  predicate Missed(later: Job, w: World, completed: map<RunKey, Run>, fingerprint: string) {
    var key := KeyOfJob(later, fingerprint);
    && key in completed && completed[key].status == Completed && w.checksum
    && w.authBound && w.usesWebAuth && !completed[key].authenticated
  }

  /** Of the jobs that run again the count misses exactly those. */
  lemma {:induction false} MissedExactly(job: Job, later: Job, w: World, completed: map<RunKey, Run>,
          fingerprint: string)
    requires later.targetID == job.targetID && later.state != NotSelected
    ensures !Waits(job, later, completed, w, fingerprint) && !Reusable(later, w, completed, fingerprint)
            <==> Missed(later, w, completed, fingerprint)
  {
  }

  // ----- the clock ---------------------------------------------------------

  /** The web deadlines of the targets; each is set when its first job asks. */
  class WebClock {
    const budget: int
    var deadlines: map<string, int>

    constructor (budget: int)
      ensures this.budget == budget && deadlines == map[]
    {
      this.budget, deadlines := budget, map[];
    }

    /** Lines 690-700: whether the target has web time left. */
    method Admit(target: string, first: int, now: int) returns (inTime: bool)
      modifies this
      ensures deadlines == if target in old(deadlines) then old(deadlines) else old(deadlines)[target := first + budget]
      ensures inTime <==> now < deadlines[target]
    {
      if target !in deadlines {
        deadlines := deadlines[target := first + budget];
      }
      inTime := now < deadlines[target];
    }

    /** Lines 757-777: the deadline of one job. `now` and `until` are the two
        clock readings of the expression, in the order they are taken. */
    method Slice(target: string, pending: nat, now: int, until: int) returns (deadline: int)
      requires target in deadlines && pending >= 1
      ensures deadline == StageDeadline(deadlines[target], pending, now, until)
    {
      deadline := deadlines[target];
      if pending > 1 {
        deadline := now + Quotient(deadline - until, pending);
      }
    }
  }

  function StageDeadline(deadline: int, pending: nat, now: int, until: int): int
    requires pending >= 1
  {
    if pending > 1 then now + Quotient(deadline - until, pending) else deadline
  }

  // ----- fairness ----------------------------------------------------------

  lemma {:induction false} Division(a: int, b: int)
    requires a >= 0 && b > 0
    ensures a / b >= 0 && b * (a / b) <= a < b * (a / b) + b
  {
  }

  lemma {:induction false} Monotone(b: int, x: int, y: int)
    requires b >= 0 && x <= y
    ensures b * x <= b * y
  {
  }

  /** Truncation toward zero: below a positive value, above a negative one. */
  lemma {:induction false} QuotientBounds(a: int, b: int)
    requires b > 0
    ensures a >= 0 ==> 0 <= Quotient(a, b) <= a && b * Quotient(a, b) <= a
    ensures a < 0 && b > 1 ==> a < Quotient(a, b) <= 0
  {
    var m := if a >= 0 then a else -a;
    Division(m, b);
    Monotone(m / b, if b > 1 then 2 else 1, b);
    assert (m / b) * b == b * (m / b);
  }

  lemma {:induction false} QuotientAtLeast(a: int, b: int, s: int)
    requires a >= 0 && b > 0 && b * s <= a
    ensures s <= Quotient(a, b)
  {
    if a / b < s {
      QuotientBelow(a, b, s);
    }
  }

  lemma {:induction false} QuotientBelow(a: int, b: int, s: int)
    requires a >= 0 && b > 0 && a / b < s
    ensures a < b * s
  {
    Division(a, b);
    Monotone(b, a / b + 1, s);
    assert b * (a / b + 1) == b * (a / b) + b;
  }

  lemma {:induction false} QuotientReaches(a: int, b: int, d: int)
    requires a >= 0 && b > 0
    ensures a / b >= d <==> a >= b * d
  {
    if a / b < d {
      QuotientBelow(a, b, d);
    } else {
      Division(a, b);
      Monotone(b, d, a / b);
    }
  }

  /** A stage deadline stays within the web deadline exactly when the first clock
      reading does, or when the second is so much later that the negative share
      takes the difference back. */
  lemma {:induction false} StageWithinWeb(deadline: int, pending: nat, now: int, until: int)
    requires pending > 1 && now <= until
    ensures StageDeadline(deadline, pending, now, until) <= deadline <==>
            now <= deadline || until - deadline >= pending * (now - deadline)
  {
    QuotientBounds(deadline - until, pending);
    if now > deadline {
      QuotientReaches(until - deadline, pending, now - deadline);
    }
  }

  function Share(deadline: int, pending: nat, now: int, until: int): int
    requires pending >= 1
  {
    StageDeadline(deadline, pending, now, until) - now
  }

  /** A slice that starts by the stage deadline of the one before, with fewer jobs
      waiting, is no smaller. */
  lemma {:induction false} ShareGrows(deadline: int, p: nat, q: nat, now: int, until: int, next: int, later: int)
    requires 1 <= q < p && now <= until <= deadline && next <= later <= StageDeadline(deadline, p, now, until)
    ensures later <= deadline && Share(deadline, p, now, until) <= Share(deadline, q, next, later)
  {
    var share, rest := Quotient(deadline - until, p), deadline - later;
    QuotientBounds(deadline - until, p);
    Monotone(share, q, p - 1);
    assert share * (p - 1) == p * share - share && share * q == q * share;
    QuotientAtLeast(rest, q, share);
    if q == 1 {
      assert share * 1 == share;
    }
  }

  /** Whatever the clock says, a slice that starts by the stage deadline of the one
      before is no smaller. */
  ghost predicate NeverShrinks(deadline: int, p: nat, q: nat)
    requires p >= 1 && q >= 1
  {
    forall now, until, next, later ::
      now <= until <= deadline && next <= later <= StageDeadline(deadline, p, now, until) ==>
        Share(deadline, p, now, until) <= Share(deadline, q, next, later)
  }

  lemma {:induction false} NeverShrinksExactly(deadline: int, p: nat, q: nat)
    requires 1 <= q <= p
    ensures NeverShrinks(deadline, p, q) <==> q < p
  {
    if q < p {
      hide Share, StageDeadline;
      forall now, until, next, later | now <= until <= deadline
        && next <= later <= StageDeadline(deadline, p, now, until)
        ensures Share(deadline, p, now, until) <= Share(deadline, q, next, later)
      {
        ShareGrows(deadline, p, q, now, until, next, later);
      }
    } else {
      var now, next := deadline - p, deadline - p + 1;
      assert Quotient(p, p) == 1 && (p - 1) / p == 0;
      assert Share(deadline, p, now, now) == 1 && Share(deadline, q, next, next) == 0;
      assert next <= StageDeadline(deadline, p, now, now);
    }
  }

  /** Of two slices of one target with nothing that waits in between, the second is
      never smaller exactly when the count of the first did not miss its job. */
  lemma {:induction false} FairExactly(jobs: seq<Job>, i: nat, j: nat, completed: map<RunKey, Run>, worlds: seq<World>,
          fingerprint: string, deadline: int)
    requires i < j < |jobs| == |worlds| && jobs[i].targetID == jobs[j].targetID
    requires jobs[j].state != NotSelected && !Reusable(jobs[j], worlds[j], completed, fingerprint)
    requires forall m :: i < m < j ==> !Waits(jobs[i], jobs[m], completed, worlds[m], fingerprint)
    ensures NeverShrinks(deadline, Pending(jobs, i, completed, worlds, fingerprint),
        Pending(jobs, j, completed, worlds, fingerprint))
            <==> !Missed(jobs[j], worlds[j], completed, fingerprint)
  {
    var p, q := Pending(jobs, i, completed, worlds, fingerprint), Pending(jobs, j, completed, worlds, fingerprint);
    MissedExactly(jobs[i], jobs[j], worlds[j], completed, fingerprint);
    if Missed(jobs[j], worlds[j], completed, fingerprint) {
      NoneWaits(jobs, jobs[i], jobs[j], completed, worlds, fingerprint, i + 1, j + 1);
      assert p == q;
    } else {
      PendingDrops(jobs, i, j, completed, worlds, fingerprint);
    }
    hide Pending, NeverShrinks;
    NeverShrinksExactly(deadline, p, q);
  }

  /** One slice of the web time of a target: the job and the two clock readings. */
  datatype Piece = Piece(job: nat, now: int, until: int)

  ghost predicate Pieces(jobs: seq<Job>, completed: map<RunKey, Run>, worlds: seq<World>, fingerprint: string,
          deadline: int, pieces: seq<Piece>) {
    && |jobs| == |worlds|
    && (forall k :: 0 <= k < |pieces| ==> pieces[k].job < |jobs| && pieces[k].now <= pieces[k].until)
    && (forall k :: 0 < k < |pieces| ==>
       Follows(jobs, completed, worlds, fingerprint, deadline, pieces[k - 1], pieces[k]))
  }

  /** The next piece belongs to a later job of the same target, which has no stored
      run to reuse, and starts before the earlier one's stage deadline. */
  ghost predicate Follows(jobs: seq<Job>, completed: map<RunKey, Run>, worlds: seq<World>, fingerprint: string,
          deadline: int, a: Piece, b: Piece) {
    && a.job < b.job < |jobs| == |worlds| && jobs[a.job].targetID == jobs[b.job].targetID
    && jobs[b.job].state != NotSelected && !Reusable(jobs[b.job], worlds[b.job], completed, fingerprint)
    && b.until <= StageDeadline(deadline, Pending(jobs, a.job, completed, worlds, fingerprint), a.now, a.until)
  }

  /** The share of a slice. */
  ghost function ShareOf(jobs: seq<Job>, completed: map<RunKey, Run>, worlds: seq<World>, fingerprint: string,
          deadline: int, x: Piece): int
    requires x.job < |jobs| == |worlds|
  {
    Share(deadline, Pending(jobs, x.job, completed, worlds, fingerprint), x.now, x.until)
  }

  /** Over any run of slices of one target, fresh or resumed, none of which the
      count missed: shares never shrink, no piece starts or must end after the web
      deadline, and each gets at least an equal part of the time that was left at
      the first. */
  lemma {:induction false} Fair(jobs: seq<Job>, completed: map<RunKey, Run>, worlds: seq<World>, fingerprint: string,
          deadline: int, pieces: seq<Piece>, k: nat)
    requires Pieces(jobs, completed, worlds, fingerprint, deadline, pieces) && k < |pieces|
        && pieces[0].until <= deadline
    requires forall m :: 0 < m < |pieces| ==>
        !Missed(jobs[pieces[m].job], worlds[pieces[m].job], completed, fingerprint)
    ensures var p := Pending(jobs, pieces[k].job, completed, worlds, fingerprint);
            var n := Pending(jobs, pieces[0].job, completed, worlds, fingerprint);
            && pieces[k].until <= deadline && StageDeadline(deadline, p, pieces[k].now, pieces[k].until) <= deadline
            && p <= n - k
            && ShareOf(jobs, completed, worlds, fingerprint, deadline, pieces[k]) >= (deadline - pieces[0].until) / n
    ensures k > 0 ==>
      ShareOf(jobs, completed, worlds, fingerprint, deadline, pieces[k - 1]) <= ShareOf(jobs, completed, worlds,
        fingerprint, deadline, pieces[k])
  {
    var p := Pending(jobs, pieces[k].job, completed, worlds, fingerprint);
    if k > 0 {
      var a, b := pieces[k - 1], pieces[k];
      Fair(jobs, completed, worlds, fingerprint, deadline, pieces, k - 1);
      assert Follows(jobs, completed, worlds, fingerprint, deadline, a, b);
      MissedExactly(jobs[a.job], jobs[b.job], worlds[b.job], completed, fingerprint);
      PendingDrops(jobs, a.job, b.job, completed, worlds, fingerprint);
      hide Pending, Waits, Missed, Reusable, Quotient, StageDeadline;
      ShareGrows(deadline, Pending(jobs, a.job, completed, worlds, fingerprint), p, a.now, a.until, b.now, b.until);
    }
    hide Pending, Waits, Missed, Reusable;
    if p > 1 {
      StageWithinWeb(deadline, p, pieces[k].now, pieces[k].until);
    }
    if k == 0 {
      FirstShare(deadline, p, pieces[0].now, pieces[0].until);
    }
  }

  lemma {:induction false} FirstShare(deadline: int, p: nat, now: int, until: int)
    requires p >= 1 && now <= until <= deadline
    ensures Share(deadline, p, now, until) >= (deadline - until) / p
  {
  }

  /** A plan that shows it: the job whose stored run the session rule does not
      accept is left out, and both jobs may claim all of the web time. */
  lemma {:induction false} UncountedJob(a: Job, b: Job, prior: Run, fingerprint: string, v: World, w: World)
    requires a.targetID == b.targetID && b.state == Selected
    requires KeyOfRun(prior) == KeyOfJob(b, fingerprint) && prior.status == Completed && !prior.authenticated
    requires w.authBound && w.usesWebAuth && w.checksum
    ensures var completed := map[KeyOfRun(prior) := prior];
            && !Reusable(b, w, completed, fingerprint)
            && Pending([a, b], 0, completed, [v, w], fingerprint) == 1
            && Pending([a, b], 1, completed, [v, w], fingerprint) == 1
  {
    var completed := map[KeyOfRun(prior) := prior];
    var jobs, worlds := [a, b], [v, w];
    assert Waiting(jobs, a, completed, worlds, fingerprint, 2) == 0;
    assert Waiting(jobs, b, completed, worlds, fingerprint, 2) == 0;
    assert !Waits(a, b, completed, worlds[1], fingerprint);
  }
}
