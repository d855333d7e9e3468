/** The runner of approved API writes, internal/scanner/apichecks_writes.go: one loop
    over the approvals with the journal and the network in between. Each action of
    the loop is a step of the write machine, so the safety of the machine is the
    safety of the loop. */
module ApiWrites {
  import opened Wrappers
  import opened Text
  import opened Paths
  import opened Hosts
  import opened Origins
  import opened ScopeOrder
  import opened AppScopes
  import opened ApiPaths
  import opened WriteJournals
  import opened WriteMachine
  import opened WriteSafety

  /** The paths are those of the API description; the requests go below the URL of
      the application. */
  datatype Approval = Approval(
      entry: Entry, verb: string, path: string, cleanupVerb: string, cleanupPath: string)

  /** What the environment answers while one approval is worked on. `matched` and
      `cleanupMatched` are the results of the exclusion expressions. */
  datatype Answers = Answers(
    bound: bool, matched: seq<bool>, fixture: bool, cleanupMatched: seq<bool>, cleanupFixture: bool,
    record: Fault, writeGranted: bool, write: Option<int>, sent: Fault,
    cleanupGranted: bool, cleanup: Option<int>, outcome: Fault)

  datatype Status = Skipped | Written | CleanupIncomplete | Completed

  datatype Verdict = RunSkipped | RunFailed | RunCompleted

  /** Requests that reached the network, with the journal's confirmations. */
  class Network {
    ghost var log: seq<Event>

    constructor ()
      ensures log == []
    {
      log := [];
    }
  }

  predicate WriteVerb(verb: string) {
    verb == "POST" || verb == "PUT" || verb == "PATCH" || verb == "DELETE"
  }

  predicate CleanupVerb(verb: string) {
    verb == "DELETE" || verb == "PUT" || verb == "PATCH"
  }

  ghost predicate Permitted(scope: AppScope, a: Approval, base: Option<Url>, ip: IpTable) {
    && a.verb in {"POST", "PUT", "PATCH", "DELETE"} && a.cleanupVerb in {"PUT", "PATCH", "DELETE"}
    && InScope(scope, a.verb, ScopedUrl(base, a.path), ip)
    && InScope(scope, a.cleanupVerb, ScopedUrl(base, a.cleanupPath), ip)
  }

  /** The expression results are those of the scope's exclusions. */
  ghost predicate Matched(scope: AppScope, url: Option<Url>, ip: IpTable, matched: seq<bool>) {
    ParseDestination(url, ip).Some? ==> MatchesOf(scope, ParseDestination(url, ip).value.path, matched)
  }

  method ScopeAdmits(scope: AppScope, verb: string, url: Option<Url>, ip: IpTable, matched: seq<bool>)
    returns (ok: bool)
    requires Matched(scope, url, ip, matched)
    ensures ok <==> InScope(scope, verb, url, ip)
  {
    if url.None? {
      return false;
    }
    var allowed, _ := Allows(scope, url, ip);
    if !allowed {
      return false;
    }
    var excluded, _ := Excluded(scope, verb, url, ip, matched);
    ok := !excluded;
  }

  /** Bound to an operation, in scope, and with both fixtures at hand. */
  predicate Passes(env: Answers, permitted: bool) {
    env.bound && env.fixture && env.cleanupFixture && permitted
  }

  /** The checks that come before anything is journaled, in their order. */
  method Checks(scope: AppScope, a: Approval, env: Answers, base: Option<Url>, ip: IpTable) returns (ok: bool)
    requires MatchedAt(scope, a, env, base, ip)
    ensures ok <==> Passes(env, Permitted(scope, a, base, ip))
  {
    if !env.bound {
      return false;
    }
    if !WriteVerb(a.verb) || !CleanupVerb(a.cleanupVerb) {
      return false;
    }
    ok := ScopeAdmits(scope, a.verb, ScopedUrl(base, a.path), ip, env.matched);
    if !ok || !env.fixture {
      return false;
    }
    ok := ScopeAdmits(scope, a.cleanupVerb, ScopedUrl(base, a.cleanupPath), ip, env.cleanupMatched);
    ok := ok && env.cleanupFixture;
  }

  // ----- the loop is a run of the machine ----------------------------------

  lemma {:induction false} RunSnoc(s: Sys, steps: seq<Step>, x: Step)
    ensures Run(s, steps + [x]) == Do(Run(s, steps), x)
  {
    assert (steps + [x])[..|steps + [x]| - 1] == steps;
  }

  lemma {:induction false} RunAppend(s: Sys, a: seq<Step>, b: seq<Step>)
    ensures Run(s, a + b) == Run(Run(s, a), b)
  {
    if b == [] {
      assert a + b == a;
    } else {
      var n := |b| - 1;
      assert (a + b)[..|a + b| - 1] == a + b[..n];
      RunAppend(s, a, b[..n]);
    }
  }

  /** A set of machine states that no step leaves. What the loop does stays in
      every such set: in the states that satisfy the invariant, and in the states
      that some run reaches. */
  ghost predicate Closed(r: iset<Sys>) {
    forall s :: s in r ==> Stays(r, s)
  }

  ghost predicate Stays(r: iset<Sys>, s: Sys) {
    forall x :: Do(s, x) in r
  }

  ghost function Reachable(s0: Sys): iset<Sys> {
    iset s | Reaches(s0, s)
  }

  ghost predicate Reaches(s0: Sys, s: Sys) {
    exists steps :: Run(s0, steps) == s
  }

  lemma {:induction false} ReachableClosed(s0: Sys)
    ensures Closed(Reachable(s0)) && s0 in Reachable(s0)
  {
    assert Run(s0, []) == s0;
    var r := Reachable(s0);
    forall s | s in r
      ensures Stays(r, s)
    {
      ReachableStays(s0, s);
    }
  }

  lemma {:induction false} ReachableStays(s0: Sys, s: Sys)
    requires s in Reachable(s0)
    ensures Stays(Reachable(s0), s)
  {
    var steps :| Run(s0, steps) == s;
    forall x
      ensures Do(s, x) in Reachable(s0)
    {
      RunSnoc(s0, steps, x);
    }
  }

  /** The states that satisfy the invariant are such a set. */
  lemma {:induction false} InvClosed(older: set<string>)
    ensures Closed(iset s: Sys | Inv(s, older))
  {
    var r := iset s: Sys | Inv(s, older);
    forall s | s in r
      ensures Stays(r, s)
    {
      forall x
        ensures Do(s, x) in r
      {
        StepKeeps(s, x, older);
      }
    }
  }

  /** Process `p` is at `q` in a state of `r` with this disk and log. */
  ghost predicate At(r: iset<Sys>, s: Sys, disk: Disk, log: seq<Event>, p: nat, q: Proc) {
    s in r && s.disk == disk && s.log == log && p in s.procs && s.procs[p] == q
  }

  predicate On(q: Proc, e: Entry) {
    q.at < |q.work| && q.work[q.at] == e
  }

  lemma {:induction false} AtCheck(r: iset<Sys>, s: Sys, disk: Disk, log: seq<Event>, p: nat, q: Proc, e: Entry,
          passed: bool)
    returns (t: Sys)
    requires Closed(r) && At(r, s, disk, log, p, q) && On(q, e) && q.pc == Checking
    ensures At(r, t, disk, log, p, if passed then q.(pc := Recording) else Advance(q))
  {
    t := Do(s, Check(p, passed));
  }

  lemma {:induction false} AtRecord(r: iset<Sys>, s: Sys, disk: Disk, log: seq<Event>, p: nat, q: Proc, e: Entry,
          fault: Fault)
    returns (t: Sys)
    requires Closed(r) && At(r, s, disk, log, p, q) && On(q, e) && q.pc == Recording
    ensures var (disk', ok) := Apply(disk, WithIntent(disk.visible, e), fault);
            At(r, t, disk', log, p, if ok then q.(pc := WaitingToWrite) else Advance(q))
  {
    hide Apply, WithIntent, WithState;
    t := Do(s, Record(p, fault));
  }

  lemma {:induction false} AtWaitWrite(r: iset<Sys>, s: Sys, disk: Disk, log: seq<Event>, p: nat, q: Proc, e: Entry,
          granted: bool)
    returns (t: Sys)
    requires Closed(r) && At(r, s, disk, log, p, q) && On(q, e) && q.pc == WaitingToWrite
    ensures At(r, t, disk, log, p, if granted then q.(pc := Writing) else Advance(q))
  {
    t := Do(s, WaitWrite(p, granted));
  }

  lemma {:induction false} AtSendWrite(r: iset<Sys>, s: Sys, disk: Disk, log: seq<Event>, p: nat, q: Proc, e: Entry)
    returns (t: Sys)
    requires Closed(r) && At(r, s, disk, log, p, q) && On(q, e) && q.pc == Writing
    ensures At(r, t, disk, log + [WriteSent(e.id)], p, q.(pc := AwaitingAnswer))
  {
    t := Do(s, SendWrite(p));
  }

  lemma {:induction false} AtReceiveAnswer(r: iset<Sys>, s: Sys, disk: Disk, log: seq<Event>, p: nat, q: Proc, e: Entry,
          answer: Option<int>)
    returns (t: Sys)
    requires Closed(r) && At(r, s, disk, log, p, q) && On(q, e) && q.pc == AwaitingAnswer
    ensures answer.None? ==> At(r, t, disk, log, p, Advance(q))
    ensures answer.Some? ==>
        At(r, t, disk, log + [WriteAnswered(e.id, answer.value)], p, q.(pc := MarkingSent(answer.value)))
  {
    t := Do(s, ReceiveAnswer(p, answer));
  }

  lemma {:induction false} AtStoreSent(r: iset<Sys>, s: Sys, disk: Disk, log: seq<Event>, p: nat, q: Proc, e: Entry,
          status: int, fault: Fault)
    returns (t: Sys)
    requires Closed(r) && At(r, s, disk, log, p, q) && On(q, e) && q.pc == MarkingSent(status)
    ensures var (disk', ok) := Apply(disk, WithState(disk.visible, e.id, Intent, Sent), fault);
            if ok then At(r, t, disk', log + [SentStored(e.id)], p, q.(pc := WaitingToClean(status)))
            else At(r, t, disk', log, p, Advance(q))
  {
    hide Apply, WithIntent, WithState;
    t := Do(s, StoreSent(p, fault));
  }

  lemma {:induction false} AtWaitCleanup(r: iset<Sys>, s: Sys, disk: Disk, log: seq<Event>, p: nat, q: Proc, e: Entry,
          status: int, granted: bool, fault: Fault)
    returns (t: Sys)
    requires Closed(r) && At(r, s, disk, log, p, q) && On(q, e) && q.pc == WaitingToClean(status)
    ensures granted ==> At(r, t, disk, log, p, q.(pc := Cleaning(status)))
    ensures !granted ==>
      var (disk', ok) := Apply(disk, WithState(disk.visible, e.id, Sent, CleanupFailed), fault);
      At(r, t, disk', if ok then log + [CleanupStored(e.id, false)] else log, p, Advance(q))
  {
    hide Apply, WithIntent, WithState;
    t := Do(s, WaitCleanup(p, granted, fault));
  }

  lemma {:induction false} AtSendCleanup(r: iset<Sys>, s: Sys, disk: Disk, log: seq<Event>, p: nat, q: Proc, e: Entry,
          status: int)
    returns (t: Sys)
    requires Closed(r) && At(r, s, disk, log, p, q) && On(q, e) && q.pc == Cleaning(status)
    ensures At(r, t, disk, log + [CleanupSent(e.id)], p, q.(pc := AwaitingCleanup(status)))
  {
    t := Do(s, SendCleanup(p));
  }

  lemma {:induction false} AtReceiveCleanup(r: iset<Sys>, s: Sys, disk: Disk, log: seq<Event>, p: nat, q: Proc,
          e: Entry, status: int, answer: Option<int>)
    returns (t: Sys)
    requires Closed(r) && At(r, s, disk, log, p, q) && On(q, e) && q.pc == AwaitingCleanup(status)
    ensures answer.None? ==> At(r, t, disk, log, p, q.(pc := MarkingCleanup(status, false)))
    ensures answer.Some? ==>
      At(r, t, disk, log + [CleanupAnswered(e.id, answer.value)], p,
        q.(pc := MarkingCleanup(status, Success(answer.value))))
  {
    t := Do(s, ReceiveCleanup(p, answer));
  }

  lemma {:induction false} AtStoreCleanup(r: iset<Sys>, s: Sys, disk: Disk, log: seq<Event>, p: nat, q: Proc, e: Entry,
          status: int, succeeded: bool, fault: Fault)
    returns (t: Sys)
    requires Closed(r) && At(r, s, disk, log, p, q) && On(q, e) && q.pc == MarkingCleanup(status, succeeded)
    ensures var (disk', ok) := Apply(disk, WithState(disk.visible, e.id, Sent, CleanupState(succeeded)), fault);
            At(r, t, disk', if ok then log + [CleanupStored(e.id, succeeded)] else log, p, Advance(q))
  {
    hide Apply, WithIntent, WithState;
    t := Do(s, StoreCleanup(p, fault));
    assert t == StoreOutcome(s, p, q, e.id, succeeded, fault);
  }

  // ----- the loop ----------------------------------------------------------

  /** When a write goes out: its operation is new to the journal on disk, the
      intent was stored durably and the budget granted the request. */
  ghost predicate GoesOut(entries: seq<Entry>, e: Entry, env: Answers) {
    WithIntent(entries, e).Some? && env.record == Clean && env.writeGranted
  }

  /** The journal on disk holds the operation in this state. */
  predicate InState(entries: seq<Entry>, id: string, state: WriteState) {
    Find(entries, id) < |entries| && entries[Find(entries, id)].state == state
  }

  lemma {:induction false} IntentIsThere(d: Disk, e: Entry)
    requires WithIntent(d.visible, e).Some?
    ensures InState(Apply(d, WithIntent(d.visible, e), Clean).0.visible, e.id, Intent)
  {
    hide Trim;
    var next := d.visible + [e.(state := Intent)];
    var i := Find(next, e.id);
    assert next[|d.visible|].id == e.id;
    assert forall k :: 0 <= k < |d.visible| ==> d.visible[k].id in Ids(d.visible) && next[k] == d.visible[k];
  }

  lemma {:induction false} StateIsThere(d: Disk, id: string, from: WriteState, to: WriteState)
    ensures WithState(d.visible, id, from, to).Some? <==> InState(d.visible, id, from)
    ensures InState(d.visible, id, from) ==>
        InState(Apply(d, WithState(d.visible, id, from, to), Clean).0.visible, id, to)
  {
    if InState(d.visible, id, from) {
      var i := Find(d.visible, id);
      FindKept(d.visible, id, d.visible[i].(state := to));
    }
  }

  lemma {:induction false} FindKept(entries: seq<Entry>, id: string, e: Entry)
    requires e.id == id && Find(entries, id) < |entries|
    ensures Find(entries[Find(entries, id) := e], id) == Find(entries, id)
  {
    var i := Find(entries, id);
    if i > 0 {
      FindKept(entries[1..], id, e);
      assert entries[i := e][1..] == entries[1..][i - 1 := e];
    }
  }

  /** What reaches the wire for an approval that goes out, with what the journal
      confirms in between: everything follows from the answers. */
  ghost function Wire(key: string, env: Answers): seq<Event> {
    WriteWire(key, env) + if env.write.Some? && env.sent == Clean then CleanupWire(key, env) else []
  }

  ghost function WriteWire(key: string, env: Answers): seq<Event> {
    if env.write.None? then [WriteSent(key)]
    else if env.sent != Clean then [WriteSent(key), WriteAnswered(key, env.write.value)]
    else [WriteSent(key), WriteAnswered(key, env.write.value), SentStored(key)]
  }

  ghost function CleanupWire(key: string, env: Answers): seq<Event> {
    if !env.cleanupGranted then if env.outcome == Clean then [CleanupStored(key, false)] else []
    else
      [CleanupSent(key)] + (if env.cleanup.Some? then [CleanupAnswered(key, env.cleanup.value)] else [])
      + if env.outcome != Clean then []
        else [CleanupStored(key, env.cleanup.Some? && 200 <= env.cleanup.value < 300)]
  }

  /** The intent and the wait for the budget; only then may anything be sent. */
  method RecordPhase(e: Entry, env: Answers, journal: WriteJournal, ghost r: iset<Sys>, ghost s: Sys,
          ghost log: seq<Event>, ghost p: nat, ghost q: Proc)
    returns (cleared: bool, ghost t: Sys)
    requires Closed(r) && At(r, s, journal.file.State(), log, p, q) && On(q, e) && q.pc == Recording
    modifies journal, journal.file
    ensures At(r, t, journal.file.State(), log, p, if cleared then q.(pc := Writing) else Advance(q))
    ensures cleared <==> GoesOut(old(journal.file.visible), e, env)
    ensures cleared ==> InState(journal.file.visible, e.id, Intent)
  {
    hide Trim, Find, Ids, InState;
    if WithIntent(journal.file.visible, e).Some? {
      IntentIsThere(journal.file.State(), e);
    }
    var ok := journal.RecordIntent(e, env.record);
    t := AtRecord(r, s, old(journal.file.State()), log, p, q, e, env.record);
    if !ok {
      return false, t;
    }
    t := AtWaitWrite(r, t, journal.file.State(), log, p, q.(pc := WaitingToWrite), e, env.writeGranted);
    cleared := env.writeGranted;
  }

  /** MarkSent, once the write was answered. */
  method ConfirmPhase(e: Entry, env: Answers, status: int, journal: WriteJournal, ghost r: iset<Sys>, ghost s: Sys,
          ghost log: seq<Event>, ghost p: nat, ghost q: Proc)
    returns (ok: bool, ghost t: Sys)
    requires Closed(r) && At(r, s, journal.file.State(), log, p, q) && On(q, e) && q.pc == MarkingSent(status)
    requires InState(journal.file.visible, e.id, Intent)
    modifies journal, journal.file
    ensures At(r, t, journal.file.State(), if ok then log + [SentStored(e.id)] else log, p,
               if ok then q.(pc := WaitingToClean(status)) else Advance(q))
    ensures (ok <==> env.sent == Clean) && (ok ==> InState(journal.file.visible, e.id, Sent))
  {
    hide WithState, InState;
    StateIsThere(journal.file.State(), e.id, Intent, Sent);
    ok := journal.MarkSent(e.id, env.sent);
    t := AtStoreSent(r, s, old(journal.file.State()), log, p, q, e, status, env.sent);
  }

  /** The write on the wire, up to the confirmed answer. */
  method WritePhase(e: Entry, env: Answers, journal: WriteJournal, net: Network, ghost r: iset<Sys>, ghost s: Sys,
          ghost p: nat, ghost q: Proc)
    returns (answered: Option<int>, ghost t: Sys)
    requires Closed(r) && At(r, s, journal.file.State(), net.log, p, q) && On(q, e) && q.pc == Writing
    requires journal as object != net && journal.file as object != net
    requires InState(journal.file.visible, e.id, Intent)
    modifies journal, journal.file, net
    ensures At(r, t, journal.file.State(), net.log, p,
        match answered case None => Advance(q) case Some(status) => q.(pc := WaitingToClean(status)))
    ensures net.log == old(net.log) + WriteWire(e.id, env)
    ensures answered == (if env.sent == Clean then env.write else None)
        && (answered.Some? ==> InState(journal.file.visible, e.id, Sent))
  {
    hide InState;
    t := AtSendWrite(r, s, journal.file.State(), net.log, p, q, e);
    net.log := net.log + [WriteSent(e.id)];
    t := AtReceiveAnswer(r, t, journal.file.State(), net.log, p, q.(pc := AwaitingAnswer), e, env.write);
    if env.write.None? {
      return None, t;
    }
    var status := env.write.value;
    net.log := net.log + [WriteAnswered(e.id, status)];
    var ok;
    ok, t := ConfirmPhase(e, env, status, journal, r, t, net.log, p, q.(pc := MarkingSent(status)));
    if !ok {
      return None, t;
    }
    net.log := net.log + [SentStored(e.id)];
    return env.write, t;
  }

  /** From the intent to the confirmed answer. None leaves the approval: nothing
      was sent, or the outcome stays unresolved in the journal. */
  method SendPhase(e: Entry, env: Answers, journal: WriteJournal, net: Network, ghost r: iset<Sys>, ghost s: Sys,
          ghost p: nat, ghost q: Proc)
    returns (answered: Option<int>, ghost t: Sys)
    requires Closed(r) && At(r, s, journal.file.State(), net.log, p, q) && On(q, e) && q.pc == Recording
    requires journal as object != net && journal.file as object != net
    modifies journal, journal.file, net
    ensures At(r, t, journal.file.State(), net.log, p,
        match answered case None => Advance(q) case Some(status) => q.(pc := WaitingToClean(status)))
    ensures var goes := GoesOut(old(journal.file.visible), e, env);
            && net.log == old(net.log) + (if goes then WriteWire(e.id, env) else [])
            && answered == (if goes && env.sent == Clean then env.write else None)
    ensures answered.Some? ==> InState(journal.file.visible, e.id, Sent)
  {
    hide GoesOut, InState, WriteWire;
    var cleared;
    cleared, t := RecordPhase(e, env, journal, r, s, net.log, p, q);
    if !cleared {
      return None, t;
    }
    answered, t := WritePhase(e, env, journal, net, r, t, p, q.(pc := Writing));
  }

  /** The cleanup request itself, once the budget granted it. */
  method RequestCleanup(e: Entry, env: Answers, status: int, journal: WriteJournal, net: Network, ghost r: iset<Sys>,
          ghost s: Sys, ghost p: nat, ghost q: Proc)
    returns (succeeded: bool, ghost t: Sys)
    requires Closed(r) && At(r, s, journal.file.State(), net.log, p, q) && On(q, e) && q.pc == Cleaning(status)
    requires journal as object != net && journal.file as object != net
    modifies net
    ensures At(r, t, journal.file.State(), net.log, p, q.(pc := MarkingCleanup(status, succeeded)))
    ensures net.log == old(net.log) + [CleanupSent(e.id)]
        + if env.cleanup.Some? then [CleanupAnswered(e.id, env.cleanup.value)] else []
    ensures succeeded <==> env.cleanup.Some? && Success(env.cleanup.value)
  {
    t := AtSendCleanup(r, s, journal.file.State(), net.log, p, q, e, status);
    net.log := net.log + [CleanupSent(e.id)];
    t := AtReceiveCleanup(r, t, journal.file.State(), net.log, p, q.(pc := AwaitingCleanup(status)), e, status,
      env.cleanup);
    succeeded := env.cleanup.Some? && Success(env.cleanup.value);
    if env.cleanup.Some? {
      net.log := net.log + [CleanupAnswered(e.id, env.cleanup.value)];
    }
  }

  /** MarkCleanup, with its outcome. */
  method StoreOutcomePhase(e: Entry, env: Answers, status: int, succeeded: bool, journal: WriteJournal, net: Network,
          ghost r: iset<Sys>, ghost s: Sys, ghost p: nat, ghost q: Proc)
    returns (stored: bool, ghost t: Sys)
    requires Closed(r) && At(r, s, journal.file.State(), net.log, p, q) && On(q, e)
        && q.pc == MarkingCleanup(status, succeeded)
    requires journal as object != net && journal.file as object != net
    requires InState(journal.file.visible, e.id, Sent)
    modifies journal, journal.file, net
    ensures At(r, t, journal.file.State(), net.log, p, Advance(q))
    ensures net.log == old(net.log) + if stored then [CleanupStored(e.id, succeeded)] else []
    ensures stored <==> env.outcome == Clean
  {
    hide WithState, InState;
    StateIsThere(journal.file.State(), e.id, Sent, CleanupState(succeeded));
    stored := journal.MarkCleanup(e.id, succeeded, env.outcome);
    t := AtStoreCleanup(r, s, old(journal.file.State()), net.log, p, q, e, status, succeeded, env.outcome);
    if stored {
      net.log := net.log + [CleanupStored(e.id, succeeded)];
    }
  }

  /** The budget ended: the cleanup is recorded as failed, if it can be. */
  method GiveUpCleanup(e: Entry, env: Answers, status: int, journal: WriteJournal, net: Network, ghost r: iset<Sys>,
          ghost s: Sys, ghost p: nat, ghost q: Proc)
    returns (ghost t: Sys)
    requires Closed(r) && At(r, s, journal.file.State(), net.log, p, q) && On(q, e) && q.pc == WaitingToClean(status)
    requires journal as object != net && journal.file as object != net
    requires InState(journal.file.visible, e.id, Sent)
    modifies journal, journal.file, net
    ensures At(r, t, journal.file.State(), net.log, p, Advance(q))
    ensures net.log == old(net.log) + if env.outcome == Clean then [CleanupStored(e.id, false)] else []
  {
    hide WithState, InState;
    StateIsThere(journal.file.State(), e.id, Sent, CleanupFailed);
    var stored := journal.MarkCleanup(e.id, false, env.outcome);
    t := AtWaitCleanup(r, s, old(journal.file.State()), net.log, p, q, e, status, false, env.outcome);
    if stored {
      net.log := net.log + [CleanupStored(e.id, false)];
    }
  }

  /** The declared cleanup of a confirmed write. */
  method CleanPhase(e: Entry, env: Answers, status: int, journal: WriteJournal, net: Network, ghost r: iset<Sys>,
          ghost s: Sys, ghost p: nat, ghost q: Proc)
    returns (ok: bool, ghost t: Sys)
    requires Closed(r) && At(r, s, journal.file.State(), net.log, p, q) && On(q, e) && q.pc == WaitingToClean(status)
    requires journal as object != net && journal.file as object != net
    requires InState(journal.file.visible, e.id, Sent)
    modifies journal, journal.file, net
    ensures At(r, t, journal.file.State(), net.log, p, Advance(q))
    ensures net.log == old(net.log) + CleanupWire(e.id, env)
    ensures ok <==> env.cleanupGranted && env.cleanup.Some? && 200 <= env.cleanup.value < 300 && env.outcome == Clean
  {
    hide Closed, At, InState;
    if !env.cleanupGranted {
      t := GiveUpCleanup(e, env, status, journal, net, r, s, p, q);
      return false, t;
    }
    t := AtWaitCleanup(r, s, journal.file.State(), net.log, p, q, e, status, true, env.outcome);
    var succeeded;
    succeeded, t := RequestCleanup(e, env, status, journal, net, r, t, p, q.(pc := Cleaning(status)));
    var stored;
    stored, t := StoreOutcomePhase(e, env, status, succeeded, journal, net, r, t, p,
      q.(pc := MarkingCleanup(status, succeeded)));
    ok := stored && succeeded;
  }

  ghost predicate AllOf(events: seq<Event>, key: string) {
    forall e :: e in events ==> e.key == key
  }

  /** The events of a cleanup that succeeded and was stored. */
  ghost predicate CleanCycle(events: seq<Event>, key: string) {
    && |events| == 3 && events[0] == CleanupSent(key)
    && events[1].CleanupAnswered? && events[1].key == key && 200 <= events[1].status < 300
    && events[2] == CleanupStored(key, true)
  }

  /** The events of an approval that went all the way. */
  ghost predicate FullCycle(events: seq<Event>, key: string) {
    && |events| == 6 && events[0] == WriteSent(key)
    && events[1].WriteAnswered? && events[1].key == key && 200 <= events[1].status < 300
    && events[2] == SentStored(key) && CleanCycle(events[3..], key)
  }

  /** The result that the events of an approval call for. */
  ghost function StatusOf(events: seq<Event>, key: string): Status {
    if |events| < 3 || events[0] != WriteSent(key) || !events[1].WriteAnswered? || events[2] != SentStored(key)
    then Skipped
    else if !CleanCycle(events[3..], key) then CleanupIncomplete
    else if 200 <= events[1].status < 300 then Completed
    else Written
  }

  /** Completed is a full cycle: no answer of another status is among its events. */
  lemma {:induction false} CompletedExactly(events: seq<Event>, key: string)
    requires AllOf(events, key)
    ensures StatusOf(events, key) == Completed <==> FullCycle(events, key)
    ensures StatusOf(events, key) == Completed ==>
        forall e :: e in events && (e.WriteAnswered? || e.CleanupAnswered?) ==> 200 <= e.status < 300
  {
    if |events| > 1 {
      assert events[1] in events;
    }
    if FullCycle(events, key) {
      assert forall k :: 3 <= k < |events| ==> events[k] == events[3..][k - 3];
    }
  }

  /** The result of what reaches the wire, by the answers alone. */
  lemma {:induction false} WireStatus(key: string, env: Answers)
    ensures AllOf(Wire(key, env), key) && Wire(key, env) != []
    ensures StatusOf(Wire(key, env), key) ==
            if env.write.None? || env.sent != Clean then Skipped
            else if !env.cleanupGranted || env.cleanup.None? || !(200 <= env.cleanup.value < 300)
              || env.outcome != Clean then CleanupIncomplete
            else if 200 <= env.write.value < 300 then Completed
            else Written
  {
    var tail := CleanupWire(key, env);
    if env.write.Some? && env.sent == Clean {
      assert Wire(key, env) == WriteWire(key, env) + tail;
      assert Wire(key, env)[3..] == tail;
    }
  }

  /** The journaled exchange of one approval that passed the checks. */
  method Exchange(e: Entry, env: Answers, journal: WriteJournal, net: Network, ghost r: iset<Sys>, ghost s: Sys,
          ghost p: nat, ghost q: Proc)
    returns (status: Status, ghost t: Sys)
    requires Closed(r) && At(r, s, journal.file.State(), net.log, p, q) && On(q, e) && q.pc == Recording
    requires journal as object != net && journal.file as object != net
    modifies journal, journal.file, net
    ensures At(r, t, journal.file.State(), net.log, p, Advance(q))
    ensures var part := if GoesOut(old(journal.file.visible), e, env) then Wire(e.id, env) else [];
            net.log == old(net.log) + part && AllOf(part, e.id) && status == StatusOf(part, e.id)
    ensures |net.log| > |old(net.log)| <==> GoesOut(old(journal.file.visible), e, env)
  {
    hide Closed, At, GoesOut, AllOf, StatusOf, InState, WriteWire, CleanupWire;
    WireStatus(e.id, env);
    NothingSent(e.id);
    var answered;
    answered, t := SendPhase(e, env, journal, net, r, s, p, q);
    if answered.None? {
      return Skipped, t;
    }
    var code := answered.value;
    ghost var sent := net.log;
    var cleaned;
    cleaned, t := CleanPhase(e, env, code, journal, net, r, t, p, q.(pc := WaitingToClean(code)));
    status := if !cleaned then CleanupIncomplete else if Success(code) then Completed else Written;
  }

  lemma {:induction false} NothingSent(key: string)
    ensures AllOf([], key) && StatusOf([], key) == Skipped
  {
  }

  /** What the events of one approval and its result say. */
  ghost predicate Outcome(permitted: bool, key: string, result: Status, events: seq<Event>) {
    && AllOf(events, key)
    && (events != [] ==> permitted)
    && result == StatusOf(events, key)
  }

  /** One approval. It completes exactly when its events are the full cycle. */
  method RunOne(scope: AppScope, a: Approval, env: Answers, base: Option<Url>, ip: IpTable, journal: WriteJournal,
          net: Network, ghost r: iset<Sys>, ghost s: Sys, ghost p: nat, ghost q: Proc)
    returns (status: Status, ghost t: Sys, ghost part: seq<Event>)
    requires MatchedAt(scope, a, env, base, ip)
    requires Closed(r) && At(r, s, journal.file.State(), net.log, p, q) && On(q, a.entry) && q.pc == Checking
    requires journal as object != net && journal.file as object != net
    modifies journal, journal.file, net
    ensures At(r, t, journal.file.State(), net.log, p, Advance(q))
    ensures part == if Passes(env, Permitted(scope, a, base, ip)) && GoesOut(old(journal.file.visible), a.entry, env)
                    then Wire(a.entry.id, env) else []
    ensures net.log == old(net.log) + part && Outcome(Permitted(scope, a, base, ip), a.entry.id, status, part)
  {
    hide Permitted, Matched, GoesOut;
    var passed := Checks(scope, a, env, base, ip);
    part := [];
    t := AtCheck(r, s, journal.file.State(), net.log, p, q, a.entry, passed);
    if !passed {
      return Skipped, t, [];
    }
    status, t := Exchange(a.entry, env, journal, net, r, t, p, q.(pc := Recording));
    part := net.log[|old(net.log)|..];
  }

  /** The guards of the runner: what is configured and what the file system lets it do. */
  datatype Setup = Setup(
      typed: bool, testEnvironment: bool, fixtures: bool, readable: bool, imported: Fault, evidence: bool,
      persisted: bool)

  function Work(approvals: seq<Approval>): seq<Entry> {
    seq(|approvals|, i requires 0 <= i < |approvals| => approvals[i].entry)
  }

  /** Each approval's events, one after the other. */
  ghost function Flat(parts: seq<seq<Event>>): seq<Event> {
    if parts == [] then [] else Flat(parts[..|parts| - 1]) + parts[|parts| - 1]
  }

  lemma {:induction false} FlatMore(before: seq<Event>, parts: seq<seq<Event>>, part: seq<Event>)
    ensures before + Flat(parts + [part]) == before + Flat(parts) + part
  {
    assert (parts + [part])[..|parts + [part]| - 1] == parts;
  }

  ghost function Permits(scope: AppScope, approvals: seq<Approval>, base: Option<Url>, ip: IpTable)
    : (permits: seq<bool>)
    ensures |permits| == |approvals|
  {
    seq(|approvals|, i requires 0 <= i < |approvals| => Permitted(scope, approvals[i], base, ip))
  }

  /** What each approval did, and what its result says about it. */
  ghost predicate Accounted(permits: seq<bool>, approvals: seq<Approval>, results: seq<Status>,
          parts: seq<seq<Event>>) {
    && |results| == |parts| <= |approvals| == |permits|
    && forall i {:trigger Outcome(permits[i], approvals[i].entry.id, results[i], parts[i])} :: 0 <= i < |results| ==>
         Outcome(permits[i], approvals[i].entry.id, results[i], parts[i])
  }

  lemma {:induction false} AccountedMore(permits: seq<bool>, approvals: seq<Approval>, results: seq<Status>,
          parts: seq<seq<Event>>, result: Status, part: seq<Event>)
    requires Accounted(permits, approvals, results, parts) && |results| < |approvals|
    requires Outcome(permits[|results|], approvals[|results|].entry.id, result, part)
    ensures Accounted(permits, approvals, results + [result], parts + [part])
  {
  }

  predicate AllCompleted(results: seq<Status>) {
    forall i :: 0 <= i < |results| ==> results[i] == Completed
  }

  lemma {:induction false} CompletedMore(results: seq<Status>, result: Status)
    ensures AllCompleted(results + [result]) <==> AllCompleted(results) && result == Completed
  {
    var more := results + [result];
    assert more[|results|] == result;
    assert forall i :: 0 <= i < |results| ==> more[i] == results[i];
  }

  ghost predicate MatchedAt(scope: AppScope, a: Approval, env: Answers, base: Option<Url>, ip: IpTable) {
    && Matched(scope, ScopedUrl(base, a.path), ip, env.matched)
    && Matched(scope, ScopedUrl(base, a.cleanupPath), ip, env.cleanupMatched)
  }

  ghost predicate AllMatched(scope: AppScope, approvals: seq<Approval>, env: seq<Answers>, base: Option<Url>,
          ip: IpTable) {
    |env| == |approvals| && forall i :: 0 <= i < |env| ==> MatchedAt(scope, approvals[i], env[i], base, ip)
  }

  /** The loop over the approvals, on a journal that was opened. */
  method Loop(scope: AppScope, approvals: seq<Approval>, env: seq<Answers>, base: Option<Url>, ip: IpTable,
          journal: WriteJournal, net: Network, ghost permits: seq<bool>, ghost r: iset<Sys>, ghost s: Sys, ghost p: nat)
    returns (results: seq<Status>, failures: nat, ghost parts: seq<seq<Event>>, ghost t: Sys)
    requires AllMatched(scope, approvals, env, base, ip) && Closed(r)
    requires permits == Permits(scope, approvals, base, ip)
    requires At(r, s, journal.file.State(), net.log, p, Proc(Work(approvals), 0, Checking))
    requires journal as object != net && journal.file as object != net
    modifies journal, journal.file, net
    ensures t in r && t.disk == journal.file.State() && t.log == net.log
    ensures |results| == |approvals| && Accounted(permits, approvals, results, parts)
    ensures net.log == old(net.log) + Flat(parts)
    ensures failures == 0 <==> AllCompleted(results)
  {
    results, failures, parts, t := [], 0, [], s;
    assert Flat(parts) == [] && AllCompleted(results);
    hide Permitted, Matched, FullCycle, GoesOut, Outcome, AllCompleted, Flat, MatchedAt;
    for i := 0 to |approvals|
      invariant |results| == i && Accounted(permits, approvals, results, parts)
      invariant At(r, t, journal.file.State(), net.log, p, Proc(Work(approvals), i, Checking))
      invariant net.log == old(net.log) + Flat(parts)
      invariant failures == 0 <==> AllCompleted(results)
    {
      var status;
      ghost var part;
      status, t, part := RunOne(scope, approvals[i], env[i], base, ip, journal, net, r, t, p,
        Proc(Work(approvals), i, Checking));
      FlatMore(old(net.log), parts, part);
      CompletedMore(results, status);
      AccountedMore(permits, approvals, results, parts, status, part);
      if status != Completed {
        failures := failures + 1;
      }
      results, parts := results + [status], parts + [part];
    }
  }

  /** The whole runner. It says completed only for a full cycle of every approval,
      in order and in scope, and all it does is a run of the write machine. */
  method RunApprovals(scope: Option<AppScope>, approvals: seq<Approval>, setup: Setup, env: seq<Answers>,
          base: Option<Url>, ip: IpTable, prior: seq<Entry>, file: JournalFile, net: Network, ghost s: Sys,
          ghost p: nat)
    returns (verdict: Verdict, results: seq<Status>, ghost parts: seq<seq<Event>>, ghost t: Sys)
    requires scope.Some? ==> AllMatched(scope.value, approvals, env, base, ip)
    requires s.disk == file.State() && s.log == net.log && s.legacy == prior && p !in s.procs
    modifies file, net
    ensures t in Reachable(s) && t.disk == file.State() && t.log == net.log && net.log == old(net.log) + Flat(parts)
    ensures verdict == RunSkipped <==> approvals == []
    ensures net.log != old(net.log) || verdict == RunCompleted ==>
      && setup.typed && setup.testEnvironment && scope.Some?
      && |results| == |approvals| && Accounted(Permits(scope.value, approvals, base, ip), approvals, results, parts)
    ensures verdict == RunCompleted ==> AllCompleted(results)
    ensures results != [] && AllCompleted(results) && setup.persisted ==> verdict == RunCompleted
  {
    results, parts, t := [], [], s;
    ghost var r := Reachable(s);
    ReachableClosed(s);
    if approvals == [] {
      return RunSkipped, results, parts, t;
    }
    if !setup.typed || !setup.testEnvironment || scope.None? || !setup.fixtures {
      return RunFailed, results, parts, t;
    }
    var journal := WriteJournal.Open(file, setup.readable);
    if journal == null {
      return RunFailed, results, parts, t;
    }
    var ok := journal.ImportPrior(prior, setup.imported);
    t := Do(s, Open(p, Work(approvals), setup.imported));
    assert Stays(r, s);
    if !ok || !setup.evidence {
      return RunFailed, results, parts, t;
    }
    var failures;
    results, failures, parts, t :=
      Loop(scope.value, approvals, env, base, ip, journal, net, Permits(scope.value, approvals, base, ip), r, t, p);
    verdict := if !setup.persisted || failures > 0 then RunFailed else RunCompleted;
  }

  /** A run of the runner after any history of the system: whatever ran, crashed or
      was restarted before, no write and no cleanup goes out twice. */
  lemma {:induction false} RunnerSendsAtMostOnce(s0: Sys, steps: seq<Step>, t: Sys, key: string)
    requires Start(s0) && t in Reachable(Run(s0, steps))
    ensures Count(t.log, WriteSent(key)) <= 1 && Count(t.log, CleanupSent(key)) <= 1 && Ordered(t.log)
    ensures key in Older(s0) ==> WriteSent(key) !in t.log && CleanupSent(key) !in t.log
  {
    var more :| Run(Run(s0, steps), more) == t;
    RunAppend(s0, steps, more);
    AtMostOnce(s0, steps + more, key);
  }

  /** Six events of a log, from `at` on: write and cleanup of one approval, each sent,
      answered with a status from 200 to 299, and stored. */
  ghost predicate SixEvents(log: seq<Event>, at: nat, key: string) {
    && at + 6 <= |log|
    && log[at] == WriteSent(key) && log[at + 1].WriteAnswered? && 200 <= log[at + 1].status < 300
    && log[at + 2] == SentStored(key)
    && log[at + 3] == CleanupSent(key) && log[at + 4].CleanupAnswered? && 200 <= log[at + 4].status < 300
    && log[at + 5] == CleanupStored(key, true) && log[at + 1].key == log[at + 4].key == key
  }

  lemma {:induction false} CycleIsSix(log: seq<Event>, at: nat, key: string)
    requires at + 6 <= |log| && FullCycle(log[at..at + 6], key)
    ensures SixEvents(log, at, key)
  {
    var part := log[at..at + 6];
    assert forall k :: 0 <= k < 6 ==> part[k] == log[at + k];
    assert forall k :: 0 <= k < 3 ==> part[3..][k] == part[3 + k];
  }

  /** A completed run, event by event: the log grew by exactly six events for each
      approval, in the order of the approvals. */
  lemma {:induction false} CompletedIsFullCycles(scope: AppScope, approvals: seq<Approval>, base: Option<Url>,
          ip: IpTable, results: seq<Status>, parts: seq<seq<Event>>)
    requires Accounted(Permits(scope, approvals, base, ip), approvals, results, parts)
    requires AllCompleted(results)
    ensures |Flat(parts)| == 6 * |results|
    ensures forall i :: 0 <= i < |results| ==>
      SixEvents(Flat(parts), 6 * i, approvals[i].entry.id) && Permitted(scope, approvals[i], base, ip)
  {
    hide Permitted, SixEvents, Flat;
    forall i | 0 <= i < |results|
      ensures FullCycle(parts[i], approvals[i].entry.id) && Permitted(scope, approvals[i], base, ip)
    {
      assert Outcome(Permits(scope, approvals, base, ip)[i], approvals[i].entry.id, results[i], parts[i]);
      CompletedExactly(parts[i], approvals[i].entry.id);
    }
    FlatOfSix(parts);
    forall i | 0 <= i < |results|
      ensures SixEvents(Flat(parts), 6 * i, approvals[i].entry.id)
    {
      assert Flat(parts)[6 * i..6 * i + 6] == parts[i];
      CycleIsSix(Flat(parts), 6 * i, approvals[i].entry.id);
    }
  }

  lemma {:induction false} FlatOfSix(parts: seq<seq<Event>>)
    requires forall i :: 0 <= i < |parts| ==> |parts[i]| == 6
    ensures |Flat(parts)| == 6 * |parts|
    ensures forall i :: 0 <= i < |parts| ==> Flat(parts)[6 * i..6 * i + 6] == parts[i]
  {
    if parts != [] {
      var n := |parts| - 1;
      FlatOfSix(parts[..n]);
      var all, init := Flat(parts), Flat(parts[..n]);
      forall i | 0 <= i < |parts|
        ensures all[6 * i..6 * i + 6] == parts[i]
      {
        if i < n {
          assert parts[..n][i] == parts[i];
          assert all[6 * i..6 * i + 6] == init[6 * i..6 * i + 6];
        } else {
          assert all[6 * n..6 * n + 6] == parts[n];
        }
      }
    }
  }

  /** Where a request of the runner leads: to a stored origin and below its prefix,
      under no exclusion, and to the segments that the operation makes of those of
      the application. It stays below the application exactly when the segments
      that the operation leaves come again. */
  ghost predicate LeadsIntoScope(s: AppScope, verb: string, base: Url, operation: string, ip: IpTable) {
    && ScopedPath(base.path, operation).Some?
    && var path := ScopedPath(base.path, operation).value;
       var dest := ParseDestination(Some(base.(path := path)), ip);
       var from, to, net := Segments(base.path), Segments(path), NetOfOperation(operation);
       && dest.Some?
       && (forall e :: e in s.exclusions ==>
          !Bars(s, e, UpperAll(Trim(verb)), base.(path := path), dest.value.port, ip))
       && (exists o :: o in s.origins && Names(base.(path := path), o, ip) && Segments(o.pathPrefix) <= to)
       && to == Moved(from, net) && (from <= to <==> from[Left(from, net)..] <= net.down)
  }

  lemma {:induction false} InScopeLeads(os: seq<ApprovedOrigin>, es: seq<Exclusion>, verb: string, base: Option<Url>,
          operation: string, ip: IpTable)
    requires InScope(NewAppScope(os, es, ip), verb, ScopedUrl(base, operation), ip)
    ensures base.Some? && LeadsIntoScope(NewAppScope(os, es, ip), verb, base.value, operation, ip)
  {
    hide NewAppScope, AllowsTo, ExcludedTo, Bars, Names, Segments, NetOfOperation, Moved, ScopedPath,
      ParseDestination;
    var u := ScopedUrl(base, operation).value;
    AllowedExactly(os, es, u, ip);
    ExcludedExactly(os, es, UpperAll(Trim(verb)), u, ip);
    NothingExcluded(NewAppScope(os, es, ip), UpperAll(Trim(verb)), ParseDestination(Some(u), ip).value);
    StaysBelowExactly(base.value.path, operation);
  }

  /** Both requests of an approval that has events lead into the scope. */
  lemma {:induction false} EventsStayInScope(os: seq<ApprovedOrigin>, es: seq<Exclusion>, approvals: seq<Approval>,
          base: Option<Url>, ip: IpTable, results: seq<Status>, parts: seq<seq<Event>>, i: nat)
    requires Accounted(Permits(NewAppScope(os, es, ip), approvals, base, ip), approvals, results, parts)
    requires i < |results| && parts[i] != []
    ensures approvals[i].verb in {"POST", "PUT", "PATCH", "DELETE"}
    ensures approvals[i].cleanupVerb in {"PUT", "PATCH", "DELETE"}
    ensures base.Some? && var s, a := NewAppScope(os, es, ip), approvals[i];
            && LeadsIntoScope(s, a.verb, base.value, a.path, ip)
            && LeadsIntoScope(s, a.cleanupVerb, base.value, a.cleanupPath, ip)
  {
    hide NewAppScope, InScope, LeadsIntoScope, ScopedUrl;
    var s, a := NewAppScope(os, es, ip), approvals[i];
    assert Outcome(Permits(s, approvals, base, ip)[i], a.entry.id, results[i], parts[i]);
    assert Permitted(s, a, base, ip);
    InScopeLeads(os, es, a.verb, base, a.path, ip);
    InScopeLeads(os, es, a.cleanupVerb, base, a.cleanupPath, ip);
  }
}
