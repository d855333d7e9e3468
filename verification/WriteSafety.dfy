/** Safety of the write machine over every run: nothing is sent twice, nothing is
    cleaned up before it was answered and confirmed, and what an older run
    journaled is never sent again. */
module WriteSafety {
  import opened Wrappers
  import opened WriteJournals
  import opened WriteMachine

  // ----- events ------------------------------------------------------------

  lemma {:induction false} CountAppend(log: seq<Event>, e: Event, x: Event)
    ensures Count(log + [e], x) == Count(log, x) + if x == e then 1 else 0
  {
  }

  lemma {:induction false} AnsweredAppend(log: seq<Event>, e: Event, key: string)
    requires Answered(log, key) || (e.WriteAnswered? && e.key == key && WriteSent(key) in log)
    ensures Answered(log + [e], key)
  {
    var next := log + [e];
    if Answered(log, key) {
      var i :| 0 <= i < |log| && log[i].WriteAnswered? && log[i].key == key && WriteSent(key) in log[..i];
      assert next[i] == log[i] && next[..i] == log[..i];
    } else {
      assert next[|log|] == e && next[..|log|] == log;
    }
  }

  lemma {:induction false} ClearedAppend(log: seq<Event>, e: Event, key: string)
    requires Cleared(log, key) || (e == SentStored(key) && Answered(log, key))
    ensures Cleared(log + [e], key)
  {
    var next := log + [e];
    if Cleared(log, key) {
      var i :| 0 <= i < |log| && log[i] == SentStored(key) && Answered(log[..i], key);
      assert next[i] == log[i] && next[..i] == log[..i];
    } else {
      assert next[|log|] == e && next[..|log|] == log;
    }
  }

  lemma {:induction false} CleanedAppend(log: seq<Event>, e: Event, key: string)
    requires Cleaned(log, key)
        || (e.CleanupAnswered? && e.key == key && 200 <= e.status < 300 && CleanupSent(key) in log)
    ensures Cleaned(log + [e], key)
  {
    var next := log + [e];
    if Cleaned(log, key) {
      var i :| 0 <= i < |log| && log[i].CleanupAnswered? && log[i].key == key && 200 <= log[i].status < 300
          && CleanupSent(key) in log[..i];
      assert next[i] == log[i] && next[..i] == log[..i];
    } else {
      assert next[|log|] == e && next[..|log|] == log;
    }
  }

  lemma {:induction false} OrderedAppend(log: seq<Event>, e: Event)
    requires Ordered(log) && (e.CleanupSent? ==> Cleared(log, e.key))
    ensures Ordered(log + [e])
  {
    var next := log + [e];
    forall i | 0 <= i < |next| && next[i].CleanupSent?
      ensures Cleared(next[..i], next[i].key)
    {
      if i < |log| {
        assert next[i] == log[i] && next[..i] == log[..i];
      } else {
        assert next[..i] == log;
      }
    }
  }

  // ----- the parts of a step -----------------------------------------------

  ghost predicate Free(s: Sys, key: string) {
    forall p :: p in s.procs && Holding(s.procs[p]) ==> KeyOf(s.procs[p]) != key
  }

  lemma {:induction false} DieKeeps(s: Sys, p: nat, older: set<string>)
    requires Inv(s, older)
    ensures Inv(Do(s, Die(p)), older)
    ensures p in s.procs && Holding(s.procs[p]) ==> Free(Do(s, Die(p)), KeyOf(s.procs[p]))
  {
    var s' := Do(s, Die(p));
    forall q | q in s'.procs && Holding(s'.procs[q])
      ensures Owns(s', q, older)
    {
      assert Owns(s, q, older);
    }
  }

  /** A process takes the place `q`; the operation it holds, if any, is its own. */
  lemma {:induction false} PutKeeps(s: Sys, p: nat, q: Proc, older: set<string>)
    requires Inv(s, older) && p !in s.procs && Ids(s.legacy) <= Ids(s.disk.visible)
    requires Holding(q) ==> Free(s, KeyOf(q)) && KeyOf(q) in Ids(s.disk.synced) && KeyOf(q) !in older && Knows(q, s.log)
    ensures Inv(Put(s, p, q), older)
  {
    var s' := Put(s, p, q);
    forall r | r in s'.procs && Holding(s'.procs[r])
      ensures Owns(s', r, older)
    {
      assert r != p ==> Owns(s, r, older);
    }
  }

  lemma {:induction false} DiskKeeps(s: Sys, disk: Disk, older: set<string>)
    requires Inv(s, older)
    requires Ids(s.disk.visible) <= Ids(disk.visible) && Ids(s.disk.synced) <= Ids(disk.synced) <= Ids(disk.visible)
    requires Truthful(disk.visible, s.log, older) && Truthful(disk.synced, s.log, older)
    ensures Inv(s.(disk := disk), older)
  {
    var s' := s.(disk := disk);
    forall r | r in s'.procs && Holding(s'.procs[r])
      ensures Owns(s', r, older)
    {
      assert Owns(s, r, older);
    }
  }

  lemma {:induction false} TruthfulAppend(entries: seq<Entry>, log: seq<Event>, e: Event, older: set<string>)
    requires Truthful(entries, log, older)
    ensures Truthful(entries, log + [e], older)
  {
    forall x | x in entries && x.id !in older && x.state != Intent
      ensures Answered(log + [e], x.id)
    {
      AnsweredAppend(log, e, x.id);
    }
    forall x | x in entries && x.id !in older && x.state == CleanupDone
      ensures Cleaned(log + [e], x.id)
    {
      CleanedAppend(log, e, x.id);
    }
  }

  lemma {:induction false} KnowsAppend(q: Proc, log: seq<Event>, e: Event)
    requires Holding(q) && Knows(q, log) && KeyOf(q) != e.key
    ensures Knows(q, log + [e])
  {
    var key := KeyOf(q);
    CountAppend(log, e, WriteSent(key));
    CountAppend(log, e, CleanupSent(key));
    if Answered(log, key) {
      AnsweredAppend(log, e, key);
    }
    if Cleared(log, key) {
      ClearedAppend(log, e, key);
    }
    if Cleaned(log, key) {
      CleanedAppend(log, e, key);
    }
  }

  /** What must hold before an event may happen. */
  ghost predicate Allowed(s: Sys, e: Event, older: set<string>) {
    match e
    case WriteSent(k) => Count(s.log, e) == 0 && k in Ids(s.disk.synced) && k !in older
    case CleanupSent(k) => Count(s.log, e) == 0 && k in Ids(s.disk.synced) && k !in older && Cleared(s.log, k)
    case _ => true
  }

  lemma {:induction false} EventKeeps(s: Sys, e: Event, older: set<string>)
    requires Inv(s, older) && Free(s, e.key) && Allowed(s, e, older)
    ensures Inv(s.(log := s.log + [e]), older)
  {
    var log' := s.log + [e];
    var s' := s.(log := log');
    forall k
      ensures Count(log', WriteSent(k)) <= 1 && Count(log', CleanupSent(k)) <= 1
      ensures Count(log', WriteSent(k)) > 0 || Count(log', CleanupSent(k)) > 0 ==>
          k in Ids(s.disk.synced) && k !in older
    {
      CountAppend(s.log, e, WriteSent(k));
      CountAppend(s.log, e, CleanupSent(k));
    }
    OrderedAppend(s.log, e);
    TruthfulAppend(s.disk.visible, s.log, e, older);
    TruthfulAppend(s.disk.synced, s.log, e, older);
    forall r | r in s'.procs && Holding(s'.procs[r])
      ensures Owns(s', r, older)
    {
      assert Owns(s, r, older);
      KnowsAppend(s.procs[r], s.log, e);
    }
  }

  // ----- journal transitions -----------------------------------------------

  lemma {:induction false} InvDisk(s: Sys, older: set<string>)
    requires Inv(s, older)
    ensures Ids(s.disk.synced) <= Ids(s.disk.visible)
    ensures Truthful(s.disk.visible, s.log, older) && Truthful(s.disk.synced, s.log, older)
  {
  }

  /** What a commit of an intent leaves on disk. */
  lemma {:induction false} IntentOnDisk(d: Disk, e: Entry, fault: Fault)
    requires Ids(d.synced) <= Ids(d.visible)
    ensures var (disk, ok) := Apply(d, WithIntent(d.visible, e), fault);
            && Ids(d.visible) <= Ids(disk.visible) && Ids(d.synced) <= Ids(disk.synced) <= Ids(disk.visible)
            && (forall x :: x in disk.visible || x in disk.synced ==>
               x in d.visible || x in d.synced || x.state == Intent)
            && (ok ==> e.id !in Ids(d.visible) && e.id in Ids(disk.synced))
  {
    hide Find, Ids;
    NewIntent(d.visible, e);
    IdsAppend(d.visible, e.(state := Intent));
  }

  lemma {:induction false} NewIntent(entries: seq<Entry>, e: Entry)
    ensures WithIntent(entries, e).Some? ==> e.id !in Ids(entries)
  {
  }

  lemma {:induction false} IntentKeeps(s: Sys, e: Entry, fault: Fault, older: set<string>)
    requires Inv(s, older) && Ids(s.legacy) <= Ids(s.disk.visible)
    ensures var (disk, ok) := Apply(s.disk, WithIntent(s.disk.visible, e), fault);
            && Inv(s.(disk := disk), older)
            && Ids(s.disk.visible) <= Ids(disk.visible)
            && (ok ==> e.id !in Ids(s.disk.visible) && e.id in Ids(disk.synced))
  {
    hide Inv, Ids, Apply, WithIntent, Answered;
    InvDisk(s, older);
    IntentOnDisk(s.disk, e, fault);
    DiskKeeps(s, Apply(s.disk, WithIntent(s.disk.visible, e), fault).0, older);
  }

  lemma {:induction false} StateKeeps(s: Sys, key: string, from: WriteState, to: WriteState, fault: Fault,
          older: set<string>)
    requires Inv(s, older) && Answered(s.log, key) && (to == CleanupDone ==> Cleaned(s.log, key))
    ensures var disk := Apply(s.disk, WithState(s.disk.visible, key, from, to), fault).0;
            Inv(s.(disk := disk), older) && Ids(disk.visible) == Ids(s.disk.visible)
              && Ids(s.disk.synced) <= Ids(disk.synced)
  {
    var next := WithState(s.disk.visible, key, from, to);
    if next.Some? {
      var i := Find(s.disk.visible, key);
      IdsUpdate(s.disk.visible, i, s.disk.visible[i].(state := to));
      forall e | e in next.value && e.id !in older && e.state != Intent
        ensures Answered(s.log, e.id)
      {
        assert e.id == key || e in s.disk.visible;
      }
      forall e | e in next.value && e.id !in older && e.state == CleanupDone
        ensures Cleaned(s.log, e.id)
      {
        assert e.id == key || e in s.disk.visible;
      }
      DiskKeeps(s, Apply(s.disk, next, fault).0, older);
    }
  }

  // ----- the steps ---------------------------------------------------------

  lemma {:induction false} OpenKeeps(s: Sys, p: nat, work: seq<Entry>, fault: Fault, older: set<string>)
    requires Inv(s, older)
    ensures Inv(DoOpen(s, p, work, fault), older)
  {
    var next := Import(s.disk.visible, s.legacy);
    ImportKeeps(s.disk.visible, s.legacy);
    var (disk, ok) := if |next| == |s.disk.visible| then (s.disk, true) else Apply(s.disk, Some(next), fault);
    if p !in s.procs {
      assert Truthful(next, s.log, older) by {
        forall e | e in next && e.id !in older && e.state != Intent
          ensures Answered(s.log, e.id)
        {
          assert e in s.legacy ==> e.id in Ids(s.legacy);
        }
      }
      DiskKeeps(s, disk, older);
      if ok {
        assert |next| == |s.disk.visible| ==> next == s.disk.visible;
        PutKeeps(s.(disk := disk), p, Proc(work, 0, Checking), older);
      }
    }
  }

  /** Taking a process out, changing the rest, and putting it back. */
  lemma {:induction false} PutAfterDie(s: Sys, p: nat, q: Proc)
    ensures Put(Do(s, Die(p)), p, q) == Put(s, p, q)
  {
    assert (s.procs - {p})[p := q] == s.procs[p := q];
  }

  lemma {:induction false} RecordKeeps(s: Sys, p: nat, q: Proc, e: Entry, fault: Fault, older: set<string>)
    requires Inv(s, older) && Ready(s, p, Recording) && q == s.procs[p] && e == q.work[q.at]
    ensures Inv(DoRecord(s, p, q, e, fault), older)
  {
    var (disk, ok) := Apply(s.disk, WithIntent(s.disk.visible, e), fault);
    var q' := if ok then q.(pc := WaitingToWrite) else Advance(q);
    var rest := Do(s, Die(p));
    DieKeeps(s, p, older);
    IntentKeeps(rest, e, fault, older);
    if ok {
      NewIsFree(rest, e.id, older);
    }
    PutKeeps(rest.(disk := disk), p, q', older);
    PutAfterDie(s.(disk := disk), p, q');
  }

  /** Nobody holds an operation that is not journaled, and nothing was sent for it. */
  lemma {:induction false} NewIsFree(s: Sys, key: string, older: set<string>)
    requires Inv(s, older) && key !in Ids(s.disk.visible)
    ensures Free(s, key) && Count(s.log, WriteSent(key)) == 0 && Count(s.log, CleanupSent(key)) == 0
    ensures Ids(s.legacy) <= Ids(s.disk.visible) ==> key !in older
  {
    forall r | r in s.procs && Holding(s.procs[r])
      ensures KeyOf(s.procs[r]) != key
    {
      assert Owns(s, r, older);
    }
  }

  /** A process that holds an operation, taken out: the rest keeps the invariant
      and nobody else holds its operation. */
  lemma {:induction false} TakeOut(s: Sys, p: nat, older: set<string>)
    requires Inv(s, older) && p in s.procs && Holding(s.procs[p])
    ensures var rest, key := Do(s, Die(p)), KeyOf(s.procs[p]);
            && Inv(rest, older) && p !in rest.procs && Free(rest, key)
            && key in Ids(s.disk.synced) && key !in older && Knows(s.procs[p], s.log)
            && Ids(s.legacy) <= Ids(s.disk.visible)
  {
    assert Owns(s, p, older);
    DieKeeps(s, p, older);
  }

  /** A step that only moves the process. */
  lemma {:induction false} MoveKeeps(s: Sys, p: nat, q': Proc, older: set<string>)
    requires Inv(s, older) && p in s.procs
    requires Holding(q') ==> Holding(s.procs[p]) && KeyOf(q') == KeyOf(s.procs[p]) && Knows(q', s.log)
    ensures Inv(Put(s, p, q'), older)
  {
    DieKeeps(s, p, older);
    if Holding(q') {
      TakeOut(s, p, older);
    }
    PutKeeps(Do(s, Die(p)), p, q', older);
    PutAfterDie(s, p, q');
  }

  /** A step that logs one event of the operation held and moves the process. */
  lemma {:induction false} LogKeeps(s: Sys, p: nat, e: Event, q': Proc, older: set<string>)
    requires Inv(s, older) && p in s.procs && Holding(s.procs[p]) && e.key == KeyOf(s.procs[p]) && Allowed(s, e, older)
    requires Holding(q') ==> KeyOf(q') == e.key && Knows(q', s.log + [e])
    ensures Inv(Put(Log(s, e), p, q'), older)
  {
    var rest := Do(s, Die(p));
    TakeOut(s, p, older);
    EventKeeps(rest, e, older);
    PutKeeps(Log(rest, e), p, q', older);
    PutAfterDie(Log(s, e), p, q');
  }

  lemma {:induction false} SendWriteKeeps(s: Sys, p: nat, q: Proc, older: set<string>)
    requires Inv(s, older) && Ready(s, p, Writing) && q == s.procs[p]
    ensures Inv(Put(Log(s, WriteSent(KeyOf(q))), p, q.(pc := AwaitingAnswer)), older)
  {
    var e := WriteSent(KeyOf(q));
    TakeOut(s, p, older);
    assert (s.log + [e])[|s.log|] == e;
    CountAppend(s.log, e, CleanupSent(KeyOf(q)));
    LogKeeps(s, p, e, q.(pc := AwaitingAnswer), older);
  }

  lemma {:induction false} ReceiveAnswerKeeps(s: Sys, p: nat, q: Proc, answer: Option<int>, older: set<string>)
    requires Inv(s, older) && Ready(s, p, AwaitingAnswer) && q == s.procs[p]
    ensures Inv(DoReceiveAnswer(s, p, q, KeyOf(q), answer), older)
  {
    TakeOut(s, p, older);
    match answer
    case None => MoveKeeps(s, p, Advance(q), older);
    case Some(status) =>
      var e := WriteAnswered(KeyOf(q), status);
      AnsweredAppend(s.log, e, KeyOf(q));
      CountAppend(s.log, e, CleanupSent(KeyOf(q)));
      LogKeeps(s, p, e, q.(pc := MarkingSent(status)), older);
  }

  /** A journal transition of the operation held, in the rest of the system. */
  lemma {:induction false} HeldStateKeeps(s: Sys, p: nat, from: WriteState, to: WriteState, fault: Fault,
          older: set<string>)
    requires Inv(s, older) && p in s.procs && Holding(s.procs[p]) && Answered(s.log, KeyOf(s.procs[p]))
    requires to == CleanupDone ==> Cleaned(s.log, KeyOf(s.procs[p]))
    ensures var key := KeyOf(s.procs[p]);
            var disk := Apply(s.disk, WithState(s.disk.visible, key, from, to), fault).0;
            Inv(s.(disk := disk), older)
  {
    StateKeeps(s, KeyOf(s.procs[p]), from, to, fault, older);
  }

  lemma {:induction false} StoreSentKeeps(s: Sys, p: nat, q: Proc, status: int, fault: Fault, older: set<string>)
    requires Inv(s, older) && Ready(s, p, MarkingSent(status)) && q == s.procs[p]
    ensures Inv(DoStoreSent(s, p, q, KeyOf(q), status, fault), older)
  {
    var key := KeyOf(q);
    TakeOut(s, p, older);
    HeldStateKeeps(s, p, Intent, Sent, fault, older);
    var (disk, ok) := Apply(s.disk, WithState(s.disk.visible, key, Intent, Sent), fault);
    var s' := s.(disk := disk);
    if ok {
      ClearedAppend(s.log, SentStored(key), key);
      CountAppend(s.log, SentStored(key), CleanupSent(key));
      LogKeeps(s', p, SentStored(key), q.(pc := WaitingToClean(status)), older);
    } else {
      MoveKeeps(s', p, Advance(q), older);
    }
  }

  lemma {:induction false} ClearedAnswered(log: seq<Event>, key: string)
    requires Cleared(log, key)
    ensures Answered(log, key)
  {
    var i :| 0 <= i < |log| && log[i] == SentStored(key) && Answered(log[..i], key);
    var j :| 0 <= j < i && log[..i][j].WriteAnswered? && log[..i][j].key == key && WriteSent(key) in log[..i][..j];
    assert log[..i][..j] == log[..j];
  }

  lemma {:induction false} StoreOutcomeKeeps(s: Sys, p: nat, q: Proc, succeeded: bool, fault: Fault, older: set<string>)
    requires Inv(s, older) && p in s.procs && q == s.procs[p] && Holding(q)
        && ((q.pc.WaitingToClean? && !succeeded) || (q.pc.MarkingCleanup? && q.pc.succeeded == succeeded))
    ensures Inv(StoreOutcome(s, p, q, KeyOf(q), succeeded, fault), older)
  {
    var key := KeyOf(q);
    TakeOut(s, p, older);
    ClearedAnswered(s.log, key);
    HeldStateKeeps(s, p, Sent, CleanupState(succeeded), fault, older);
    var (disk, ok) := Apply(s.disk, WithState(s.disk.visible, key, Sent, CleanupState(succeeded)), fault);
    var s' := s.(disk := disk);
    if ok {
      LogKeeps(s', p, CleanupStored(key, succeeded), Advance(q), older);
    } else {
      MoveKeeps(s', p, Advance(q), older);
    }
  }

  lemma {:induction false} SendCleanupKeeps(s: Sys, p: nat, q: Proc, status: int, older: set<string>)
    requires Inv(s, older) && Ready(s, p, Cleaning(status)) && q == s.procs[p]
    ensures Inv(Put(Log(s, CleanupSent(KeyOf(q))), p, q.(pc := AwaitingCleanup(status))), older)
  {
    var e := CleanupSent(KeyOf(q));
    TakeOut(s, p, older);
    ClearedAppend(s.log, e, KeyOf(q));
    assert (s.log + [e])[|s.log|] == e;
    LogKeeps(s, p, e, q.(pc := AwaitingCleanup(status)), older);
  }

  lemma {:induction false} ReceiveCleanupKeeps(s: Sys, p: nat, q: Proc, status: int, answer: Option<int>,
          older: set<string>)
    requires Inv(s, older) && Ready(s, p, AwaitingCleanup(status)) && q == s.procs[p]
    ensures Inv(DoReceiveCleanup(s, p, q, KeyOf(q), status, answer), older)
  {
    TakeOut(s, p, older);
    match answer
    case None => MoveKeeps(s, p, q.(pc := MarkingCleanup(status, false)), older);
    case Some(code) =>
      var e := CleanupAnswered(KeyOf(q), code);
      ClearedAppend(s.log, e, KeyOf(q));
      if Success(code) {
        CleanedAppend(s.log, e, KeyOf(q));
      }
      LogKeeps(s, p, e, q.(pc := MarkingCleanup(status, Success(code))), older);
  }

  lemma {:induction false} OwnKeeps(s: Sys, p: nat, step: Step, older: set<string>)
    requires Inv(s, older) && p in s.procs && s.procs[p].at < |s.procs[p].work|
    ensures Inv(DoOwn(s, p, step), older)
  {
    hide Inv, DoRecord, DoReceiveAnswer, DoStoreSent, StoreOutcome, DoReceiveCleanup, Knows;
    var q := s.procs[p];
    match (step, q.pc)
    case (Check(_, passed), Checking) => MoveKeeps(s, p, if passed then q.(pc := Recording) else Advance(q), older);
    case (Record(_, fault), Recording) => RecordKeeps(s, p, q, q.work[q.at], fault, older);
    case (WaitWrite(_, granted), WaitingToWrite) =>
      TakeOut(s, p, older);
      MoveKeeps(s, p, if granted then q.(pc := Writing) else Advance(q), older);
    case (SendWrite(_), Writing) => SendWriteKeeps(s, p, q, older);
    case (ReceiveAnswer(_, answer), AwaitingAnswer) => ReceiveAnswerKeeps(s, p, q, answer, older);
    case (StoreSent(_, fault), MarkingSent(status)) => StoreSentKeeps(s, p, q, status, fault, older);
    case (WaitCleanup(_, granted, fault), WaitingToClean(status)) =>
      if granted {
        TakeOut(s, p, older);
        MoveKeeps(s, p, q.(pc := Cleaning(status)), older);
      } else {
        StoreOutcomeKeeps(s, p, q, false, fault, older);
      }
    case (SendCleanup(_), Cleaning(status)) => SendCleanupKeeps(s, p, q, status, older);
    case (ReceiveCleanup(_, answer), AwaitingCleanup(status)) => ReceiveCleanupKeeps(s, p, q, status, answer, older);
    case (StoreCleanup(_, fault), MarkingCleanup(_, succeeded)) => StoreOutcomeKeeps(s, p, q, succeeded, fault, older);
    case (_, _) =>
  }

  lemma {:induction false} PowerLossKeeps(s: Sys, older: set<string>)
    requires Inv(s, older)
    ensures Inv(Do(s, PowerLoss), older)
  {
  }

  /** Every step keeps the invariant. */
  lemma {:induction false} StepKeeps(s: Sys, step: Step, older: set<string>)
    requires Inv(s, older)
    ensures Inv(Do(s, step), older)
  {
    match step
    case Open(p, work, fault) => OpenKeeps(s, p, work, fault, older);
    case Die(p) => DieKeeps(s, p, older);
    case PowerLoss => PowerLossKeeps(s, older);
    case _ =>
      if step.p in s.procs && s.procs[step.p].at < |s.procs[step.p].work| {
        OwnKeeps(s, step.p, step, older);
      }
  }

  lemma {:induction false} RunKeeps(s: Sys, steps: seq<Step>, older: set<string>)
    requires Inv(s, older)
    ensures Inv(Run(s, steps), older)
  {
    if steps != [] {
      RunKeeps(s, steps[..|steps| - 1], older);
      StepKeeps(Run(s, steps[..|steps| - 1]), steps[|steps| - 1], older);
    }
  }

  // ----- the theorems ------------------------------------------------------

  /** A start: some journal on disk, older per-attempt journals beside it, no
      process alive, nothing sent yet. */
  ghost predicate Start(s: Sys) {
    s.disk.visible == s.disk.synced && s.log == [] && s.procs == map[]
  }

  function Older(s: Sys): set<string> {
    Ids(s.disk.synced) + Ids(s.legacy)
  }

  lemma {:induction false} StartInv(s: Sys)
    requires Start(s)
    ensures Inv(s, Older(s))
  {
    assert forall e :: e in s.disk.visible ==> e.id in Ids(s.disk.visible);
  }

  /** Over every run, whatever the interleaving, crashes, power losses, restarts
      and disk faults: each operation is written at most once and cleaned up at
      most once, an operation journaled earlier not at all, and every cleanup
      follows a confirmed answer to its write. */
  lemma {:induction false} AtMostOnce(s: Sys, steps: seq<Step>, key: string)
    requires Start(s)
    ensures var log := Run(s, steps).log;
            && Count(log, WriteSent(key)) <= 1 && Count(log, CleanupSent(key)) <= 1
            && (key in Older(s) ==> Count(log, WriteSent(key)) == 0 && Count(log, CleanupSent(key)) == 0)
            && Ordered(log)
  {
    StartInv(s);
    RunKeeps(s, steps, Older(s));
  }

  /** What was sent is on the synced disk: no crash and no power loss forgets it. */
  lemma {:induction false} SentIsDurable(s: Sys, steps: seq<Step>, key: string)
    requires Start(s) && Count(Run(s, steps).log, WriteSent(key)) > 0
    ensures key in Ids(Run(s, steps).disk.synced) && key in Ids(Run(s, steps).disk.visible)
  {
    StartInv(s);
    RunKeeps(s, steps, Older(s));
  }

  /** The resume guard: when no journal entry is unresolved, every write that was
      sent has been answered. */
  lemma {:induction false} ResolvedMeansAnswered(s: Sys, steps: seq<Step>, key: string)
    requires Start(s)
    requires forall e :: e in Run(s, steps).disk.visible ==> Settled(e)
    requires Count(Run(s, steps).log, WriteSent(key)) > 0
    ensures Answered(Run(s, steps).log, key)
  {
    var s' := Run(s, steps);
    StartInv(s);
    RunKeeps(s, steps, Older(s));
    assert key in Ids(s'.disk.visible);
    var e :| e in s'.disk.visible && e.id == key;
    assert Settled(e);
  }

  /** The resume guard, on the cleanups: when every journal entry is settled, the
      entry of a write that was sent declares no cleanup or holds its outcome; where
      that says done, the cleanup went out and was answered with 200 to 299. */
  lemma {:induction false} ResolvedMeansCleaned(s: Sys, steps: seq<Step>, key: string)
    requires Start(s) && Count(Run(s, steps).log, WriteSent(key)) > 0
    requires forall e :: e in Run(s, steps).disk.visible ==> Settled(e)
    ensures var s' := Run(s, steps);
            && key in Ids(s'.disk.visible)
            && forall e :: e in s'.disk.visible && e.id == key ==>
               || (e.state == Sent && e.cleanupVerb == "" && e.cleanupURL == "" && e.cleanupRef == "")
               || e.state == CleanupFailed || (e.state == CleanupDone && Cleaned(s'.log, key))
  {
    StartInv(s);
    RunKeeps(s, steps, Older(s));
  }

  /** The steps of one undisturbed write on the journal of a fresh process. */
  function OneWrite(p: nat, e: Entry): seq<Step> {
    [Open(p, [e], Clean), Check(p, true), Record(p, Clean), WaitWrite(p, true), SendWrite(p)]
  }

  /** The machine does send, and its journal is what stops it: an undisturbed run
      sends the write exactly when the journal takes the intent. */
  lemma {:induction false} FreshIsSent(s: Sys, p: nat, e: Entry)
    requires Start(s) && s.legacy == []
    ensures Run(s, OneWrite(p, e)).log == if WithIntent(s.disk.visible, e).Some? then [WriteSent(e.id)] else []
  {
    var steps := OneWrite(p, e);
    FreshOpens(s, p, e);
    assert Do(s, steps[0]).disk == s.disk && Do(s, steps[0]).log == [];
    FreshRecords(Do(s, steps[0]), p, e);
    FreshSends(Do(Do(Do(s, steps[0]), steps[1]), steps[2]), p, e);
    hide Do, WithIntent;
    FiveSteps(s, steps);
  }

  /** Systems that do not share their journal: each has taken one undisturbed write. */
  function LogsOf(starts: seq<Sys>, e: Entry): seq<Event> {
    if starts == [] then []
    else
      var n := |starts| - 1;
      LogsOf(starts[..n], e) + Run(starts[n], OneWrite(n, e)).log
  }

  function Taking(starts: seq<Sys>, e: Entry): nat {
    if starts == [] then 0
    else
      var n := |starts| - 1;
      Taking(starts[..n], e) + if WithIntent(starts[n].disk.visible, e).Some? then 1 else 0
  }

  /** So attempts that keep a journal each, as the workflow without a shared journal
      does, send one write once for every journal that takes the intent. */
  lemma {:induction false} EachJournalSends(starts: seq<Sys>, e: Entry)
    requires forall s :: s in starts ==> Start(s) && s.legacy == []
    ensures Count(LogsOf(starts, e), WriteSent(e.id)) == Taking(starts, e)
  {
    hide Start, WithIntent, Run, OneWrite;
    if starts != [] {
      var n := |starts| - 1;
      EachJournalSends(starts[..n], e);
      FreshIsSent(starts[n], n, e);
    }
  }

  lemma {:induction false} FreshOpens(s: Sys, p: nat, e: Entry)
    requires Start(s) && s.legacy == []
    ensures Do(s, Open(p, [e], Clean)) == Put(s, p, Proc([e], 0, Checking)) && s.log == []
  {
    hide Ids;
  }

  lemma {:induction false} FreshRecords(s: Sys, p: nat, e: Entry)
    requires p in s.procs && s.procs[p] == Proc([e], 0, Checking)
    ensures var t := Do(Do(s, Check(p, true)), Record(p, Clean));
            && t.log == s.log && p in t.procs
            && t.procs[p] == if WithIntent(s.disk.visible, e).Some? then Proc([e], 0, WaitingToWrite)
               else Proc([e], 1, Checking)
  {
    hide WithIntent;
  }

  lemma {:induction false} FreshSends(s: Sys, p: nat, e: Entry)
    requires p in s.procs
    ensures var t := Do(Do(s, WaitWrite(p, true)), SendWrite(p));
            && (s.procs[p] == Proc([e], 0, WaitingToWrite) ==> t.log == s.log + [WriteSent(e.id)])
            && (s.procs[p] == Proc([e], 1, Checking) ==> t.log == s.log)
  {
  }

  lemma {:induction false} FiveSteps(s: Sys, steps: seq<Step>)
    requires |steps| == 5
    ensures Run(s, steps) == Do(Do(Do(Do(Do(s, steps[0]), steps[1]), steps[2]), steps[3]), steps[4])
  {
    hide Do;
    assert steps[..4][..3] == steps[..3] && steps[..3][..2] == steps[..2] && steps[..2][..1] == steps[..1]
      && steps[..1][..0] == [];
    assert Run(s, steps[..1]) == Do(s, steps[0]);
    assert Run(s, steps[..2]) == Do(Run(s, steps[..1]), steps[1]);
    assert Run(s, steps[..3]) == Do(Run(s, steps[..2]), steps[2]);
    assert Run(s, steps[..4]) == Do(Run(s, steps[..3]), steps[3]);
  }
}
