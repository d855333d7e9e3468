/** Approved API writes as a machine over its steps: any number of processes run
    the loop of internal/scanner/apichecks_writes.go on one journal, each may die
    between any two steps, power may fail, and processes may be started again. */
module WriteMachine {
  import opened Wrappers
  import opened WriteJournals

  /** What the network saw and what the journal confirmed, in order. */
  datatype Event =
    | WriteSent(key: string)
    | WriteAnswered(key: string, status: int)
    | SentStored(key: string)
    | CleanupSent(key: string)
    | CleanupAnswered(key: string, status: int)
    | CleanupStored(key: string, succeeded: bool)

  /** Where a process stands on its current approval. */
  datatype Pc =
    | Checking
    | Recording
    | WaitingToWrite
    | Writing
    | AwaitingAnswer
    | MarkingSent(status: int)
    | WaitingToClean(status: int)
    | Cleaning(status: int)
    | AwaitingCleanup(status: int)
    | MarkingCleanup(status: int, succeeded: bool)

  /** One run of the loop: its approvals, as the journal entries they would make. */
  datatype Proc = Proc(work: seq<Entry>, at: nat, pc: Pc)

  datatype Sys = Sys(disk: Disk, legacy: seq<Entry>, log: seq<Event>, procs: map<nat, Proc>)

  datatype Step =
    | Open(p: nat, work: seq<Entry>, fault: Fault)
    | Check(p: nat, passed: bool)
    | Record(p: nat, fault: Fault)
    | WaitWrite(p: nat, granted: bool)
    | SendWrite(p: nat)
    | ReceiveAnswer(p: nat, answer: Option<int>)
    | StoreSent(p: nat, fault: Fault)
    | WaitCleanup(p: nat, granted: bool, fault: Fault)
    | SendCleanup(p: nat)
    | ReceiveCleanup(p: nat, answer: Option<int>)
    | StoreCleanup(p: nat, fault: Fault)
    | Die(p: nat)
    | PowerLoss

  predicate Success(status: int) {
    200 <= status < 300
  }

  function Advance(q: Proc): Proc {
    q.(at := q.at + 1, pc := Checking)
  }

  function Put(s: Sys, p: nat, q: Proc): Sys {
    s.(procs := s.procs[p := q])
  }

  predicate Ready(s: Sys, p: nat, pc: Pc) {
    p in s.procs && s.procs[p].at < |s.procs[p].work| && s.procs[p].pc == pc
  }

  /** The open of a run: older per-attempt journals are imported first. */
  function DoOpen(s: Sys, p: nat, work: seq<Entry>, fault: Fault): Sys {
    var next := Import(s.disk.visible, s.legacy);
    var (disk, ok) := if |next| == |s.disk.visible| then (s.disk, true) else Apply(s.disk, Some(next), fault);
    if p in s.procs then s
    else if ok then Put(s.(disk := disk), p, Proc(work, 0, Checking))
    else s.(disk := disk)
  }

  function DoRecord(s: Sys, p: nat, q: Proc, e: Entry, fault: Fault): Sys {
    var (disk, ok) := Apply(s.disk, WithIntent(s.disk.visible, e), fault);
    Put(s.(disk := disk), p, if ok then q.(pc := WaitingToWrite) else Advance(q))
  }

  function Log(s: Sys, e: Event): Sys {
    s.(log := s.log + [e])
  }

  /** An answer, or an error that leaves the outcome of the write unknown. */
  function DoReceiveAnswer(s: Sys, p: nat, q: Proc, key: string, answer: Option<int>): Sys {
    match answer
    case None => Put(s, p, Advance(q))
    case Some(status) => Put(Log(s, WriteAnswered(key, status)), p, q.(pc := MarkingSent(status)))
  }

  function DoStoreSent(s: Sys, p: nat, q: Proc, key: string, status: int, fault: Fault): Sys {
    var (disk, ok) := Apply(s.disk, WithState(s.disk.visible, key, Intent, Sent), fault);
    if ok then Put(Log(s.(disk := disk), SentStored(key)), p, q.(pc := WaitingToClean(status)))
    else Put(s.(disk := disk), p, Advance(q))
  }

  function CleanupState(succeeded: bool): WriteState {
    if succeeded then CleanupDone else CleanupFailed
  }

  function StoreOutcome(s: Sys, p: nat, q: Proc, key: string, succeeded: bool, fault: Fault): Sys {
    var (disk, ok) := Apply(s.disk, WithState(s.disk.visible, key, Sent, CleanupState(succeeded)), fault);
    var s' := s.(disk := disk);
    Put(if ok then Log(s', CleanupStored(key, succeeded)) else s', p, Advance(q))
  }

  function DoReceiveCleanup(s: Sys, p: nat, q: Proc, key: string, status: int, answer: Option<int>): Sys {
    match answer
    case None => Put(s, p, q.(pc := MarkingCleanup(status, false)))
    case Some(code) => Put(Log(s, CleanupAnswered(key, code)), p, q.(pc := MarkingCleanup(status, Success(code))))
  }

  /** A step of one process on the approval it is at. */
  function DoOwn(s: Sys, p: nat, step: Step): Sys
    requires p in s.procs && s.procs[p].at < |s.procs[p].work|
  {
    var q := s.procs[p];
    var e := q.work[q.at];
    match (step, q.pc)
    case (Check(_, passed), Checking) => Put(s, p, if passed then q.(pc := Recording) else Advance(q))
    case (Record(_, fault), Recording) => DoRecord(s, p, q, e, fault)
    case (WaitWrite(_, granted), WaitingToWrite) => Put(s, p, if granted then q.(pc := Writing) else Advance(q))
    case (SendWrite(_), Writing) => Put(Log(s, WriteSent(e.id)), p, q.(pc := AwaitingAnswer))
    case (ReceiveAnswer(_, answer), AwaitingAnswer) => DoReceiveAnswer(s, p, q, e.id, answer)
    case (StoreSent(_, fault), MarkingSent(status)) => DoStoreSent(s, p, q, e.id, status, fault)
    case (WaitCleanup(_, granted, fault), WaitingToClean(status)) =>
      if granted then Put(s, p, q.(pc := Cleaning(status))) else StoreOutcome(s, p, q, e.id, false, fault)
    case (SendCleanup(_), Cleaning(status)) => Put(Log(s, CleanupSent(e.id)), p, q.(pc := AwaitingCleanup(status)))
    case (ReceiveCleanup(_, answer), AwaitingCleanup(status)) => DoReceiveCleanup(s, p, q, e.id, status, answer)
    case (StoreCleanup(_, fault), MarkingCleanup(_, succeeded)) => StoreOutcome(s, p, q, e.id, succeeded, fault)
    case (_, _) => s
  }

  /** A step that is not enabled changes nothing, so every list of steps is a run. */
  function Do(s: Sys, step: Step): Sys {
    match step
    case Open(p, work, fault) => DoOpen(s, p, work, fault)
    case Die(p) => s.(procs := s.procs - {p})
    case PowerLoss => s.(disk := s.disk.(visible := s.disk.synced), procs := map[])
    case _ => if step.p in s.procs && s.procs[step.p].at < |s.procs[step.p].work| then DoOwn(s, step.p, step) else s
  }

  function Run(s: Sys, steps: seq<Step>): Sys {
    if steps == [] then s else Do(Run(s, steps[..|steps| - 1]), steps[|steps| - 1])
  }

  // ----- the invariant -----------------------------------------------------

  function Count(log: seq<Event>, e: Event): nat {
    multiset(log)[e]
  }

  /** Sent and then answered. */
  ghost predicate Answered(log: seq<Event>, key: string) {
    exists i :: 0 <= i < |log| && log[i].WriteAnswered? && log[i].key == key && WriteSent(key) in log[..i]
  }

  /** Answered and then confirmed as sent in the journal. */
  ghost predicate Cleared(log: seq<Event>, key: string) {
    exists i :: 0 <= i < |log| && log[i] == SentStored(key) && Answered(log[..i], key)
  }

  /** A cleanup went out and was then answered with success. */
  ghost predicate Cleaned(log: seq<Event>, key: string) {
    exists i :: 0 <= i < |log| && log[i].CleanupAnswered? && log[i].key == key && 200 <= log[i].status < 300
      && CleanupSent(key) in log[..i]
  }

  /** No cleanup goes out before its write was answered and marked sent. */
  ghost predicate Ordered(log: seq<Event>) {
    forall i :: 0 <= i < |log| && log[i].CleanupSent? ==> Cleared(log[..i], log[i].key)
  }

  predicate Holding(q: Proc) {
    q.at < |q.work| && q.pc != Checking && q.pc != Recording
  }

  function KeyOf(q: Proc): string
    requires Holding(q)
  {
    q.work[q.at].id
  }

  /** What a process knows of the operation it holds. */
  ghost predicate Knows(q: Proc, log: seq<Event>)
    requires Holding(q)
  {
    var key := KeyOf(q);
    match q.pc
    case WaitingToWrite => Count(log, WriteSent(key)) == 0 && Count(log, CleanupSent(key)) == 0
    case Writing => Count(log, WriteSent(key)) == 0 && Count(log, CleanupSent(key)) == 0
    case AwaitingAnswer => WriteSent(key) in log && Count(log, CleanupSent(key)) == 0
    case MarkingSent(_) => Answered(log, key) && Count(log, CleanupSent(key)) == 0
    case WaitingToClean(_) => Cleared(log, key) && Count(log, CleanupSent(key)) == 0
    case Cleaning(_) => Cleared(log, key) && Count(log, CleanupSent(key)) == 0
    case AwaitingCleanup(_) => Cleared(log, key) && CleanupSent(key) in log
    case MarkingCleanup(_, succeeded) => Cleared(log, key) && (succeeded ==> Cleaned(log, key))
  }

  /** The journal says no more than what happened, for operations of this run. */
  ghost predicate Truthful(entries: seq<Entry>, log: seq<Event>, older: set<string>) {
    && (forall e :: e in entries && e.id !in older && e.state != Intent ==> Answered(log, e.id))
    && (forall e :: e in entries && e.id !in older && e.state == CleanupDone ==> Cleaned(log, e.id))
  }

  /** `older` are the operations that were journaled before the run began. */
  ghost predicate Inv(s: Sys, older: set<string>) {
    var visible, synced := Ids(s.disk.visible), Ids(s.disk.synced);
    && synced <= visible
    && Ids(s.legacy) <= older <= synced + Ids(s.legacy)
    && (s.procs != map[] ==> Ids(s.legacy) <= visible)
    && (forall k :: Count(s.log, WriteSent(k)) <= 1 && Count(s.log, CleanupSent(k)) <= 1)
    && (forall k :: Count(s.log, WriteSent(k)) > 0 || Count(s.log, CleanupSent(k)) > 0 ==> k in synced && k !in older)
    && Ordered(s.log)
    && (forall p :: p in s.procs && Holding(s.procs[p]) ==> Owns(s, p, older))
    && (forall p, q :: p in s.procs && q in s.procs && p != q && Holding(s.procs[p]) && Holding(s.procs[q])
                       ==> KeyOf(s.procs[p]) != KeyOf(s.procs[q]))
    && Truthful(s.disk.visible, s.log, older) && Truthful(s.disk.synced, s.log, older)
  }

  ghost predicate Owns(s: Sys, p: nat, older: set<string>)
    requires p in s.procs && Holding(s.procs[p])
  {
    KeyOf(s.procs[p]) in Ids(s.disk.synced) && KeyOf(s.procs[p]) !in older && Knows(s.procs[p], s.log)
  }
}
