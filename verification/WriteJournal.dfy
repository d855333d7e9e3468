/** The durable journal of state-changing requests, internal/scanner/write_journal.go:
    its entries, its transitions and the file they are stored in. */
module WriteJournals {
  import opened Wrappers
  import opened Text

  datatype WriteState = Intent | Sent | CleanupDone | CleanupFailed

  datatype Entry = Entry(id: string, cleanupVerb: string, cleanupURL: string, cleanupRef: string, state: WriteState)

  /** The outcome of the write, or of its declared cleanup, is unknown. */
  predicate Unresolved(e: Entry) {
    match e.state
    case Intent => true
    case Sent => e.cleanupVerb != "" || e.cleanupURL != "" || e.cleanupRef != ""
    case CleanupDone => false
    case CleanupFailed => false
  }

  /** What leaves nothing open: a cleanup with an outcome, or a sent write that
      declares no cleanup. */
  predicate Settled(e: Entry) {
    || e.state == CleanupDone || e.state == CleanupFailed
    || (e.state == Sent && e.cleanupVerb == e.cleanupURL == e.cleanupRef == "")
  }

  function Ids(entries: seq<Entry>): set<string> {
    set e | e in entries :: e.id
  }

  function Find(entries: seq<Entry>, id: string): (i: nat)
    ensures i <= |entries|
    ensures i < |entries| ==> entries[i].id == id
    ensures i == |entries| <==> id !in Ids(entries)
  {
    if entries == [] then 0
    else if entries[0].id == id then 0
    else 1 + Find(entries[1..], id)
  }

  // ----- transitions on the entries ----------------------------------------

  /** RecordIntent: refused for a blank or an already journaled operation. */
  function WithIntent(entries: seq<Entry>, e: Entry): Option<seq<Entry>> {
    if Trim(e.id) == "" || Find(entries, e.id) < |entries| then None
    else Some(entries + [e.(state := Intent)])
  }

  /** MarkSent and MarkCleanup: only from the state that comes before. */
  function WithState(entries: seq<Entry>, id: string, from: WriteState, to: WriteState): Option<seq<Entry>> {
    var i := Find(entries, id);
    if i == |entries| || entries[i].state != from then None
    else Some(entries[i := entries[i].(state := to)])
  }

  /** Entries of older per-attempt journals whose operation is not known yet. */
  function Import(entries: seq<Entry>, prior: seq<Entry>): seq<Entry>
    decreases |prior|
  {
    if prior == [] then entries
    else Import(if prior[0].id in Ids(entries) then entries else entries + [prior[0]], prior[1..])
  }

  // ----- the file ----------------------------------------------------------

  /** What can become of one commit. The rename may reach the file and the error
      come from a later directory sync; an unsynced rename is seen by the next
      reader and undone by a power loss. */
  datatype Fault = Clean | NotWritten | NotSynced | SyncedButFailed

  datatype Disk = Disk(visible: seq<Entry>, synced: seq<Entry>)

  function Commit(d: Disk, next: seq<Entry>, fault: Fault): Disk {
    match fault
    case Clean => Disk(next, next)
    case NotWritten => d
    case NotSynced => d.(visible := next)
    case SyncedButFailed => Disk(next, next)
  }

  /** A transition under the disk lock: reload, check, commit. */
  function Apply(d: Disk, next: Option<seq<Entry>>, fault: Fault): (r: (Disk, bool)) {
    match next
    case None => (d, false)
    case Some(entries) => (Commit(d, entries, fault), fault == Clean)
  }

  lemma {:induction false} IdsAppend(entries: seq<Entry>, e: Entry)
    ensures Ids(entries + [e]) == Ids(entries) + {e.id}
  {
    assert forall x :: x in entries + [e] <==> x in entries || x == e;
    assert e in entries + [e];
    forall id | id in Ids(entries)
      ensures id in Ids(entries + [e])
    {
      var x :| x in entries && x.id == id;
      assert x in entries + [e];
    }
  }

  lemma {:induction false} IdsUpdate(entries: seq<Entry>, i: nat, e: Entry)
    requires i < |entries| && e.id == entries[i].id
    ensures Ids(entries[i := e]) == Ids(entries)
  {
    var next := entries[i := e];
    forall id | id in Ids(entries)
      ensures id in Ids(next)
    {
      var k :| 0 <= k < |entries| && entries[k].id == id;
      assert next[k] in next && next[k].id == id;
    }
    forall id | id in Ids(next)
      ensures id in Ids(entries)
    {
      var k :| 0 <= k < |next| && next[k].id == id;
      assert entries[k] in entries && entries[k].id == id;
    }
  }

  /** Importing keeps every entry, adds every missing operation and invents no
      state: what is new comes from the older journals as it was. */
  lemma {:induction false} ImportKeeps(entries: seq<Entry>, prior: seq<Entry>)
    ensures entries <= Import(entries, prior)
    ensures Ids(Import(entries, prior)) == Ids(entries) + Ids(prior)
    ensures forall e :: e in Import(entries, prior) ==> e in entries || (e in prior && e.id !in Ids(entries))
    decreases |prior|
  {
    if prior != [] {
      var next := if prior[0].id in Ids(entries) then entries else entries + [prior[0]];
      IdsAppend(entries, prior[0]);
      ImportKeeps(next, prior[1..]);
      assert prior == [prior[0]] + prior[1..];
      assert Ids(prior) == {prior[0].id} + Ids(prior[1..]) by {
        forall id | id in Ids(prior[1..])
          ensures id in Ids(prior)
        {
          var x :| x in prior[1..] && x.id == id;
          assert x in prior;
        }
        assert prior[0] in prior;
      }
    }
  }

  /** The journal on disk, shared by independent processes. */
  class JournalFile {
    var visible: seq<Entry>
    ghost var synced: seq<Entry>

    constructor ()
      ensures visible == [] && synced == []
    {
      visible := [];
      synced := [];
    }

    ghost function State(): Disk
      reads this
    {
      Disk(visible, synced)
    }

    /** WriteAtomic and the two directory syncs; `fault` is what the disk does. */
    method Write(next: seq<Entry>, fault: Fault) returns (ok: bool)
      modifies this
      ensures State() == Commit(old(State()), next, fault)
      ensures ok <==> fault == Clean
    {
      if fault != NotWritten {
        visible := next;
        if fault != NotSynced {
          synced := next;
        }
      }
      ok := fault == Clean;
    }
  }

  /** One process's handle. The entries in memory never run ahead of the disk. */
  class WriteJournal {
    const file: JournalFile
    var entries: seq<Entry>

    constructor (file: JournalFile)
      ensures this.file == file && entries == file.visible
    {
      this.file := file;
      this.entries := file.visible;
    }

    /** OpenWriteJournal: a journal that cannot be read, or has another schema, is
        refused and left as it is. */
    static method Open(file: JournalFile, readable: bool) returns (journal: WriteJournal?)
      ensures journal == null <==> !readable
      ensures journal != null ==> fresh(journal) && journal.file == file && journal.entries == file.visible
    {
      if !readable {
        return null;
      }
      journal := new WriteJournal(file);
    }

    /** commitLocked: the memory follows only a commit that succeeded. */
    method CommitLocked(next: seq<Entry>, fault: Fault) returns (ok: bool)
      modifies this, file
      ensures file.State() == Commit(old(file.State()), next, fault)
      ensures ok <==> fault == Clean
      ensures entries == if ok then next else old(entries)
    {
      ok := file.Write(next, fault);
      if ok {
        entries := next;
      }
    }

    method RecordIntent(e: Entry, fault: Fault) returns (ok: bool)
      modifies this, file
      ensures (file.State(), ok) == Apply(old(file.State()), WithIntent(old(file.visible), e), fault)
      ensures ok ==> entries == file.visible
    {
      if Trim(e.id) == "" {
        return false;
      }
      entries := file.visible;
      if Find(entries, e.id) < |entries| {
        return false;
      }
      ok := CommitLocked(entries + [e.(state := Intent)], fault);
    }

    method MarkSent(id: string, fault: Fault) returns (ok: bool)
      modifies this, file
      ensures (file.State(), ok) == Apply(old(file.State()), WithState(old(file.visible), id, Intent, Sent), fault)
      ensures ok ==> entries == file.visible
    {
      ok := Transition(id, Intent, Sent, fault);
    }

    method MarkCleanup(id: string, succeeded: bool, fault: Fault) returns (ok: bool)
      modifies this, file
      ensures (file.State(), ok) ==
              Apply(old(file.State()),
                WithState(old(file.visible), id, Sent, if succeeded then CleanupDone else CleanupFailed), fault)
      ensures ok ==> entries == file.visible
    {
      ok := Transition(id, Sent, if succeeded then CleanupDone else CleanupFailed, fault);
    }

    method Transition(id: string, from: WriteState, to: WriteState, fault: Fault) returns (ok: bool)
      modifies this, file
      ensures (file.State(), ok) == Apply(old(file.State()), WithState(old(file.visible), id, from, to), fault)
      ensures ok ==> entries == file.visible
    {
      entries := file.visible;
      var i := Find(entries, id);
      if i == |entries| || entries[i].state != from {
        return false;
      }
      ok := CommitLocked(entries[i := entries[i].(state := to)], fault);
    }

    /** openRequestWriteJournal: the import loop and its commit. */
    method ImportPrior(prior: seq<Entry>, fault: Fault) returns (ok: bool)
      modifies this, file
      ensures var next := Import(old(file.visible), prior);
              (file.State(), ok) == if |next| == |old(file.visible)| then (old(file.State()), true)
                else Apply(old(file.State()), Some(next), fault)
    {
      entries := file.visible;
      var next := entries;
      for i := 0 to |prior|
        invariant Import(next, prior[i..]) == Import(entries, prior)
      {
        assert prior[i..][0] == prior[i] && prior[i..][1..] == prior[i + 1..];
        if prior[i].id !in Ids(next) {
          next := next + [prior[i]];
        }
      }
      assert prior[|prior|..] == [];
      if |next| != |entries| {
        ok := CommitLocked(next, fault);
      } else {
        ok := true;
      }
    }
  }

  /** What stands for a journal that cannot be read. */
  const UNREADABLE := Entry("unreadable-write-journal", "", "", "", Intent)

  /** UnresolvedWrites: the entries that forbid an automatic resume. A journal that
      cannot be read is unresolved, not empty. */
  method UnresolvedWrites(entries: seq<Entry>, readable: bool) returns (out: seq<Entry>)
    ensures readable ==> forall e :: e in out <==> e in entries && !Settled(e)
    ensures !readable ==> out == [UNREADABLE] && !Settled(UNREADABLE)
    ensures out == [] <==> readable && forall e :: e in entries ==> Settled(e)
  {
    if !readable {
      return [UNREADABLE];
    }
    out := [];
    for i := 0 to |entries|
      invariant forall e :: e in out <==> e in entries[..i] && !Settled(e)
    {
      assert entries[..i + 1] == entries[..i] + [entries[i]];
      if Unresolved(entries[i]) {
        out := out + [entries[i]];
      }
    }
    assert entries[..|entries|] == entries;
    assert out != [] ==> out[0] in out;
  }
}
