/** The tool lease of one browser session, internal/scanctx/browserstate.go: who
    releases it, and when none is leaked. */
module BrowserStates {
  import opened Wrappers
  import opened Leases

  // ----- the operations as a machine ---------------------------------------

  /** `handed` are the leases given to the session, `released` those given back. */
  datatype Session<T> = Session(cached: Option<T>, once: bool, handed: set<T>, released: set<T>)

  /** `Release` is the browser package giving back its own copy of a lease. */
  datatype Op<T> = Set(lease: T) | Release(lease: T) | Drop | Close

  function Do<T>(s: Session<T>, op: Op<T>): Session<T> {
    match op
    case Set(l) =>
      if s.cached.Some? then s.(handed := s.handed + {l}, released := s.released + {l})
      else s.(cached := Some(l), handed := s.handed + {l})
    case Release(l) => s.(released := s.released + {l})
    case Drop => s.(cached := None)
    case Close =>
      if s.once then s
      else s.(once := true, cached := None, released := s.released + if s.cached.Some? then {s.cached.value} else {})
  }

  function Run<T>(s: Session<T>, ops: seq<Op<T>>): Session<T> {
    if ops == [] then s else Do(Run(s, ops[..|ops| - 1]), ops[|ops| - 1])
  }

  /** How often lease `l` is given back over a run: the releases that find it not
      released before. */
  function Returns<T(==)>(s: Session<T>, ops: seq<Op<T>>, l: T): nat {
    if ops == [] then 0
    else
      var n := |ops| - 1;
      Returns(s, ops[..n], l) + if l !in Run(s, ops[..n]).released && l in Run(s, ops).released then 1 else 0
  }

  /** No lease is given back twice, whatever the callers do. */
  lemma {:induction false} ReturnedOnce<T>(s: Session<T>, ops: seq<Op<T>>, l: T)
    requires l !in s.released
    ensures Returns(s, ops, l) == if l in Run(s, ops).released then 1 else 0
  {
    if ops != [] {
      ReturnedOnce(s, ops[..|ops| - 1], l);
    }
  }

  /** Every lease handed over is released or still cached. */
  ghost predicate Conserved<T(!new)>(s: Session<T>) {
    forall l :: l in s.handed && l !in s.released ==> s.cached == Some(l)
  }

  /** The rules of the callers: a lease is dropped only when it was released, and
      none is handed over after the session was closed. */
  predicate Allowed<T(==)>(s: Session<T>, op: Op<T>) {
    match op
    case Set(_) => !s.once
    case Release(_) => true
    case Drop => s.cached.None? || s.cached.value in s.released
    case Close => true
  }

  ghost predicate Disciplined<T(!new)>(s: Session<T>, ops: seq<Op<T>>) {
    forall i :: 0 <= i < |ops| ==> Allowed(Run(s, ops[..i]), ops[i])
  }

  ghost predicate Fresh<T(!new)>(s: Session<T>) {
    s == Session(None, false, {}, {})
  }

  /** Over every disciplined run nothing is lost: what was handed over is cached
      or released, and once the session was closed each lease was given back
      exactly once. */
  lemma {:induction false} Conservation<T(!new)>(s: Session<T>, ops: seq<Op<T>>)
    requires Fresh(s) && Disciplined(s, ops)
    ensures Conserved(Run(s, ops))
    ensures Run(s, ops).once <==> Close in ops
    ensures Close in ops ==> forall l :: l in Run(s, ops).handed ==> Returns(s, ops, l) == 1
  {
    NothingOutstanding(s, ops);
    hide Run, Returns, Conserved, Disciplined;
    forall l | l in Run(s, ops).handed
      ensures Close in ops ==> Returns(s, ops, l) == 1
    {
      ReturnedOnce(s, ops, l);
    }
  }

  lemma {:induction false} NothingOutstanding<T(!new)>(s: Session<T>, ops: seq<Op<T>>)
    requires Fresh(s) && Disciplined(s, ops)
    ensures Conserved(Run(s, ops))
    ensures Run(s, ops).once <==> Close in ops
    ensures Close in ops ==> Run(s, ops).handed <= Run(s, ops).released
  {
    if ops != [] {
      var n := |ops| - 1;
      assert ops == ops[..n] + [ops[n]];
      assert forall i :: 0 <= i < n ==> ops[..n][..i] == ops[..i];
      NothingOutstanding(s, ops[..n]);
      assert Allowed(Run(s, ops[..n]), ops[n]);
      var before := Run(s, ops[..n]);
      assert Run(s, ops) == Do(before, ops[n]);
      hide Run, Do, Disciplined, Conserved, Allowed;
      StepConserves(before, ops[n]);
    }
  }

  lemma {:induction false} StepConserves<T(!new)>(s: Session<T>, op: Op<T>)
    requires Conserved(s) && Allowed(s, op) && (s.once ==> s.handed <= s.released)
    ensures Conserved(Do(s, op))
    ensures Do(s, op).once ==> Do(s, op).handed <= Do(s, op).released
    ensures Do(s, op).once <==> s.once || op == Op.Close
  {
  }

  /** What a run does to a lease that is not cached and that nobody releases or
      hands over again: nothing. */
  lemma {:induction false} Forgotten<T(!new)>(s: Session<T>, ops: seq<Op<T>>, l: T)
    requires s.cached != Some(l) && l !in s.released
    requires Release(l) !in ops && Set(l) !in ops
    ensures l !in Run(s, ops).released && Run(s, ops).cached != Some(l)
  {
    if ops != [] {
      var n := |ops| - 1;
      assert ops == ops[..n] + [ops[n]];
      Forgotten(s, ops[..n], l);
      assert ops[n] in ops;
    }
  }

  /** Both rules are needed. A lease dropped before it was released, or handed over
      after the close and then closed again, stays outstanding for good. */
  lemma {:induction false} RulesAreNeeded<T(!new)>(s: Session<T>, ops: seq<Op<T>>, l: T)
    requires l !in s.released && Release(l) !in ops && Set(l) !in ops
    ensures s.cached == Some(l) ==> l !in Run(Do(s, Drop), ops).released
    ensures s.cached == None && s.once && Drop !in ops ==> l !in Run(Do(s, Set(l)), ops).released
  {
    if s.cached == Some(l) {
      Forgotten(Do(s, Drop), ops, l);
    }
    if s.cached == None && s.once && Drop !in ops {
      StaysCached(Do(s, Set(l)), ops, l);
    }
  }

  lemma {:induction false} StaysCached<T(!new)>(s: Session<T>, ops: seq<Op<T>>, l: T)
    requires s.once && s.cached == Some(l) && l !in s.released
    requires Release(l) !in ops && Set(l) !in ops && Drop !in ops
    ensures Run(s, ops).once && Run(s, ops).cached == Some(l) && l !in Run(s, ops).released
  {
    if ops != [] {
      var n := |ops| - 1;
      assert ops == ops[..n] + [ops[n]];
      StaysCached(s, ops[..n], l);
      assert ops[n] in ops;
    }
  }

  // ----- the object --------------------------------------------------------

  class BrowserState {
    const manager: LeaseManager
    var sessionPath: string
    var launched: bool
    var lease: ToolLease?
    var once: bool
    ghost var handed: set<ToolLease>

    constructor (manager: LeaseManager)
      ensures this.manager == manager && lease == null && !once && handed == {} && !launched
    {
      this.manager, sessionPath, launched, lease, once, handed := manager, "", false, null, false, {};
    }

    ghost predicate Valid()
      reads this, manager, manager.issued
    {
      && manager.Valid() && handed <= manager.issued
      && (lease != null ==> lease in handed)
    }

    ghost function Cached(): Option<ToolLease>
      reads this
    {
      if lease == null then None
      else
        var l: ToolLease := lease;
        Some(l)
    }

    /** The session as a value; what is released is what the manager counts as such. */
    ghost function State(): Session<ToolLease>
      reads this, manager, manager.issued
    {
      Session(Cached(), once, handed, manager.Returned())
    }

    /** A duplicate is released at once; the cached lease stays. */
    method SetLease(l: ToolLease?)
      requires Valid() && (l != null ==> l in manager.issued)
      modifies this, manager, l
      ensures Valid() && manager.issued == old(manager.issued)
      ensures State() == if l == null then old(State()) else Do(old(State()), Op.Set(l))
    {
      hide LeaseManager.Valid, LeaseManager.Returned;
      if l == null {
        return;
      }
      handed := handed + {l};
      if lease != null {
        manager.Release(l);
        return;
      }
      lease := l;
    }

    method DropLease()
      requires Valid()
      modifies this
      ensures Valid() && State() == Do(old(State()), Op.Drop)
    {
      lease := null;
    }

    /** Gives the cached lease back, the first time it is called. */
    method ReleaseLease()
      requires Valid()
      modifies this, manager, lease
      ensures Valid() && manager.issued == old(manager.issued)
      ensures State() == Do(old(State()), Op.Close)
      ensures launched == old(launched) && sessionPath == old(sessionPath)
    {
      hide LeaseManager.Valid, LeaseManager.Returned;
      if once {
        return;
      }
      once := true;
      var l := lease;
      lease := null;
      if l != null {
        manager.Release(l);
      }
    }

    method Close()
      requires Valid()
      modifies this, manager, lease
      ensures Valid() && manager.issued == old(manager.issued) && !launched && sessionPath == ""
      ensures State() == Do(old(State()), Op.Close)
    {
      hide LeaseManager.Valid, LeaseManager.Returned;
      launched := false;
      sessionPath := "";
      ReleaseLease();
    }
  }

  /** When a session gave back all it was handed, the manager's outstanding leases
      are those of the others, and the counters are back where they were. */
  lemma {:induction false} CountersReturn(m: LeaseManager, others: set<ToolLease>, session: Session<ToolLease>)
    requires m.Valid() && session.released == m.Returned()
    requires m.issued == others + session.handed && others !! session.handed && session.handed <= session.released
    ensures m.active == |set l | l in others && !l.released|
    ensures m.heavies == |Heavy(set l | l in others && !l.released)|
  {
    assert m.Outstanding() == set l | l in others && !l.released;
  }
}
