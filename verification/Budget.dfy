/** The endpoint cap that all scanners of an assessment share,
    internal/scanner/budget.go, against the history of what was asked for. */
module Budgets {
  import opened Wrappers
  import opened Text

  // ----- the history -------------------------------------------------------

  /** The trimmed, non-blank IDs in the order of their first mention. */
  function Distinct(asked: seq<string>): seq<string> {
    if asked == [] then []
    else
      var n := |asked| - 1;
      var front, id := Distinct(asked[..n]), Trim(asked[n]);
      if id == "" || id in front then front else front + [id]
  }

  /** The first `cap` of them; no cap when `cap` is not positive. */
  function Reserved(cap: int, asked: seq<string>): (r: seq<string>)
    ensures r <= Distinct(asked)
    ensures cap > 0 ==> |r| <= cap
  {
    var all := Distinct(asked);
    if 0 < cap < |all| then all[..cap] else all
  }

  function SetOf(xs: seq<string>): set<string> {
    set x | x in xs
  }

  predicate Unique(xs: seq<string>) {
    forall i, j :: 0 <= i < j < |xs| ==> xs[i] != xs[j]
  }

  predicate Mentions(asked: seq<string>, id: string) {
    exists i :: 0 <= i < |asked| && Trim(asked[i]) == id
  }

  /** Exactly the non-blank IDs that were mentioned, ... */
  lemma {:induction false} DistinctMentions(asked: seq<string>, x: string)
    ensures x in Distinct(asked) <==> x != "" && Mentions(asked, x)
  {
    hide Trim;
    if asked != [] {
      var n := |asked| - 1;
      assert asked == asked[..n] + [asked[n]];
      hide Mentions;
      DistinctMentions(asked[..n], x);
      MentionsMore(asked[..n], asked[n], x);
      DistinctMore(asked[..n], asked[n]);
    }
  }

  lemma {:induction false} MentionsMore(asked: seq<string>, id: string, x: string)
    ensures Mentions(asked + [id], x) <==> Mentions(asked, x) || Trim(id) == x
  {
    hide Trim;
    var more := asked + [id];
    assert more[|asked|] == id;
    assert forall i :: 0 <= i < |asked| ==> more[i] == asked[i];
  }

  /** ... each once. */
  lemma {:induction false} DistinctUnique(asked: seq<string>)
    ensures Unique(Distinct(asked))
  {
    if asked != [] {
      DistinctUnique(asked[..|asked| - 1]);
    }
  }

  lemma {:induction false} DistinctMore(asked: seq<string>, id: string)
    ensures Distinct(asked + [id]) ==
            if Trim(id) == "" || Trim(id) in Distinct(asked) then Distinct(asked) else Distinct(asked) + [Trim(id)]
  {
    assert (asked + [id])[..|asked + [id]| - 1] == asked;
  }

  lemma {:induction false} DistinctGrows(asked: seq<string>, more: seq<string>)
    ensures Distinct(asked) <= Distinct(asked + more)
    decreases |more|
  {
    hide Distinct, Trim;
    if more == [] {
      assert asked + more == asked;
    } else {
      var n := |more| - 1;
      DistinctGrows(asked, more[..n]);
      assert asked + more == (asked + more[..n]) + [more[n]];
      DistinctMore(asked + more[..n], more[n]);
    }
  }

  lemma {:induction false} DistinctPrefix(asked: seq<string>, later: seq<string>)
    requires asked <= later
    ensures Distinct(asked) <= Distinct(later)
  {
    hide Distinct;
    DistinctGrows(asked, later[|asked|..]);
    assert later == asked + later[|asked|..];
  }

  /** Grants and refusals never flip: an ID once asked for is reserved now if and
      only if it is reserved after any later requests. */
  lemma {:induction false} NeverFlips(cap: int, asked: seq<string>, more: seq<string>, id: string)
    requires id in Distinct(asked)
    ensures id in Reserved(cap, asked) <==> id in Reserved(cap, asked + more)
  {
    DistinctGrows(asked, more);
    DistinctUnique(asked);
    DistinctUnique(asked + more);
    hide Distinct, Mentions;
    var now, later := Distinct(asked), Distinct(asked + more);
    var i :| 0 <= i < |now| && now[i] == id;
    assert later[i] == id;
    InPrefix(now, i, cap);
    InPrefix(later, i, cap);
  }

  lemma {:induction false} InPrefix(xs: seq<string>, i: nat, cap: int)
    requires i < |xs| && Unique(xs)
    ensures 0 < cap < |xs| ==> (xs[i] in xs[..cap] <==> i < cap)
  {
  }

  // ----- the object --------------------------------------------------------

  class AssessmentBudget {
    const maxEndpoints: int
    const deadline: Option<int>
    var endpoints: set<string>
    var refused: bool
    ghost var asked: seq<string>

    constructor (maxEndpoints: int, budget: int, now: int)
      ensures Valid() && asked == [] && this.maxEndpoints == maxEndpoints
      ensures deadline == if budget > 0 then Some(now + budget) else None
    {
      this.maxEndpoints := maxEndpoints;
      this.deadline := if budget > 0 then Some(now + budget) else None;
      endpoints, refused, asked := {}, false, [];
    }

    /** The map and the flag say exactly what the history says. */
    ghost predicate Valid()
      reads this
    {
      && endpoints == SetOf(Reserved(maxEndpoints, asked)) && |endpoints| == |Reserved(maxEndpoints, asked)|
      && (refused <==> 0 < maxEndpoints < |Distinct(asked)|)
    }

    /** One ID that was not seen in this call before. */
    method Reserve(id: string) returns (granted: bool)
      requires Valid() && id != "" && Trim(id) == id
      modifies this
      ensures Valid() && asked == old(asked) + [id]
      ensures granted <==> id in Reserved(maxEndpoints, asked)
    {
      hide Distinct, Reserved, Trim;
      ghost var before := Reserved(maxEndpoints, asked);
      ReservedMore(maxEndpoints, asked, id);
      asked := asked + [id];
      if id !in endpoints {
        if maxEndpoints > 0 && |endpoints| >= maxEndpoints {
          refused := true;
          return false;
        }
        endpoints := endpoints + {id};
        assert SetOf(before + [id]) == SetOf(before) + {id};
      }
      return true;
    }

    method Exhausted(now: int) returns (exhausted: bool)
      requires Valid()
      ensures exhausted <==> (deadline.Some? && now >= deadline.value) || 0 < maxEndpoints < |Distinct(asked)|
    {
      if deadline.Some? && now >= deadline.value {
        return true;
      }
      exhausted := refused;
    }

    /** None for a budget without a deadline. Otherwise never negative, zero exactly
        from the deadline on, and before that what ends on the deadline. */
    method Remaining(now: int) returns (left: Option<int>)
      ensures left.None? <==> deadline.None?
      ensures left.Some? ==> left.value >= 0 && (left.value == 0 <==> now >= deadline.value)
      ensures left.Some? && left.value > 0 ==> now + left.value == deadline.value
    {
      if deadline.None? {
        return None;
      }
      left := Some(if deadline.value - now > 0 then deadline.value - now else 0);
    }
  }

  lemma {:induction false} ReservedMore(cap: int, asked: seq<string>, id: string)
    requires id != "" && Trim(id) == id
    ensures var before, after := Reserved(cap, asked), Reserved(cap, asked + [id]);
            && (id in before ==> after == before)
            && (id !in before && cap > 0 && |before| >= cap ==> after == before)
            && (id !in before && (cap <= 0 || |before| < cap) ==> after == before + [id])
            && (0 < cap < |Distinct(asked + [id])| <==>
               0 < cap < |Distinct(asked)| || (id !in before && 0 < cap <= |before|))
  {
    DistinctMore(asked, id);
    hide Trim;
  }

  /** The IDs among `ids`, each once, that the whole history reserves. */
  function GrantedOf(cap: Option<int>, asked: seq<string>, ids: seq<string>): seq<string> {
    Filter(Distinct(ids), cap, asked)
  }

  function Filter(xs: seq<string>, cap: Option<int>, asked: seq<string>): seq<string> {
    if xs == [] then []
    else
      var n := |xs| - 1;
      Filter(xs[..n], cap, asked) + if cap.None? || xs[n] in Reserved(cap.value, asked) then [xs[n]] else []
  }

  lemma {:induction false} FilterStays(xs: seq<string>, cap: Option<int>, asked: seq<string>, id: string)
    requires forall x :: x in xs ==> x in Distinct(asked)
    ensures Filter(xs, cap, asked + [id]) == Filter(xs, cap, asked)
  {
    if xs != [] {
      var n := |xs| - 1;
      FilterStays(xs[..n], cap, asked, id);
      if cap.Some? {
        NeverFlips(cap.value, asked, [id], xs[n]);
      }
    }
  }

  lemma {:induction false} FilterMore(xs: seq<string>, x: string, cap: Option<int>, asked: seq<string>)
    ensures Filter(xs + [x], cap, asked) == Filter(xs, cap, asked)
        + if cap.None? || x in Reserved(cap.value, asked) then [x] else []
  {
    assert (xs + [x])[..|xs + [x]| - 1] == xs;
  }

  /** ReserveEndpoints, on a budget that may be nil: the granted IDs in input
      order, without blanks and repeats; they are those that the history up to and
      including this call reserves. */
  method ReserveEndpoints(b: AssessmentBudget?, ids: seq<string>) returns (out: seq<string>)
    requires b != null ==> b.Valid()
    modifies b
    ensures b != null ==> b.Valid() && Distinct(b.asked) == Distinct(old(b.asked) + ids)
    ensures out == GrantedOf(if b == null then None else Some(b.maxEndpoints), if b == null then [] else b.asked, ids)
  {
    hide Distinct, Reserved, Filter, Trim, AssessmentBudget.Valid;
    out := [];
    var seen: seq<string> := [];
    ghost var cap := if b == null then None else Some(b.maxEndpoints);
    ghost var start := if b == null then [] else b.asked;
    ghost var asked := start;
    NothingYet(cap, asked);
    assert start + ids[..0] == start && ids[..0] == [];
    for i := 0 to |ids|
      invariant b != null ==> b.Valid()
      invariant asked == if b == null then [] else b.asked
      invariant Progress(start, ids[..i], cap, asked, seen, out)
    {
      var id := Trim(ids[i]);
      assert ids[..i + 1] == ids[..i] + [ids[i]];
      ghost var before := asked;
      var granted := true;
      if id != "" && id !in seen {
        if b != null {
          granted := b.Reserve(id);
          asked := b.asked;
        }
        ProgressMore(start, ids[..i], ids[i], cap, before, asked, seen, out);
        seen := seen + [id];
        if granted {
          out := out + [id];
        }
      } else {
        ProgressSame(start, ids[..i], ids[i], cap, asked, seen, out);
      }
    }
    assert ids[..|ids|] == ids;
  }

  /** Where the loop is: what it saw, what it granted, and what the history says. */
  ghost predicate Progress(start: seq<string>, ids: seq<string>, cap: Option<int>, asked: seq<string>,
          seen: seq<string>, out: seq<string>) {
    && seen == Distinct(ids) && out == Filter(seen, cap, asked)
    && (cap.Some? ==> Distinct(asked) == Distinct(start + ids) && forall x :: x in seen ==> x in Distinct(asked))
  }

  lemma {:induction false} ProgressSame(start: seq<string>, ids: seq<string>, id: string, cap: Option<int>,
          asked: seq<string>, seen: seq<string>, out: seq<string>)
    requires Progress(start, ids, cap, asked, seen, out) && (Trim(id) == "" || Trim(id) in seen)
    ensures Progress(start, ids + [id], cap, asked, seen, out)
  {
    hide Distinct, Reserved, Filter, Trim;
    DistinctMore(ids, id);
    DistinctMore(start + ids, id);
    assert start + (ids + [id]) == (start + ids) + [id];
  }

  lemma {:induction false} ProgressMore(start: seq<string>, ids: seq<string>, raw: string, cap: Option<int>,
          before: seq<string>, asked: seq<string>, seen: seq<string>, out: seq<string>)
    requires Progress(start, ids, cap, before, seen, out) && Trim(raw) != "" && Trim(raw) !in seen
    requires asked == if cap.Some? then before + [Trim(raw)] else before
    ensures var id := Trim(raw);
            Progress(start, ids + [raw], cap, asked, seen + [id],
                     if cap.None? || id in Reserved(cap.value, asked) then out + [id] else out)
  {
    hide Distinct, Reserved, Filter, Trim;
    var id := Trim(raw);
    DistinctMore(ids, raw);
    DistinctMore(start + ids, raw);
    assert start + (ids + [raw]) == (start + ids) + [raw];
    if cap.Some? {
      DistinctMore(before, id);
      FilterStays(seen, cap, before, id);
    }
    FilterMore(seen, id, cap, asked);
  }

  lemma {:induction false} NothingYet(cap: Option<int>, asked: seq<string>)
    ensures Distinct([]) == [] && Filter([], cap, asked) == []
  {
  }
}
