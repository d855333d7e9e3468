/** Merging observations into the endpoint inventory,
    internal/scanner/attack_surface.go: the index, the fields, and what a merge may
    never widen. */
module Inventories {
  import opened Wrappers
  import opened Text
  import opened RowOrders
  import opened NormalForms
  import opened Budgets
  import opened Dispatches

  datatype Provenance = Provenance(
      tool: string, source: string, artifact: string, observedAt: string, authenticated: bool)

  /** The fields a merge reads or writes; `url` stands for those it keeps. */
  datatype Entry = Entry(
    id: string, url: string, observation: string, replayRef: string, readOnly: bool, sources: seq<string>,
    parameters: seq<Parameter>, hasParameters: bool, hasForm: bool, sensitive: bool, routes: seq<string>,
    statusCode: int, contentType: string, requiresAuth: Option<bool>, state: string, stateReason: string,
    provenance: seq<Provenance>)

  // ----- lists of strings --------------------------------------------------

  /** mergeStrings: what both lists mention, trimmed and in order. */
  method MergeStrings(left: seq<string>, right: seq<string>) returns (out: seq<string>)
    ensures out == Distinct(left + right)
  {
    out := [];
    var seen := {};
    NothingMentioned(left, right);
    hide Distinct, Trim;
    for i := 0 to |left| + |right|
      invariant out == Distinct((left + right)[..i]) && seen == SetOf(out)
    {
      var value := Trim(if i < |left| then left[i] else right[i - |left|]);
      DistinctAt(left + right, i);
      if value != "" && value !in seen {
        assert SetOf(out + [value]) == SetOf(out) + {value};
        seen := seen + {value};
        out := out + [value];
      }
    }
    assert (left + right)[..|left| + |right|] == left + right;
  }

  lemma {:induction false} NothingMentioned(left: seq<string>, right: seq<string>)
    ensures Distinct((left + right)[..0]) == []
  {
  }

  lemma {:induction false} DistinctAt(all: seq<string>, i: nat)
    requires i < |all|
    ensures Distinct(all[..i + 1]) ==
            if Trim(all[i]) == "" || Trim(all[i]) in Distinct(all[..i]) then Distinct(all[..i])
              else Distinct(all[..i]) + [Trim(all[i])]
  {
    hide Distinct, Trim;
    DistinctMore(all[..i], all[i]);
    assert all[..i + 1] == all[..i] + [all[i]];
  }

  /** Mentioning again what was mentioned adds nothing. */
  lemma {:induction false} NothingNew(asked: seq<string>, more: seq<string>)
    requires forall x :: x in more ==> Trim(x) == "" || Trim(x) in Distinct(asked)
    ensures Distinct(asked + more) == Distinct(asked)
    decreases |more|
  {
    hide Trim, Distinct;
    if more == [] {
      assert asked + more == asked;
    } else {
      var n := |more| - 1;
      NothingNew(asked, more[..n]);
      DistinctMore(asked + more[..n], more[n]);
      assert asked + more == (asked + more[..n]) + [more[n]];
    }
  }

  lemma {:induction false} MentionedIsDistinct(asked: seq<string>, x: string)
    requires x in asked
    ensures Trim(x) == "" || Trim(x) in Distinct(asked)
  {
    DistinctMentions(asked, Trim(x));
    hide Distinct, Trim;
  }

  lemma {:induction false} DistinctAgain(asked: seq<string>)
    ensures Distinct(Distinct(asked)) == Distinct(asked)
  {
    if asked != [] {
      var n := |asked| - 1;
      DistinctAgain(asked[..n]);
      DistinctMore(Distinct(asked[..n]), Trim(asked[n]));
      assert Trim(Trim(asked[n])) == Trim(asked[n]);
      hide Trim;
    }
  }

  /** Merging the same list a second time, or a list into itself when it is clean,
      changes nothing. */
  lemma {:induction false} MergeStringsTwice(a: seq<string>, b: seq<string>)
    ensures Distinct(Distinct(a + b) + b) == Distinct(a + b)
    ensures Distinct(b + b) == Distinct(b)
  {
    hide Distinct, Trim;
    DistinctAgain(a + b);
    forall x | x in b
      ensures Trim(x) == "" || Trim(x) in Distinct(a + b)
      ensures Trim(x) == "" || Trim(x) in Distinct(b)
    {
      assert x in a + b;
      MentionedIsDistinct(a + b, x);
      MentionedIsDistinct(b, x);
    }
    NothingNew(Distinct(a + b), b);
    NothingNew(b, b);
  }

  // ----- parameters --------------------------------------------------------

  predicate ParameterLe(a: Parameter, b: Parameter) {
    RowLe([a.location, a.name], [b.location, b.name])
  }

  predicate ParameterSame(a: Parameter, b: Parameter) {
    a == b
  }

  lemma {:induction false} ParameterOrder()
    ensures TotalOrder(ParameterLe) && Classes(ParameterLe, ParameterSame)
  {
    forall a, b
      ensures ParameterLe(a, a) && (ParameterLe(a, b) || ParameterLe(b, a))
          && (ParameterLe(a, b) && ParameterLe(b, a) ==> a == b)
    {
      RowLeTotal([a.location, a.name], [b.location, b.name]);
      hide RowLe;
      if ParameterLe(a, b) && ParameterLe(b, a) {
        assert [a.location, a.name][0] == [b.location, b.name][0] && [a.location, a.name][1] == [b.location, b.name][1];
      }
    }
    forall a, b, c | ParameterLe(a, b) && ParameterLe(b, c)
      ensures ParameterLe(a, c)
    {
      RowLeTransitive([a.location, a.name], [b.location, b.name], [c.location, c.name]);
    }
  }

  function Clean(p: Parameter): Parameter {
    Parameter(Trim(p.name), LowerAll(Trim(p.location)))
  }

  /** The cleaned parameters that have a name. */
  function Named(parameters: seq<Parameter>): seq<Parameter> {
    if parameters == [] then []
    else
      var n := |parameters| - 1;
      Named(parameters[..n]) + if Clean(parameters[n]).name == "" then [] else [Clean(parameters[n])]
  }

  function MergedParameters(parameters: seq<Parameter>): seq<Parameter> {
    NormalForm(Named(parameters), ParameterLe, ParameterSame)
  }

  ghost predicate Increasing(ps: seq<Parameter>) {
    forall i, j :: 0 <= i < j < |ps| ==> ParameterLe(ps[i], ps[j]) && ps[i] != ps[j]
  }

  /** The merged parameters are the named ones, each once, in order. */
  lemma {:induction false} MergedExactly(parameters: seq<Parameter>)
    ensures Increasing(MergedParameters(parameters)) && SameElements(MergedParameters(parameters), Named(parameters))
  {
    ParameterOrder();
    var xs := Named(parameters);
    NormalFormCorrect(xs, ParameterLe, ParameterSame);
    var out := NormalForm(xs, ParameterLe, ParameterSame);
    hide NormalForm, Named, ParameterLe, TotalOrder, Classes;
    forall x
      ensures x in out <==> x in xs
    {
      if x in xs {
        assert Represented(x, out, ParameterSame);
      }
    }
  }

  /** An increasing list of just these parameters is the merged one. */
  lemma {:induction false} MergedUnique(ps: seq<Parameter>, parameters: seq<Parameter>)
    requires Increasing(ps) && SameElements(ps, Named(parameters))
    ensures ps == MergedParameters(parameters)
  {
    ParameterOrder();
    MergedExactly(parameters);
    hide MergedParameters, Named, ParameterLe;
    IncreasingUnique(ps, MergedParameters(parameters), ParameterLe);
  }

  lemma {:induction false} NamedAppend(a: seq<Parameter>, b: seq<Parameter>)
    ensures Named(a + b) == Named(a) + Named(b)
    decreases |b|
  {
    hide Clean;
    if b == [] {
      assert a + b == a;
    } else {
      var n := |b| - 1;
      assert (a + b)[..|a + b| - 1] == a + b[..n];
      NamedAppend(a, b[..n]);
    }
  }

  lemma {:induction false} CleanTwice(p: Parameter)
    ensures Clean(Clean(p)) == Clean(p)
  {
    hide Trim, LowerAll, Trimmed;
    LowerTrimmed(Trim(p.location));
    LowerTwice(Trim(p.location));
  }

  predicate IsClean(p: Parameter) {
    Clean(p) == p && p.name != ""
  }

  lemma {:induction false} NamedIsClean(parameters: seq<Parameter>)
    ensures forall p :: p in Named(parameters) ==> IsClean(p)
  {
    hide Clean;
    if parameters != [] {
      var n := |parameters| - 1;
      NamedIsClean(parameters[..n]);
      CleanTwice(parameters[n]);
    }
  }

  lemma {:induction false} NamedOfClean(ps: seq<Parameter>)
    requires forall p :: p in ps ==> IsClean(p)
    ensures Named(ps) == ps
  {
    hide Clean;
    if ps != [] {
      var n := |ps| - 1;
      assert IsClean(ps[n]);
      NamedOfClean(ps[..n]);
      hide IsClean;
      assert ps == ps[..n] + [ps[n]];
    }
  }

  /** Merging the same parameters a second time changes nothing. */
  lemma {:induction false} MergedTwice(a: seq<Parameter>, b: seq<Parameter>)
    ensures MergedParameters(MergedParameters(a + b) + b) == MergedParameters(a + b)
    ensures MergedParameters(b + b) == MergedParameters(b)
  {
    var m, k := MergedParameters(a + b), MergedParameters(b);
    MergedExactly(a + b);
    MergedExactly(b);
    NamedAppend(a, b);
    NamedAppend(m, b);
    NamedAppend(b, b);
    NamedIsClean(a + b);
    NamedOfClean(m);
    hide MergedParameters, Named, Increasing;
    MergedUnique(m, m + b);
    MergedUnique(k, b + b);
  }

  lemma {:induction false} TwiceInMultiset<T>(xs: seq<T>, i: nat, j: nat)
    requires i < j < |xs| && xs[i] == xs[j]
    ensures multiset(xs)[xs[i]] >= 2
  {
    assert xs == xs[..j] + [xs[j]] + xs[j + 1..];
    assert xs[..j][i] == xs[i];
    assert multiset(xs) == multiset(xs[..j]) + multiset{xs[j]} + multiset(xs[j + 1..]);
    assert xs[i] in multiset(xs[..j]);
  }

  predicate NoRepeats(ps: seq<Parameter>) {
    forall i, j :: 0 <= i < j < |ps| ==> ps[i] != ps[j]
  }

  lemma {:induction false} OnceInMultiset(ps: seq<Parameter>, p: Parameter)
    requires NoRepeats(ps)
    ensures multiset(ps)[p] <= 1
  {
    if ps != [] {
      var n := |ps| - 1;
      assert ps == ps[..n] + [ps[n]];
      OnceInMultiset(ps[..n], p);
      assert multiset(ps) == multiset(ps[..n]) + multiset{ps[n]};
      if p == ps[n] {
        assert p !in ps[..n];
      }
    }
  }

  lemma {:induction false} SortedIncreasing(ps: seq<Parameter>)
    requires NoRepeats(ps)
    ensures Increasing(Sort(ps, ParameterLe)) && SameElements(Sort(ps, ParameterLe), ps)
  {
    ParameterOrder();
    SortCorrect(ps, ParameterLe);
    var out := Sort(ps, ParameterLe);
    hide Sort, ParameterLe, TotalOrder, Classes;
    forall i, j | 0 <= i < j < |out|
      ensures ParameterLe(out[i], out[j]) && out[i] != out[j]
    {
      if out[i] == out[j] {
        TwiceInMultiset(out, i, j);
        OnceInMultiset(ps, out[i]);
      }
    }
  }

  /** mergeParameters: cleaned, without repeats, then sorted. */
  method MergeParameters(parameters: seq<Parameter>) returns (out: seq<Parameter>)
    ensures out == MergedParameters(parameters)
  {
    hide Clean, ParameterLe, Sort, NormalForm;
    var kept: seq<Parameter> := [];
    var seen := {};
    assert Named(parameters[..0]) == [];
    for i := 0 to |parameters|
      invariant NoRepeats(kept) && SameElements(kept, Named(parameters[..i]))
      invariant forall p :: p in seen <==> p in kept
    {
      var p := Clean(parameters[i]);
      assert parameters[..i + 1][..i] == parameters[..i];
      if p.name == "" || p in seen {
        continue;
      }
      seen := seen + {p};
      kept := kept + [p];
    }
    assert parameters[..|parameters|] == parameters;
    SortedIncreasing(kept);
    out := Sort(kept, ParameterLe);
    MergedUnique(out, parameters);
  }

  // ----- provenance --------------------------------------------------------

  predicate SameProvenance(a: Provenance, b: Provenance) {
    a.tool == b.tool && a.source == b.source && a.artifact == b.artifact && a.authenticated == b.authenticated
  }

  predicate Known(list: seq<Provenance>, p: Provenance) {
    exists i :: 0 <= i < |list| && SameProvenance(list[i], p)
  }

  function MergedProvenance(left: seq<Provenance>, right: seq<Provenance>): seq<Provenance> {
    if right == [] then left
    else
      var n := |right| - 1;
      var front := MergedProvenance(left, right[..n]);
      if Known(front, right[n]) then front else front + [right[n]]
  }

  method MergeProvenance(left: seq<Provenance>, right: seq<Provenance>) returns (out: seq<Provenance>)
    ensures out == MergedProvenance(left, right)
  {
    out := left;
    for i := 0 to |right|
      invariant out == MergedProvenance(left, right[..i])
    {
      assert right[..i + 1][..i] == right[..i];
      var duplicate := false;
      for j := 0 to |out|
        invariant duplicate <==> exists k :: 0 <= k < j && SameProvenance(out[k], right[i])
      {
        if SameProvenance(out[j], right[i]) {
          duplicate := true;
          break;
        }
      }
      if !duplicate {
        out := out + [right[i]];
      }
    }
    assert right[..|right|] == right;
  }

  lemma {:induction false} KnownAfter(left: seq<Provenance>, right: seq<Provenance>)
    ensures left <= MergedProvenance(left, right)
    ensures forall p :: p in right ==> Known(MergedProvenance(left, right), p)
  {
    if right != [] {
      var n := |right| - 1;
      KnownAfter(left, right[..n]);
      var front, out := MergedProvenance(left, right[..n]), MergedProvenance(left, right);
      assert front <= out;
      forall p | p in right
        ensures Known(out, p)
      {
        if p in right[..n] {
          var i :| 0 <= i < |front| && SameProvenance(front[i], p);
          assert SameProvenance(out[i], p);
        } else {
          assert p == right[n];
          if !Known(front, p) {
            assert SameProvenance(out[|front|], p);
          }
        }
      }
    }
  }

  /** Everything observed stays: the old rows come first, every new one is there with
      its tool, source, artifact and session, and each row that was added differs from
      the ones before it in one of the four. */
  lemma {:induction false} ProvenanceExactly(left: seq<Provenance>, right: seq<Provenance>)
    ensures var out := MergedProvenance(left, right);
            && left <= out && (forall p :: p in out ==> p in left || p in right)
            && (forall p :: p in right ==> exists i ::
                 && 0 <= i < |out| && out[i].tool == p.tool && out[i].source == p.source
                 && out[i].artifact == p.artifact && out[i].authenticated == p.authenticated)
            && forall i, k :: 0 <= i < k < |out| && |left| <= k ==>
                 out[i].tool != out[k].tool || out[i].source != out[k].source || out[i].artifact != out[k].artifact
                 || out[i].authenticated != out[k].authenticated
  {
    KnownAfter(left, right);
    var out := MergedProvenance(left, right);
    forall p | p in right
      ensures exists i ::
        && 0 <= i < |out| && out[i].tool == p.tool && out[i].source == p.source
        && out[i].artifact == p.artifact && out[i].authenticated == p.authenticated
    {
      assert Known(out, p);
    }
    AddedDiffer(left, right);
    hide MergedProvenance, Known;
    assert forall i, k :: 0 <= i < k < |out| && |left| <= k ==> !SameProvenance(out[i], out[k]);
  }

  lemma {:induction false} AddedDiffer(left: seq<Provenance>, right: seq<Provenance>)
    ensures var out := MergedProvenance(left, right);
            && (forall p :: p in out ==> p in left || p in right)
            && forall i, k :: 0 <= i < k < |out| && |left| <= k ==> !SameProvenance(out[i], out[k])
  {
    if right != [] {
      hide SameProvenance;
      var n := |right| - 1;
      var front, out := MergedProvenance(left, right[..n]), MergedProvenance(left, right);
      AddedDiffer(left, right[..n]);
      KnownAfter(left, right[..n]);
      forall i, k | 0 <= i < k < |out| && |left| <= k
        ensures !SameProvenance(out[i], out[k])
      {
        assert out[i] == front[i];
        if k < |front| {
          assert out[k] == front[k];
        } else {
          assert out[k] == right[n] && !Known(front, right[n]);
        }
      }
    }
  }

  lemma {:induction false} NothingUnknown(left: seq<Provenance>, right: seq<Provenance>)
    requires forall p :: p in right ==> Known(left, p)
    ensures MergedProvenance(left, right) == left
  {
    if right != [] {
      NothingUnknown(left, right[..|right| - 1]);
    }
  }

  lemma {:induction false} KnownToItself(list: seq<Provenance>)
    ensures forall p :: p in list ==> Known(list, p)
  {
    forall p | p in list
      ensures Known(list, p)
    {
      var i :| 0 <= i < |list| && list[i] == p;
      assert SameProvenance(list[i], p);
    }
  }

  // ----- one merge ---------------------------------------------------------

  /** A stamped state replaces an empty one, a refusing one a dispatchable one. */
  predicate TakesState(ep: Entry, incoming: Entry) {
    (ep.state == "" || (StateDispatchable(ep.state) && !StateDispatchable(incoming.state))) && incoming.state != ""
  }

  function MergeInto(ep: Entry, incoming: Entry): (r: Entry)
    ensures r.id == ep.id
  {
    var takes, replays := TakesState(ep, incoming), incoming.replayRef != "";
    var parameters := MergedParameters(ep.parameters + incoming.parameters);
    Entry(
      ep.id, ep.url,
      if incoming.observation == "observed" then "observed" else ep.observation,
      if replays then incoming.replayRef else ep.replayRef,
      if replays then incoming.readOnly else ep.readOnly,
      Distinct(ep.sources + incoming.sources),
      parameters, parameters != [],
      ep.hasForm || incoming.hasForm, ep.sensitive || incoming.sensitive,
      Distinct(ep.routes + incoming.routes),
      if ep.statusCode == 0 then incoming.statusCode else ep.statusCode,
      if ep.contentType == "" then incoming.contentType else ep.contentType,
      if ep.requiresAuth.None? then incoming.requiresAuth else ep.requiresAuth,
      if takes then incoming.state else ep.state,
      if takes then incoming.stateReason else ep.stateReason,
      MergedProvenance(ep.provenance, incoming.provenance))
  }

  /** Merging an observation into an entry a second time changes nothing. */
  lemma {:induction false} MergeAgain(ep: Entry, x: Entry)
    ensures MergeInto(MergeInto(ep, x), x) == MergeInto(ep, x)
  {
    MergeStringsTwice(ep.sources, x.sources);
    MergeStringsTwice(ep.routes, x.routes);
    MergedTwice(ep.parameters, x.parameters);
    KnownAfter(ep.provenance, x.provenance);
    NothingUnknown(MergedProvenance(ep.provenance, x.provenance), x.provenance);
    hide Distinct, MergedParameters, MergedProvenance;
  }

  /** Merging an entry into itself: nothing changes exactly when its lists are in
      their merged form already. */
  predicate Merged(x: Entry) {
    && Distinct(x.sources) == x.sources && Distinct(x.routes) == x.routes
    && MergedParameters(x.parameters) == x.parameters && (x.hasParameters <==> x.parameters != [])
  }

  lemma {:induction false} MergeSelf(x: Entry)
    ensures MergeInto(x, x) == x <==> Merged(x)
  {
    MergeStringsTwice(x.sources, x.sources);
    MergeStringsTwice(x.routes, x.routes);
    MergedTwice(x.parameters, x.parameters);
    KnownToItself(x.provenance);
    NothingUnknown(x.provenance, x.provenance);
    hide Distinct, MergedParameters, MergedProvenance;
  }

  /** The lists normalizeAttackSurfaceEndpoint gives a fresh endpoint. */
  predicate Fresh(x: Entry, source: string, route: string, parameters: seq<Parameter>) {
    && x.sources == [Trim(source)] && x.routes == (if route != "" then [route] else [])
    && x.parameters == MergedParameters(parameters) && (x.hasParameters <==> x.parameters != [])
  }

  /** A fresh endpoint is not always in merged form: it is exactly when its source
      is not blank and its route has no space at its ends. */
  lemma {:induction false} FreshIsMerged(x: Entry, source: string, route: string, parameters: seq<Parameter>)
    requires Fresh(x, source, route, parameters)
    ensures MergeInto(x, x) == x <==> Trim(source) != "" && Trim(route) == route
  {
    MergeSelf(x);
    DistinctOne(Trim(source));
    assert Trim(Trim(source)) == Trim(source);
    DistinctOne(route);
    MergedOfMerged(parameters);
    assert Trim("") == "" && Distinct([]) == [];
    hide Distinct, MergedParameters, MergeInto, Trim;
  }

  lemma {:induction false} DistinctOne(x: string)
    ensures Distinct([x]) == if Trim(x) == "" then [] else [Trim(x)]
  {
    DistinctMore([], x);
    assert [] + [x] == [x];
  }

  lemma {:induction false} MergedOfMerged(parameters: seq<Parameter>)
    ensures MergedParameters(MergedParameters(parameters)) == MergedParameters(parameters)
  {
    var m := MergedParameters(parameters);
    MergedExactly(parameters);
    NamedIsClean(parameters);
    hide MergedParameters, Increasing;
    NamedOfClean(m);
    MergedUnique(m, m);
  }

  // ----- the inventory -----------------------------------------------------

  /** Linear search for an ID; the length when there is none. */
  function Search(entries: seq<Entry>, id: string): (i: nat)
    ensures i <= |entries|
    ensures i < |entries| ==> entries[i].id == id
    ensures forall k :: 0 <= k < i ==> entries[k].id != id
  {
    if entries == [] || entries[0].id == id then 0 else 1 + Search(entries[1..], id)
  }

  function MergeOne(entries: seq<Entry>, x: Entry): seq<Entry> {
    var i := Search(entries, x.id);
    if i == |entries| then entries + [x] else entries[i := MergeInto(entries[i], x)]
  }

  ghost predicate UniqueIDs(entries: seq<Entry>) {
    forall i, j :: 0 <= i < j < |entries| ==> entries[i].id != entries[j].id
  }

  /** The index finds what linear search finds, and nothing else. */
  ghost predicate Indexed(entries: seq<Entry>, byID: map<string, nat>) {
    && UniqueIDs(entries)
    && forall id :: if id in byID then byID[id] == Search(entries, id) < |entries| else Search(entries, id) == |entries|
  }

  lemma {:induction false} SearchIs(entries: seq<Entry>, id: string, i: nat)
    requires i <= |entries| && (forall k :: 0 <= k < i ==> entries[k].id != id)
        && (i < |entries| ==> entries[i].id == id)
    ensures Search(entries, id) == i
  {
  }

  /** A merge keeps the place of every entry and the IDs; a new ID comes last. */
  lemma {:induction false} SearchAfter(entries: seq<Entry>, x: Entry, id: string)
    ensures var after := MergeOne(entries, x);
            Search(after, id) == if id == x.id then Search(entries, id)
                                 else if Search(entries, id) == |entries| then |after| else Search(entries, id)
  {
    hide MergeInto;
    var after := MergeOne(entries, x);
    SearchIs(after, id, if id == x.id then Search(entries, id) else if Search(entries, id) == |entries| then |after|
      else Search(entries, id));
  }

  lemma {:induction false} IndexedAfter(entries: seq<Entry>, byID: map<string, nat>, x: Entry)
    requires Indexed(entries, byID)
    ensures Indexed(MergeOne(entries, x), if x.id in byID then byID else byID[x.id := |entries|])
  {
    hide MergeInto;
    var after := MergeOne(entries, x);
    forall id
      ensures Search(after, id) == if id == x.id then Search(entries, id)
                                   else if Search(entries, id) == |entries| then |after| else Search(entries, id)
    {
      SearchAfter(entries, x, id);
    }
    assert |after| == if x.id in byID then |entries| else |entries| + 1;
    assert UniqueIDs(after);
    hide Search, MergeOne, UniqueIDs;
  }

  class Inventory {
    var endpoints: seq<Entry>
    var byID: map<string, nat>

    constructor ()
      ensures Valid() && endpoints == []
    {
      endpoints, byID := [], map[];
    }

    ghost predicate Valid()
      reads this
    {
      Indexed(endpoints, byID)
    }

    /** mergeSurfaceEndpoint, through the index. */
    method Merge(x: Entry)
      requires Valid()
      modifies this
      ensures Valid() && endpoints == MergeOne(old(endpoints), x)
    {
      hide MergeInto;
      IndexedAfter(endpoints, byID, x);
      assert if x.id in byID then byID[x.id] == Search(endpoints, x.id) < |endpoints|
        else Search(endpoints, x.id) == |endpoints|;
      hide Indexed, Search;
      if x.id in byID {
        var merged := MergeFields(endpoints[byID[x.id]], x);
        endpoints := endpoints[byID[x.id] := merged];
        return;
      }
      byID := byID[x.id := |endpoints|];
      endpoints := endpoints + [x];
    }
  }

  /** What a later observation fills in or replaces. */
  method MergeReplay(entry: Entry, incoming: Entry) returns (observation: string, replayRef: string, readOnly: bool)
    ensures observation == if incoming.observation == "observed" then "observed" else entry.observation
    ensures replayRef == if incoming.replayRef != "" then incoming.replayRef else entry.replayRef
    ensures readOnly == if incoming.replayRef != "" then incoming.readOnly else entry.readOnly
  {
    observation, replayRef, readOnly := entry.observation, entry.replayRef, entry.readOnly;
    if incoming.observation == "observed" {
      observation := "observed";
    }
    if incoming.replayRef != "" {
      replayRef, readOnly := incoming.replayRef, incoming.readOnly;
    }
  }

  /** What only an empty field takes from it. */
  method MergeResponse(entry: Entry, incoming: Entry)
    returns (statusCode: int, contentType: string, requiresAuth: Option<bool>)
    ensures statusCode == if entry.statusCode == 0 then incoming.statusCode else entry.statusCode
    ensures contentType == if entry.contentType == "" then incoming.contentType else entry.contentType
    ensures requiresAuth == if entry.requiresAuth.None? then incoming.requiresAuth else entry.requiresAuth
  {
    statusCode, contentType, requiresAuth := entry.statusCode, entry.contentType, entry.requiresAuth;
    if statusCode == 0 {
      statusCode := incoming.statusCode;
    }
    if contentType == "" {
      contentType := incoming.contentType;
    }
    if requiresAuth.None? {
      requiresAuth := incoming.requiresAuth;
    }
  }

  method MergeState(entry: Entry, incoming: Entry) returns (state: string, stateReason: string)
    ensures state == if TakesState(entry, incoming) then incoming.state else entry.state
    ensures stateReason == if TakesState(entry, incoming) then incoming.stateReason else entry.stateReason
  {
    state, stateReason := entry.state, entry.stateReason;
    if state == "" || (StateDispatchable(state) && !StateDispatchable(incoming.state)) {
      if incoming.state != "" {
        state, stateReason := incoming.state, incoming.stateReason;
      }
    }
  }

  /** The assignments of one merge, field by field. */
  method MergeFields(entry: Entry, incoming: Entry) returns (ep: Entry)
    ensures ep == MergeInto(entry, incoming)
  {
    hide Distinct, MergedParameters, MergedProvenance, TakesState;
    var observation, replayRef, readOnly := MergeReplay(entry, incoming);
    var sources := MergeStrings(entry.sources, incoming.sources);
    var parameters := MergeParameters(entry.parameters + incoming.parameters);
    var routes := MergeStrings(entry.routes, incoming.routes);
    var statusCode, contentType, requiresAuth := MergeResponse(entry, incoming);
    var state, stateReason := MergeState(entry, incoming);
    var provenance := MergeProvenance(entry.provenance, incoming.provenance);
    ep := Entry(entry.id, entry.url, observation, replayRef, readOnly, sources, parameters, |parameters| > 0,
                entry.hasForm || incoming.hasForm, entry.sensitive || incoming.sensitive, routes,
                statusCode, contentType, requiresAuth, state, stateReason, provenance);
  }

  /** Merging the same observation twice in a row: the second changes nothing,
      unless the first was new and not in merged form. */
  lemma {:induction false} MergeOneTwice(entries: seq<Entry>, x: Entry)
    ensures MergeOne(MergeOne(entries, x), x) == MergeOne(entries, x) <==>
        Search(entries, x.id) < |entries| || Merged(x)
  {
    hide MergeInto, Merged, Search;
    var i, after := Search(entries, x.id), MergeOne(entries, x);
    SearchAfter(entries, x, x.id);
    if i < |entries| {
      MergeAgain(entries[i], x);
      assert after[i := after[i]] == after;
    } else {
      MergeSelf(x);
      assert after[i] == x;
      assert after[i := x] == after;
      assert after[i := MergeInto(x, x)][i] == MergeInto(x, x);
    }
  }

  // ----- any run of merges -------------------------------------------------

  function MergeAll(xs: seq<Entry>): seq<Entry> {
    if xs == [] then [] else MergeOne(MergeAll(xs[..|xs| - 1]), xs[|xs| - 1])
  }

  /** Some observation of this ID, one that satisfies `what`. */
  ghost predicate SomeObserved(xs: seq<Entry>, id: string, what: Entry -> bool) {
    exists k :: 0 <= k < |xs| && xs[k].id == id && what(xs[k])
  }

  predicate Refusing(x: Entry) {
    !StateDispatchable(x.state)
  }

  predicate Any(x: Entry) {
    true
  }

  predicate WithForm(x: Entry) {
    x.hasForm
  }

  predicate Sensitive(x: Entry) {
    x.sensitive
  }

  /** What the merged inventory says of an ID: it is known when it was observed;
      its entry refuses dispatch when some observation of it did, has a form when
      some had one, and is sensitive when some was. */
  ghost predicate Faithful(entries: seq<Entry>, xs: seq<Entry>, id: string) {
    var i := Search(entries, id);
    && (i < |entries| <==> SomeObserved(xs, id, Any))
    && (i < |entries| ==>
          && (Refusing(entries[i]) <==> SomeObserved(xs, id, Refusing))
          && (entries[i].hasForm <==> SomeObserved(xs, id, WithForm))
          && (entries[i].sensitive <==> SomeObserved(xs, id, Sensitive)))
  }

  lemma {:induction false} SomeMore(xs: seq<Entry>, x: Entry, id: string, what: Entry -> bool)
    ensures SomeObserved(xs + [x], id, what) <==> SomeObserved(xs, id, what) || (x.id == id && what(x))
  {
    var all := xs + [x];
    if k :| 0 <= k < |xs| && xs[k].id == id && what(xs[k]) {
      assert all[k] == xs[k];
    }
    if x.id == id && what(x) {
      assert all[|xs|] == x;
    }
  }

  /** A merge never widens what may be dispatched. */
  lemma {:induction false} MergeRefuses(ep: Entry, x: Entry)
    ensures Refusing(MergeInto(ep, x)) <==> Refusing(ep) || Refusing(x)
    ensures MergeInto(ep, x).hasForm == (ep.hasForm || x.hasForm)
        && MergeInto(ep, x).sensitive == (ep.sensitive || x.sensitive)
  {
    hide Distinct, MergedParameters, MergedProvenance;
  }

  lemma {:induction false} FaithfulMore(entries: seq<Entry>, xs: seq<Entry>, x: Entry, id: string)
    requires Faithful(entries, xs, id)
    ensures Faithful(MergeOne(entries, x), xs + [x], id)
  {
    hide MergeInto, SomeObserved, Search, Refusing;
    SomeMore(xs, x, id, Any);
    SomeMore(xs, x, id, Refusing);
    SomeMore(xs, x, id, WithForm);
    SomeMore(xs, x, id, Sensitive);
    SearchAfter(entries, x, id);
    var i := Search(entries, id);
    if i < |entries| {
      MergeRefuses(entries[i], x);
    } else {
      NoneKnown(xs, id);
    }
  }

  lemma {:induction false} NoneKnown(xs: seq<Entry>, id: string)
    requires !SomeObserved(xs, id, Any)
    ensures !SomeObserved(xs, id, Refusing) && !SomeObserved(xs, id, WithForm) && !SomeObserved(xs, id, Sensitive)
  {
    forall k | 0 <= k < |xs|
      ensures xs[k].id != id
    {
      assert Any(xs[k]);
    }
  }

  lemma {:induction false} MergeKeepsUnique(entries: seq<Entry>, x: Entry)
    requires UniqueIDs(entries)
    ensures UniqueIDs(MergeOne(entries, x))
  {
    hide MergeInto;
  }

  /** Over any run of merges, in any order: every observed ID has one entry, which
      may be dispatched exactly when every observation of it may. */
  lemma {:induction false} MergeAllFaithful(xs: seq<Entry>, id: string)
    ensures UniqueIDs(MergeAll(xs)) && Faithful(MergeAll(xs), xs, id)
  {
    hide MergeOne, Faithful, UniqueIDs, Search;
    if xs == [] {
      NothingMerged(id);
    } else {
      var n := |xs| - 1;
      var entries := MergeAll(xs[..n]);
      MergeAllFaithful(xs[..n], id);
      MergeKeepsUnique(entries, xs[n]);
      FaithfulMore(entries, xs[..n], xs[n], id);
      assert xs == xs[..n] + [xs[n]];
    }
  }

  lemma {:induction false} NothingMerged(id: string)
    ensures UniqueIDs([]) && Faithful([], [], id)
  {
  }

  /** So the order of the observations does not matter for what may be dispatched. */
  lemma {:induction false} OrderDoesNotWiden(xs: seq<Entry>, ys: seq<Entry>, id: string)
    requires forall x :: x in xs <==> x in ys
    ensures var a, b := MergeAll(xs), MergeAll(ys);
            var i, j := Search(a, id), Search(b, id);
            && (i < |a| <==> j < |b|)
            && (i < |a| ==>
                  && (Refusing(a[i]) <==> Refusing(b[j]))
                  && a[i].hasForm == b[j].hasForm && a[i].sensitive == b[j].sensitive)
  {
    MergeAllFaithful(xs, id);
    MergeAllFaithful(ys, id);
    hide MergeAll, Search, Refusing;
    SomeSame(xs, ys, id, Any);
    SomeSame(xs, ys, id, Refusing);
    SomeSame(xs, ys, id, WithForm);
    SomeSame(xs, ys, id, Sensitive);
  }

  lemma {:induction false} SomeSame(xs: seq<Entry>, ys: seq<Entry>, id: string, what: Entry -> bool)
    requires forall x :: x in xs <==> x in ys
    ensures SomeObserved(xs, id, what) <==> SomeObserved(ys, id, what)
  {
    if k :| 0 <= k < |xs| && xs[k].id == id && what(xs[k]) {
      assert xs[k] in ys;
    }
    if k :| 0 <= k < |ys| && ys[k].id == id && what(ys[k]) {
      assert ys[k] in xs;
    }
  }
}
