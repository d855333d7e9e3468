/** The dispatch gate of internal/scanner/attack_surface.go: which endpoints a
    scanner is given, and the coverage row every considered endpoint keeps. */
module Dispatches {
  import opened Wrappers
  import opened Text
  import opened Budgets

  datatype Parameter = Parameter(name: string, location: string)

  datatype Coverage = Coverage(scanner: string, status: string, reason: string, attemptID: string, finishedAt: string)

  datatype Endpoint = Endpoint(
    id: string, url: string, verb: string, kind: string, state: string, stateReason: string, authContextID: string,
    parameters: seq<Parameter>, hasParameters: bool, hasForm: bool, sensitive: bool, readOnly: bool, replayRef: string,
    coverage: seq<Coverage>, history: seq<Coverage>)

  /** What the scope and net/url say of an endpoint. */
  datatype Look = Look(allowed: bool, whyNot: string, excluded: bool, why: string, placeholder: bool, root: bool)

  /** One call of the gate. `cap` is that of the budget, None without a budget;
      `limit` is not positive when there is no limit. */
  datatype Pass = Pass(
      scanner: string, limit: int, scoped: bool, look: Endpoint -> Look, expanded: bool, contextID: string,
      boundID: string, cap: Option<int>)

  // ----- eligibility -------------------------------------------------------

  predicate StateDispatchable(state: string) {
    state == "" || state == "in_scope"
  }

  predicate SafeVerb(p: Pass, ep: Endpoint) {
    ep.verb == "GET" || ep.verb == "HEAD" || ep.verb == "OPTIONS" ||
    (p.expanded && p.scanner == "zap" && ep.verb == "POST" && ep.readOnly && ep.replayRef != "")
  }

  predicate HasQuery(parameters: seq<Parameter>) {
    exists i :: 0 <= i < |parameters| && parameters[i].location == "query"
  }

  /** The traits a scanner needs; None when the endpoint has them. */
  function Traits(p: Pass, ep: Endpoint): Option<string> {
    if p.scanner == "nuclei" then None
    else if p.scanner == "apichecks" then
      if ep.kind == "api" then None else Some("endpoint is not classified as an API operation")
    else if p.scanner == "zap" then
      if p.expanded || ep.kind == "api" || ep.hasParameters || ep.hasForm || ep.sensitive then None
      else Some("endpoint has no API, parameter, form, or sensitive trait")
    else if p.scanner == "wapiti" then
      if ep.hasParameters || ep.hasForm then None else Some("endpoint has no input surface")
    else if p.scanner == "dalfox" then
      if HasQuery(ep.parameters) then None else Some("endpoint has no query parameter")
    else if p.scanner == "nikto" || p.scanner == "testssl" then
      if p.look(ep).root then None else Some("host-level scanner only tests the origin root")
    else Some("scanner is not endpoint-dispatched")
  }

  /** endpointEligibleWithPolicy: None is eligible, otherwise the reason. */
  function Refusal(p: Pass, ep: Endpoint): Option<string> {
    var look := p.look(ep);
    if !StateDispatchable(ep.state) then
      Some("endpoint state is " + ep.state + if ep.stateReason != "" then ": " + ep.stateReason else "")
    else if p.scoped && !look.allowed then Some("endpoint is out of scope: " + look.whyNot)
    else if p.scoped && look.excluded then Some("endpoint is excluded: " + look.why)
    else if look.placeholder then Some("endpoint path contains an unresolved {placeholder}")
    else if !SafeVerb(p, ep) then Some("unsafe or state-changing method is inventory-only")
    else if ep.kind == "static" then Some("static resource is discovery-only")
    else if ep.verb != "GET" && (p.scanner == "nuclei" || p.scanner == "wapiti" || p.scanner == "dalfox") then
      Some("URL-only adapter does not preserve this HTTP method; route the request to ZAP")
    else Traits(p, ep)
  }

  predicate Considered(p: Pass, ep: Endpoint) {
    p.contextID == "" || ep.authContextID == p.contextID
  }

  predicate ForeignIdentity(p: Pass, ep: Endpoint) {
    p.expanded && p.scanner != "apichecks" && ep.authContextID != "" && ep.authContextID != p.boundID
      && ep.authContextID != p.contextID
  }

  function Barred(p: Pass, ep: Endpoint): Option<string> {
    if ForeignIdentity(p, ep) then Some("request requires a separate named authentication context") else Refusal(p, ep)
  }

  /** The input surface each scanner needs; no other scanner is given endpoints. */
  predicate Suits(scanner: string, expanded: bool, ep: Endpoint, root: bool) {
    || scanner == "nuclei"
    || (scanner == "apichecks" && ep.kind == "api")
    || (scanner == "zap" && (expanded || ep.kind == "api" || ep.hasParameters || ep.hasForm || ep.sensitive))
    || (scanner == "wapiti" && (ep.hasParameters || ep.hasForm))
    || (scanner == "dalfox" && exists q :: q in ep.parameters && q.location == "query")
    || ((scanner == "nikto" || scanner == "testssl") && root)
  }

  lemma {:induction false} TraitsExactly(p: Pass, ep: Endpoint)
    ensures Traits(p, ep).None? <==> Suits(p.scanner, p.expanded, ep, p.look(ep).root)
  {
    assert HasQuery(ep.parameters) <==> exists q :: q in ep.parameters && q.location == "query" by {
      if q :| q in ep.parameters && q.location == "query" {
        var i :| 0 <= i < |ep.parameters| && ep.parameters[i] == q;
      }
    }
    hide HasQuery;
  }

  /** A reading method, or the one write that may be replayed. */
  predicate Harmless(p: Pass, ep: Endpoint) {
    || ep.verb in {"GET", "HEAD", "OPTIONS"}
    || (ep.verb == "POST" && p.scanner == "zap" && p.expanded && ep.readOnly && ep.replayRef != "")
  }

  /** What eligibility promises, without the order in which it is tested. */
  lemma {:induction false} EligibleExactly(p: Pass, ep: Endpoint)
    ensures Refusal(p, ep).None? <==>
      && ep.state in {"", "in_scope"} && (p.scoped ==> p.look(ep).allowed && !p.look(ep).excluded)
      && !p.look(ep).placeholder && Harmless(p, ep) && ep.kind != "static"
      && (ep.verb != "GET" ==> p.scanner !in {"nuclei", "wapiti", "dalfox"})
      && Suits(p.scanner, p.expanded, ep, p.look(ep).root)
  {
    hide Traits, Suits, SafeVerb, Harmless;
    TraitsExactly(p, ep);
    SafeIsHarmless(p, ep);
  }

  lemma {:induction false} SafeIsHarmless(p: Pass, ep: Endpoint)
    ensures SafeVerb(p, ep) <==> Harmless(p, ep)
  {
  }

  /** Everything that is asked of an endpoint before limit and budget: the identity
      the pass is for, no other named identity, and eligibility. */
  predicate Dispatchable(p: Pass, ep: Endpoint) {
    && (p.contextID == "" || ep.authContextID == p.contextID)
    && (p.expanded && p.scanner != "apichecks" ==> ep.authContextID in {"", p.boundID, p.contextID})
    && ep.state in {"", "in_scope"} && (p.scoped ==> p.look(ep).allowed && !p.look(ep).excluded)
    && !p.look(ep).placeholder && Harmless(p, ep) && ep.kind != "static"
    && (ep.verb != "GET" ==> p.scanner !in {"nuclei", "wapiti", "dalfox"})
    && Suits(p.scanner, p.expanded, ep, p.look(ep).root)
  }

  lemma {:induction false} DispatchableExactly(p: Pass, ep: Endpoint)
    ensures Dispatchable(p, ep) <==> Considered(p, ep) && Barred(p, ep).None?
  {
    hide Refusal, Harmless, Suits;
    EligibleExactly(p, ep);
  }

  lemma {:induction false} BarredRefuses(p: Pass, ep: Endpoint)
    ensures Barred(p, ep).None? ==> Refusal(p, ep).None?
  {
    hide Refusal;
  }

  // ----- the coverage row --------------------------------------------------

  /** setEndpointCoverage: the row of the scanner, replaced or appended. */
  function WithRow(rows: seq<Coverage>, row: Coverage): seq<Coverage> {
    if rows == [] then [row]
    else if rows[0].scanner == row.scanner then [row] + rows[1..]
    else [rows[0]] + WithRow(rows[1..], row)
  }

  predicate OneRowEach(rows: seq<Coverage>) {
    forall i, j :: 0 <= i < j < |rows| ==> rows[i].scanner != rows[j].scanner
  }

  /** Still at most one row for a scanner, the new one among them, and the rows of
      the other scanners are the same. */
  lemma {:induction false} WithRowCorrect(rows: seq<Coverage>, row: Coverage)
    requires OneRowEach(rows)
    ensures OneRowEach(WithRow(rows, row)) && row in WithRow(rows, row)
    ensures forall r :: r in WithRow(rows, row) <==> r == row || (r in rows && r.scanner != row.scanner)
  {
    if rows != [] {
      assert rows == [rows[0]] + rows[1..];
      if rows[0].scanner != row.scanner {
        WithRowCorrect(rows[1..], row);
        assert forall r :: r in rows[1..] ==> r.scanner != rows[0].scanner;
      } else {
        assert forall r :: r in rows[1..] ==> r.scanner != row.scanner;
      }
    }
  }

  method SetEndpointCoverage(rows: seq<Coverage>, row: Coverage) returns (out: seq<Coverage>)
    ensures out == WithRow(rows, row)
  {
    for i := 0 to |rows|
      invariant forall j :: 0 <= j < i ==> rows[j].scanner != row.scanner
    {
      if rows[i].scanner == row.scanner {
        out := rows[i := row];
        WithRowAt(rows, row, i);
        return;
      }
    }
    out := rows + [row];
    WithRowAt(rows, row, |rows|);
  }

  lemma {:induction false} WithRowAt(rows: seq<Coverage>, row: Coverage, i: nat)
    requires i <= |rows| && (forall j :: 0 <= j < i ==> rows[j].scanner != row.scanner)
    requires i < |rows| ==> rows[i].scanner == row.scanner
    ensures WithRow(rows, row) == if i < |rows| then rows[i := row] else rows + [row]
  {
    if i > 0 {
      WithRowAt(rows[1..], row, i - 1);
    }
  }

  // ----- one pass ----------------------------------------------------------

  /** Where a pass is: the URLs given out, the variants counted, the IDs that were
      asked of the budget so far, and the endpoints that were dispatched. */
  datatype Progress = Progress(targets: seq<string>, variants: nat, asked: seq<string>, sent: seq<Endpoint>)

  predicate Full(p: Pass, t: Progress) {
    p.limit > 0 && (if p.expanded then t.variants >= p.limit else |t.targets| >= p.limit)
  }

  predicate Granted(p: Pass, asked: seq<string>, id: string) {
    p.cap.None? || (Trim(id) != "" && Trim(id) in Reserved(p.cap.value, asked))
  }

  /** One endpoint: None leaves it alone, otherwise its status and reason. */
  function Decide(p: Pass, t: Progress, ep: Endpoint): (Progress, Option<(string, string)>) {
    var barred := Barred(p, ep);
    var asking := t.(asked := t.asked + if p.cap.None? then [] else [ep.id]);
    if !Considered(p, ep) then (t, None)
    else if barred.Some? then (t, Some(("skipped", barred.value)))
    else if Full(p, t) then (t, Some(("skipped", "endpoint budget exhausted")))
    else if !Granted(p, asking.asked, ep.id) then (asking, Some(("skipped", "assessment endpoint budget exhausted")))
    else
      (asking.(variants := t.variants + 1, sent := t.sent + [ep],
               targets := if ep.url in t.targets then t.targets else t.targets + [ep.url]),
       Some(("dispatched", "")))
  }

  function Covered(p: Pass, ep: Endpoint, decision: Option<(string, string)>): Endpoint {
    match decision
    case None => ep
    case Some((status, reason)) => ep.(coverage := WithRow(ep.coverage, Coverage(p.scanner, status, reason, "", "")))
  }

  function Scan(p: Pass, eps: seq<Endpoint>, asked: seq<string>): Progress {
    if eps == [] then Progress([], 0, asked, [])
    else Decide(p, Scan(p, eps[..|eps| - 1], asked), eps[|eps| - 1]).0
  }

  /** The endpoint `i` after the pass. */
  function After(p: Pass, eps: seq<Endpoint>, asked: seq<string>, i: nat): Endpoint
    requires i < |eps|
  {
    Covered(p, eps[i], Decide(p, Scan(p, eps[..i], asked), eps[i]).1)
  }

  predicate Dispatched(p: Pass, eps: seq<Endpoint>, asked: seq<string>, i: nat)
    requires i < |eps|
  {
    Decide(p, Scan(p, eps[..i], asked), eps[i]).1 == Some(("dispatched", ""))
  }

  // ----- what a pass promises ----------------------------------------------

  /** The URLs given out are those of the endpoints sent, each once, and no more
      than the limit. */
  lemma {:induction false} TargetsExactly(p: Pass, eps: seq<Endpoint>, asked: seq<string>)
    ensures var t := Scan(p, eps, asked);
            && Unique(t.targets) && |t.targets| <= t.variants == |t.sent|
            && (p.limit > 0 ==> |t.targets| <= p.limit && (p.expanded ==> t.variants <= p.limit))
            && forall u :: u in t.targets <==> exists k :: 0 <= k < |t.sent| && t.sent[k].url == u
  {
    if eps != [] {
      var n := |eps| - 1;
      TargetsExactly(p, eps[..n], asked);
      hide Barred, Granted, Considered;
      DecideKeeps(p, Scan(p, eps[..n], asked), eps[n]);
    }
  }

  ghost predicate Tallied(p: Pass, t: Progress) {
    && Unique(t.targets) && |t.targets| <= t.variants == |t.sent|
    && (p.limit > 0 ==> |t.targets| <= p.limit && (p.expanded ==> t.variants <= p.limit))
    && forall u :: u in t.targets <==> exists k :: 0 <= k < |t.sent| && t.sent[k].url == u
  }

  lemma {:induction false} DecideKeeps(p: Pass, t: Progress, ep: Endpoint)
    requires Tallied(p, t)
    ensures Tallied(p, Decide(p, t, ep).0)
  {
    hide Barred, Granted, Considered;
    var t' := Decide(p, t, ep).0;
    if t'.sent != t.sent {
      forall u
        ensures u in t'.targets <==> exists k :: 0 <= k < |t'.sent| && t'.sent[k].url == u
      {
        if k :| 0 <= k < |t.sent| && t.sent[k].url == u {
          assert t'.sent[k].url == u;
        }
        if u == ep.url {
          assert t'.sent[|t.sent|].url == u;
        }
      }
    }
  }

  ghost predicate SomeDispatched(p: Pass, eps: seq<Endpoint>, asked: seq<string>, u: string) {
    exists i :: 0 <= i < |eps| && Dispatched(p, eps, asked, i) && eps[i].url == u
  }

  /** A URL is given out exactly when some endpoint that has it is marked as
      dispatched. */
  lemma {:induction false} UrlsAreDispatched(p: Pass, eps: seq<Endpoint>, asked: seq<string>, u: string)
    ensures u in Scan(p, eps, asked).targets <==> SomeDispatched(p, eps, asked, u)
  {
    hide Decide, Dispatched;
    if eps != [] {
      UrlsAreDispatched(p, eps[..|eps| - 1], asked, u);
      hide Scan, SomeDispatched;
      LastUrl(p, eps, asked, u);
      SomeDispatchedMore(p, eps, asked, u);
    }
  }

  lemma {:induction false} SameDispatched(p: Pass, eps: seq<Endpoint>, asked: seq<string>, i: nat)
    requires i < |eps| - 1
    ensures var front := eps[..|eps| - 1];
            (Dispatched(p, front, asked, i) <==> Dispatched(p, eps, asked, i)) && front[i] == eps[i]
  {
    hide Scan, Decide;
    assert eps[..|eps| - 1][..i] == eps[..i];
  }

  lemma {:induction false} SomeDispatchedMore(p: Pass, eps: seq<Endpoint>, asked: seq<string>, u: string)
    requires eps != []
    ensures var n := |eps| - 1;
            SomeDispatched(p, eps, asked, u) <==>
              SomeDispatched(p, eps[..n], asked, u) || (Dispatched(p, eps, asked, n) && eps[n].url == u)
  {
    hide Scan, Decide, Dispatched;
    var n := |eps| - 1;
    var front := eps[..n];
    if i :| 0 <= i < n && Dispatched(p, front, asked, i) && front[i].url == u {
      SameDispatched(p, eps, asked, i);
    }
    if i :| 0 <= i < n && Dispatched(p, eps, asked, i) && eps[i].url == u {
      SameDispatched(p, eps, asked, i);
      assert front[i].url == u;
    }
  }

  lemma {:induction false} LastUrl(p: Pass, eps: seq<Endpoint>, asked: seq<string>, u: string)
    requires eps != []
    ensures var n := |eps| - 1;
            u in Scan(p, eps, asked).targets <==>
              u in Scan(p, eps[..n], asked).targets || (Dispatched(p, eps, asked, n) && eps[n].url == u)
  {
    hide Scan, Barred, Granted, Considered, Full;
    ScanStep(p, eps, asked);
  }

  lemma {:induction false} AskedGrows(p: Pass, eps: seq<Endpoint>, asked: seq<string>)
    ensures asked <= Scan(p, eps, asked).asked
  {
    hide Barred, Granted, Considered, Full;
    if eps != [] {
      AskedGrows(p, eps[..|eps| - 1], asked);
    }
  }

  /** A place in the budget is kept, whatever is asked later. */
  lemma {:induction false} StaysReserved(cap: int, asked: seq<string>, later: seq<string>, id: string)
    requires Distinct(asked) <= Distinct(later) && id in Reserved(cap, asked)
    ensures id in Reserved(cap, later)
  {
    hide Distinct;
    assert Reserved(cap, asked) <= Reserved(cap, later);
  }

  /** Whatever was sent was considered, eligible and in scope, and holds one of the
      reserved places of the budget, then and ever after. */
  lemma {:induction false} SentIsAllowed(p: Pass, eps: seq<Endpoint>, asked: seq<string>)
    ensures forall ep :: ep in Scan(p, eps, asked).sent ==>
      && ep in eps && Dispatchable(p, ep)
      && (p.cap.Some? ==> Trim(ep.id) in Reserved(p.cap.value, Scan(p, eps, asked).asked))
  {
    if eps != [] {
      var n := |eps| - 1;
      var t, t' := Scan(p, eps[..n], asked), Scan(p, eps, asked);
      SentIsAllowed(p, eps[..n], asked);
      hide Barred, Considered, Full, Scan, Reserved, Trim, Dispatchable;
      DispatchableExactly(p, eps[n]);
      assert t' == Decide(p, t, eps[n]).0 by {
        assert Scan(p, eps, asked) == Decide(p, Scan(p, eps[..n], asked), eps[n]).0 by {
          ScanStep(p, eps, asked);
        }
      }
      assert t.asked <= t'.asked;
      forall ep | ep in t'.sent
        ensures ep in eps && Dispatchable(p, ep)
        ensures p.cap.Some? ==> Trim(ep.id) in Reserved(p.cap.value, t'.asked)
      {
        if ep in t.sent && p.cap.Some? {
          DistinctPrefix(t.asked, t'.asked);
          StaysReserved(p.cap.value, t.asked, t'.asked, Trim(ep.id));
        }
      }
    }
  }

  /** An endpoint is dispatched exactly when it may be, there is room in the call, and
      the budget has a place for it. The room is counted in endpoints by the expanded
      workflow, in URLs otherwise. */
  lemma {:induction false} DispatchedExactly(p: Pass, eps: seq<Endpoint>, asked: seq<string>, i: nat)
    requires i < |eps|
    ensures var before := Scan(p, eps[..i], asked);
            Dispatched(p, eps, asked, i) <==>
              && Dispatchable(p, eps[i])
              && (p.limit <= 0 || (if p.expanded then |before.sent| else |before.targets|) < p.limit)
              && (p.cap.Some? ==>
                 Trim(eps[i].id) != "" && Trim(eps[i].id) in Reserved(p.cap.value, before.asked + [eps[i].id]))
  {
    hide Barred, Considered, Dispatchable, Scan, Reserved, Trim;
    DispatchableExactly(p, eps[i]);
    SentCounted(p, eps[..i], asked);
  }

  lemma {:induction false} SentCounted(p: Pass, eps: seq<Endpoint>, asked: seq<string>)
    ensures Scan(p, eps, asked).variants == |Scan(p, eps, asked).sent|
  {
    if eps != [] {
      SentCounted(p, eps[..|eps| - 1], asked);
    }
    hide Barred, Granted, Considered, Full;
  }

  lemma {:induction false} ScanStep(p: Pass, eps: seq<Endpoint>, asked: seq<string>)
    requires eps != []
    ensures Scan(p, eps, asked) == Decide(p, Scan(p, eps[..|eps| - 1], asked), eps[|eps| - 1]).0
  {
  }

  /** Every considered endpoint ends with exactly one row of the scanner, which
      says whether it was dispatched; the others are untouched. */
  lemma {:induction false} RowsAfter(p: Pass, eps: seq<Endpoint>, asked: seq<string>, i: nat)
    requires i < |eps| && OneRowEach(eps[i].coverage)
    ensures var after := After(p, eps, asked, i);
            && OneRowEach(after.coverage) && after == eps[i].(coverage := after.coverage)
            && (!Considered(p, eps[i]) ==> after == eps[i])
            && (Considered(p, eps[i]) ==>
               exists r :: r in after.coverage && r.scanner == p.scanner
                 && (r.status == "dispatched" <==> Dispatched(p, eps, asked, i)))
            && forall r: Coverage :: r.scanner != p.scanner ==> (r in after.coverage <==> r in eps[i].coverage)
  {
    hide Barred, Granted, Considered, Full, Scan, WithRow, OneRowEach;
    var decision := Decide(p, Scan(p, eps[..i], asked), eps[i]).1;
    if decision.Some? {
      var row := Coverage(p.scanner, decision.value.0, decision.value.1, "", "");
      WithRowCorrect(eps[i].coverage, row);
      assert row in After(p, eps, asked, i).coverage;
    }
  }

  // ----- a whole assessment ------------------------------------------------

  datatype Call = Call(p: Pass, eps: seq<Endpoint>)

  /** What a call asks of the budget is asked by the time `after`. */
  ghost predicate Continues(c: Call, before: seq<string>, after: seq<string>) {
    Distinct(Scan(c.p, c.eps, before).asked) <= Distinct(after)
  }

  /** Calls on one budget, by whatever scanners: `history[i]` is what the budget was
      asked before call `i`, and others may ask it between the calls. */
  ghost predicate Shared(calls: seq<Call>, history: seq<seq<string>>, cap: int) {
    |history| == |calls| + 1 && forall i :: 0 <= i < |calls| ==> SharedBy(calls, history, cap, i)
  }

  ghost predicate SharedBy(calls: seq<Call>, history: seq<seq<string>>, cap: int, i: nat)
    requires i < |calls| < |history|
  {
    calls[i].p.cap == Some(cap) && Continues(calls[i], history[i], history[i + 1])
  }

  function IdsOf(eps: seq<Endpoint>): set<string> {
    set ep | ep in eps :: Trim(ep.id)
  }

  /** What the first `k` calls sent. */
  function SentIds(calls: seq<Call>, history: seq<seq<string>>, k: nat): set<string>
    requires k <= |calls| <= |history|
  {
    if k == 0 then {}
    else SentIds(calls, history, k - 1) + IdsOf(Scan(calls[k - 1].p, calls[k - 1].eps, history[k - 1]).sent)
  }

  lemma {:induction false} CallIsReserved(c: Call, before: seq<string>, after: seq<string>, cap: int)
    requires c.p.cap == Some(cap) && Continues(c, before, after)
    ensures Distinct(before) <= Distinct(after)
    ensures IdsOf(Scan(c.p, c.eps, before).sent) <= SetOf(Reserved(cap, after))
  {
    hide Scan, Reserved, Trim, Barred, Considered, Distinct;
    var asked := Scan(c.p, c.eps, before).asked;
    SentIsAllowed(c.p, c.eps, before);
    AskedGrows(c.p, c.eps, before);
    DistinctPrefix(before, asked);
    forall id | id in IdsOf(Scan(c.p, c.eps, before).sent)
      ensures id in Reserved(cap, after)
    {
      StaysReserved(cap, asked, after, id);
    }
  }

  lemma {:induction false} SentAreReserved(calls: seq<Call>, history: seq<seq<string>>, cap: int, k: nat)
    requires Shared(calls, history, cap) && k <= |calls|
    ensures SentIds(calls, history, k) <= SetOf(Reserved(cap, history[k]))
  {
    hide Scan, Reserved, Distinct, Continues, IdsOf, SetOf;
    if k > 0 {
      SentAreReserved(calls, history, cap, k - 1);
      assert SharedBy(calls, history, cap, k - 1);
      CallIsReserved(calls[k - 1], history[k - 1], history[k], cap);
      AllStayReserved(cap, history[k - 1], history[k]);
    }
  }

  lemma {:induction false} AllStayReserved(cap: int, asked: seq<string>, later: seq<string>)
    requires Distinct(asked) <= Distinct(later)
    ensures SetOf(Reserved(cap, asked)) <= SetOf(Reserved(cap, later))
  {
    hide Distinct, Reserved;
    forall id | id in Reserved(cap, asked)
      ensures id in Reserved(cap, later)
    {
      StaysReserved(cap, asked, later, id);
    }
  }

  /** However many scanners share the budget, the distinct endpoints dispatched
      over the whole assessment never exceed the cap. */
  lemma {:induction false} CampaignCapped(calls: seq<Call>, history: seq<seq<string>>, cap: int)
    requires cap > 0 && Shared(calls, history, cap)
    ensures |SentIds(calls, history, |calls|)| <= cap
  {
    var asked := history[|calls|];
    SentAreReserved(calls, history, cap, |calls|);
    SetOfSize(Reserved(cap, asked));
    SubsetSize(SentIds(calls, history, |calls|), SetOf(Reserved(cap, asked)));
  }

  lemma {:induction false} SetOfSize(xs: seq<string>)
    ensures |SetOf(xs)| <= |xs|
  {
    if xs != [] {
      var n := |xs| - 1;
      SetOfSize(xs[..n]);
      assert SetOf(xs) == SetOf(xs[..n]) + {xs[n]};
    }
  }

  lemma {:induction false} SubsetSize(a: set<string>, b: set<string>)
    requires a <= b
    ensures |a| <= |b|
  {
    if a != {} {
      var x :| x in a;
      SubsetSize(a - {x}, b - {x});
    }
  }

  // ----- the inventory in place --------------------------------------------

  class AttackSurface {
    var endpoints: seq<Endpoint>

    constructor (endpoints: seq<Endpoint>)
      ensures this.endpoints == endpoints
    {
      this.endpoints := endpoints;
    }
  }

  /** The budget is asked for one endpoint, through ReserveEndpoints. */
  method AskBudget(budget: AssessmentBudget?, id: string) returns (granted: bool)
    requires budget != null ==> budget.Valid()
    modifies budget
    ensures budget == null ==> granted
    ensures budget != null ==>
      && budget.Valid() && Distinct(budget.asked) == Distinct(old(budget.asked) + [id])
      && (granted <==> Trim(id) != "" && Trim(id) in Reserved(budget.maxEndpoints, old(budget.asked) + [id]))
  {
    if budget == null {
      return true;
    }
    var out := ReserveEndpoints(budget, [id]);
    OneGranted(Some(budget.maxEndpoints), budget.asked, id);
    granted := |out| > 0;
  }

  lemma {:induction false} OneGranted(cap: Option<int>, asked: seq<string>, id: string)
    ensures GrantedOf(cap, asked, [id]) != [] <==>
        Trim(id) != "" && (cap.None? || Trim(id) in Reserved(cap.value, asked))
  {
    DistinctMore([], id);
    assert [] + [id] == [id];
    assert Distinct([id]) == if Trim(id) == "" then [] else [Trim(id)];
    if Trim(id) != "" {
      FilterMore([], Trim(id), cap, asked);
      assert [] + [Trim(id)] == [Trim(id)];
    }
  }

  lemma {:induction false} SameDistinct(a: seq<string>, b: seq<string>, id: string)
    requires Distinct(a) == Distinct(b)
    ensures Distinct(a + [id]) == Distinct(b + [id])
  {
    DistinctMore(a, id);
    DistinctMore(b, id);
  }

  /** The decision on one endpoint, and what it adds to the URLs and counters. */
  method DecideOne(p: Pass, ep: Endpoint, targets: seq<string>, variants: nat, budget: AssessmentBudget?,
          ghost t: Progress)
    returns (decision: Option<(string, string)>, targets': seq<string>, variants': nat, ghost t': Progress)
    requires budget != null ==> budget.Valid() && Distinct(budget.asked) == Distinct(t.asked)
    requires p.cap == if budget == null then None else Some(budget.maxEndpoints)
    requires targets == t.targets && variants == t.variants
    modifies budget
    ensures (t', decision) == Decide(p, t, ep)
    ensures targets' == t'.targets && variants' == t'.variants
    ensures budget != null ==> budget.Valid() && Distinct(budget.asked) == Distinct(t'.asked)
  {
    hide Barred, Considered, Distinct, Trim, AssessmentBudget.Valid;
    targets', variants', t' := targets, variants, Decide(p, t, ep).0;
    if !Considered(p, ep) {
      return None, targets', variants', t';
    }
    var barred := Barred(p, ep);
    if barred.Some? {
      return Some(("skipped", barred.value)), targets', variants', t';
    }
    if p.limit > 0 && ((p.expanded && variants >= p.limit) || (!p.expanded && |targets| >= p.limit)) {
      return Some(("skipped", "endpoint budget exhausted")), targets', variants', t';
    }
    if budget != null {
      SameDistinct(budget.asked, t.asked, ep.id);
    }
    var granted := AskBudget(budget, ep.id);
    if !granted {
      return Some(("skipped", "assessment endpoint budget exhausted")), targets', variants', t';
    }
    variants' := variants + 1;
    if ep.url !in targets {
      targets' := targets + [ep.url];
    }
    decision := Some(("dispatched", ""));
  }

  /** dispatchTargetsWithPolicy: the loop over the inventory, on a surface and a
      budget that may be nil. */
  method DispatchTargets(surface: AttackSurface?, p: Pass, budget: AssessmentBudget?) returns (targets: seq<string>)
    requires budget != null ==> budget.Valid()
    requires p.cap == if budget == null then None else Some(budget.maxEndpoints)
    modifies surface, budget
    ensures surface == null ==> targets == []
    ensures budget != null ==> budget.Valid()
    ensures surface != null ==>
      var eps, asked := old(surface.endpoints), if budget == null then [] else old(budget.asked);
      && targets == Scan(p, eps, asked).targets
      && |surface.endpoints| == |eps|
         && (forall i :: 0 <= i < |eps| ==> surface.endpoints[i] == After(p, eps, asked, i))
      && (budget != null ==>
         && Continues(Call(p, eps), asked, budget.asked)
         && Distinct(budget.asked) == Distinct(Scan(p, eps, asked).asked)
         && IdsOf(Scan(p, eps, asked).sent) <= budget.endpoints)
  {
    hide Decide, Distinct, AssessmentBudget.Valid, Scan, After, Covered, IdsOf, SetOf, Reserved;
    if surface == null {
      return [];
    }
    ghost var eps, asked := surface.endpoints, if budget == null then [] else budget.asked;
    ghost var t := Progress([], 0, asked, []);
    targets := [];
    var variants := 0;
    ScanNothing(p, eps, asked);
    for i := 0 to |surface.endpoints|
      invariant |surface.endpoints| == |eps| && forall k :: i <= k < |eps| ==> surface.endpoints[k] == eps[k]
      invariant forall k :: 0 <= k < i ==> surface.endpoints[k] == After(p, eps, asked, k)
      invariant t == Scan(p, eps[..i], asked) && targets == t.targets && variants == t.variants
      invariant budget != null ==> budget.Valid() && Distinct(budget.asked) == Distinct(t.asked)
    {
      var ep := surface.endpoints[i];
      ScanNext(p, eps, asked, i);
      var decision;
      decision, targets, variants, t := DecideOne(p, ep, targets, variants, budget, t);
      var ep' := Cover(p, ep, decision);
      AfterIs(p, eps, asked, i);
      surface.endpoints := surface.endpoints[i := ep'];
    }
    assert eps[..|eps|] == eps;
    if budget != null {
      CallIsReserved(Call(p, eps), asked, budget.asked, budget.maxEndpoints);
      EndpointsAreReserved(budget);
    }
  }

  lemma {:induction false} EndpointsAreReserved(budget: AssessmentBudget)
    requires budget.Valid()
    ensures budget.endpoints == SetOf(Reserved(budget.maxEndpoints, budget.asked))
  {
  }

  lemma {:induction false} AfterIs(p: Pass, eps: seq<Endpoint>, asked: seq<string>, i: nat)
    requires i < |eps|
    ensures After(p, eps, asked, i) == Covered(p, eps[i], Decide(p, Scan(p, eps[..i], asked), eps[i]).1)
  {
    hide Decide, Scan, Covered;
  }

  method Cover(p: Pass, ep: Endpoint, decision: Option<(string, string)>) returns (ep': Endpoint)
    ensures ep' == Covered(p, ep, decision)
  {
    if decision.None? {
      return ep;
    }
    var rows := SetEndpointCoverage(ep.coverage, Coverage(p.scanner, decision.value.0, decision.value.1, "", ""));
    ep' := ep.(coverage := rows);
  }

  lemma {:induction false} ScanNothing(p: Pass, eps: seq<Endpoint>, asked: seq<string>)
    ensures Scan(p, eps[..0], asked) == Progress([], 0, asked, [])
  {
  }

  lemma {:induction false} ScanNext(p: Pass, eps: seq<Endpoint>, asked: seq<string>, i: nat)
    requires i < |eps|
    ensures Scan(p, eps[..i + 1], asked) == Decide(p, Scan(p, eps[..i], asked), eps[i]).0
  {
    assert eps[..i + 1][..i] == eps[..i];
    ScanStep(p, eps[..i + 1], asked);
  }

  // ----- the outcome of a run ----------------------------------------------

  datatype Outcome = Outcome(
      status: string, partial: bool, batch: bool, attemptID: string, finishedAt: string, reason: string)

  function FinalStatus(o: Outcome): string {
    var status := if o.status == "not_applicable" || o.status == "cancelled" then "failed" else o.status;
    if status == "completed" then
      if o.partial then "partial" else if o.batch then "batch_completed" else status
    else status
  }

  predicate Awaits(row: Coverage, scanner: string) {
    row.scanner == scanner && row.status == "dispatched"
  }

  function SettledRow(row: Coverage, o: Outcome): Coverage {
    row.(attemptID := o.attemptID, status := FinalStatus(o), finishedAt := o.finishedAt,
      reason := if o.reason != "" then o.reason else row.reason)
  }

  function Settled(rows: seq<Coverage>, scanner: string, o: Outcome): (r: seq<Coverage>)
    ensures |r| == |rows|
    ensures forall i :: 0 <= i < |rows| ==> r[i] == if Awaits(rows[i], scanner) then SettledRow(rows[i], o) else rows[i]
  {
    seq(|rows|, i requires 0 <= i < |rows| => if Awaits(rows[i], scanner) then SettledRow(rows[i], o) else rows[i])
  }

  /** What the history gains: each row that was settled. */
  function Gained(rows: seq<Coverage>, scanner: string, o: Outcome): seq<Coverage> {
    if rows == [] then []
    else
      var n := |rows| - 1;
      Gained(rows[..n], scanner, o) + if Awaits(rows[n], scanner) then [SettledRow(rows[n], o)] else []
  }

  function CompletedEndpoint(ep: Endpoint, scanner: string, o: Outcome): Endpoint {
    ep.(coverage := Settled(ep.coverage, scanner, o), history := ep.history + Gained(ep.coverage, scanner, o))
  }

  method CompleteEndpoint(ep: Endpoint, scanner: string, o: Outcome) returns (out: Endpoint)
    ensures out == CompletedEndpoint(ep, scanner, o)
  {
    hide FinalStatus, SettledRow, Awaits, Settled;
    var rows, history := ep.coverage, ep.history;
    for j := 0 to |rows|
      invariant |rows| == |ep.coverage| && forall k :: j <= k < |rows| ==> rows[k] == ep.coverage[k]
      invariant forall k :: 0 <= k < j ==> rows[k] == Settled(ep.coverage, scanner, o)[k]
      invariant history == ep.history + Gained(ep.coverage[..j], scanner, o)
    {
      assert ep.coverage[..j + 1][..j] == ep.coverage[..j];
      if !Awaits(rows[j], scanner) {
        continue;
      }
      rows := rows[j := SettledRow(rows[j], o)];
      history := history + [rows[j]];
    }
    assert ep.coverage[..|rows|] == ep.coverage;
    out := ep.(coverage := rows, history := history);
  }

  method CompleteEndpointCoverage(surface: AttackSurface?, scanner: string, o: Outcome)
    modifies surface
    ensures surface != null ==>
      && |surface.endpoints| == |old(surface.endpoints)|
      && forall i :: 0 <= i < |surface.endpoints| ==>
         surface.endpoints[i] == CompletedEndpoint(old(surface.endpoints)[i], scanner, o)
  {
    hide CompletedEndpoint;
    if surface == null {
      return;
    }
    ghost var eps := surface.endpoints;
    for i := 0 to |surface.endpoints|
      invariant |surface.endpoints| == |eps| && forall k :: i <= k < |eps| ==> surface.endpoints[k] == eps[k]
      invariant forall k :: 0 <= k < i ==> surface.endpoints[k] == CompletedEndpoint(eps[k], scanner, o)
    {
      var ep := CompleteEndpoint(surface.endpoints[i], scanner, o);
      surface.endpoints := surface.endpoints[i := ep];
    }
  }

  /** What a waiting row becomes: only a whole run of a scanner with evidence for each
      endpoint completes it, and a run that was cancelled or did not apply fails it. */
  lemma {:induction false} SettledExactly(ep: Endpoint, scanner: string, o: Outcome, i: nat)
    requires i < |ep.coverage| && ep.coverage[i].scanner == scanner && ep.coverage[i].status == "dispatched"
    ensures var row := CompletedEndpoint(ep, scanner, o).coverage[i];
            && (row.status == "completed" <==> o.status == "completed" && !o.partial && !o.batch)
            && (row.status == "batch_completed" <==>
               (o.status == "completed" && !o.partial && o.batch) || o.status == "batch_completed")
            && (row.status == "partial" <==> (o.status == "completed" && o.partial) || o.status == "partial")
            && (row.status == "failed" <==> o.status in {"failed", "cancelled", "not_applicable"})
            && row.scanner == scanner && row.attemptID == o.attemptID && row.finishedAt == o.finishedAt
            && row.reason == if o.reason == "" then ep.coverage[i].reason else o.reason
  {
  }

  /** A run settles each dispatched endpoint once: one history entry where a row
      waited, none elsewhere, nothing left waiting, and a second call finds
      nothing to do. */
  lemma {:induction false} SettledOnce(ep: Endpoint, scanner: string, o: Outcome)
    requires OneRowEach(ep.coverage) && o.status != "dispatched"
    ensures var after := CompletedEndpoint(ep, scanner, o);
            && OneRowEach(after.coverage)
            && |after.history| == |ep.history| + (if exists r :: r in ep.coverage && Awaits(r, scanner) then 1 else 0)
            && (forall r :: r in after.coverage ==> !Awaits(r, scanner))
            && (forall r: Coverage :: r.scanner != scanner ==> (r in after.coverage <==> r in ep.coverage))
            && CompletedEndpoint(after, scanner, o) == after
  {
    var after := CompletedEndpoint(ep, scanner, o);
    assert FinalStatus(o) != "dispatched";
    hide FinalStatus;
    GainedOnce(ep.coverage, scanner, o);
    NothingGained(after.coverage, scanner, o);
    assert Settled(after.coverage, scanner, o) == after.coverage;
    SettledOthers(ep.coverage, scanner, o);
  }

  lemma {:induction false} SettledOthers(rows: seq<Coverage>, scanner: string, o: Outcome)
    ensures forall r: Coverage :: r.scanner != scanner ==> (r in Settled(rows, scanner, o) <==> r in rows)
  {
    hide FinalStatus;
    var out := Settled(rows, scanner, o);
    forall r: Coverage | r.scanner != scanner
      ensures r in out <==> r in rows
    {
      if r in rows {
        var i :| 0 <= i < |rows| && rows[i] == r;
        assert out[i] == r;
      }
    }
  }

  lemma {:induction false} NothingGained(rows: seq<Coverage>, scanner: string, o: Outcome)
    requires forall r :: r in rows ==> !Awaits(r, scanner)
    ensures Gained(rows, scanner, o) == []
  {
    if rows != [] {
      NothingGained(rows[..|rows| - 1], scanner, o);
    }
  }

  lemma {:induction false} GainedOnce(rows: seq<Coverage>, scanner: string, o: Outcome)
    requires OneRowEach(rows)
    ensures |Gained(rows, scanner, o)| == if exists r :: r in rows && Awaits(r, scanner) then 1 else 0
  {
    if rows != [] {
      var n := |rows| - 1;
      hide FinalStatus;
      assert rows == rows[..n] + [rows[n]];
      if Awaits(rows[n], scanner) {
        assert rows[n] in rows;
        NothingGained(rows[..n], scanner, o);
      } else {
        GainedOnce(rows[..n], scanner, o);
      }
    }
  }
}
