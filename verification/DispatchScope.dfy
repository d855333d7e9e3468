/** The dispatch gate of internal/scanner/attack_surface.go on the application scope
    of internal/assessment/scope.go: where the URLs that are handed out lead. */
module DispatchScopes {
  import opened Wrappers
  import opened Text
  import opened Paths
  import opened Hosts
  import opened Origins
  import opened ScopeOrder
  import opened AppScopes
  import opened Budgets
  import opened Dispatches

  /** What net/url makes of the URL of an endpoint. */
  datatype Parsed = Parsed(url: Url, escapedPath: string, query: string)

  type Parser = string -> Option<Parsed>

  function UrlOf(parse: Parser, url: string): Option<Url> {
    match parse(url)
    case None => None
    case Some(parsed) => Some(parsed.url)
  }

  predicate EscapedBrace(p: string, i: int) {
    0 <= i <= |p| - 3 && (p[i..i + 3] == "%7b" || p[i..i + 3] == "%7d")
  }

  /** endpointHasPlaceholderPath, for one of the two forms of the path. */
  predicate Placeholder(path: string) {
    var p := LowerAll(path);
    HasAny(p, "{}") || exists i | 0 <= i < |p| :: EscapedBrace(p, i)
  }

  predicate Unresolved(parsed: Option<Parsed>) {
    parsed.None? || Placeholder(parsed.value.url.path) || Placeholder(parsed.value.escapedPath)
  }

  predicate AtRoot(parsed: Option<Parsed>) {
    parsed.Some? && parsed.value.url.path == "/" && parsed.value.query == ""
  }

  /** The answers a pass looks up are those of this scope and this parser. */
  ghost predicate LooksAt(look: Endpoint -> Look, scope: AppScope, parse: Parser, ip: IpTable) {
    forall ep: Endpoint ::
      var d := ParseDestination(UrlOf(parse, ep.url), ip);
      && (look(ep).allowed <==> d.Some? && AllowsTo(scope, d.value))
      && (look(ep).excluded <==>
         scope.exclusions != [] && (d.Some? ==> ExcludedTo(scope, UpperAll(Trim(ep.verb)), d.value)))
      && (look(ep).placeholder <==> Unresolved(parse(ep.url)))
      && (look(ep).root <==> AtRoot(parse(ep.url)))
  }

  lemma {:induction false} LookedUp(look: Endpoint -> Look, ep: Endpoint, scope: AppScope, parse: Parser, ip: IpTable)
    requires LooksAt(look, scope, parse, ip)
    ensures look(ep).allowed && !look(ep).excluded <==> InScope(scope, ep.verb, UrlOf(parse, ep.url), ip)
    ensures look(ep).placeholder == Unresolved(parse(ep.url)) && look(ep).root == AtRoot(parse(ep.url))
  {
    assert ParseDestination(None, ip).None?;
    hide Unresolved, AtRoot, AllowsTo, ExcludedTo, ParseDestination, UrlOf;
  }

  /** A brace, or the percent-encoding of one, in either case. */
  predicate BraceAt(path: string, i: int) {
    0 <= i < |path| &&
    (path[i] == '{' || path[i] == '}' ||
    (i + 2 < |path| && path[i] == '%' && path[i + 1] == '7' && path[i + 2] in {'b', 'B', 'd', 'D'}))
  }

  ghost predicate NoBraces(path: string) {
    forall i :: !BraceAt(path, i)
  }

  lemma {:induction false} PlaceholderExactly(path: string)
    ensures Placeholder(path) <==> !NoBraces(path)
  {
    var p := LowerAll(path);
    forall i | 0 <= i < |path|
      ensures BraceAt(path, i) <==> p[i] in "{}" || EscapedBrace(p, i)
    {
      BraceLowered(path, i);
    }
    hide LowerAll, BraceAt;
    if i :| BraceAt(path, i) {
      BraceWithin(path, i);
      assert p[i] in "{}" || EscapedBrace(p, i);
    }
    if i :| 0 <= i < |p| && EscapedBrace(p, i) {
      assert BraceAt(path, i);
    }
  }

  lemma {:induction false} BraceWithin(path: string, i: int)
    requires BraceAt(path, i)
    ensures 0 <= i < |path|
  {
  }

  lemma {:induction false} BraceLowered(path: string, i: nat)
    requires i < |path|
    ensures BraceAt(path, i) <==> LowerAll(path)[i] in "{}" || EscapedBrace(LowerAll(path), i)
  {
    hide LowerAll;
    var p := LowerAll(path);
    LowerBrace(path[i]);
    if i + 2 < |path| {
      assert p[i..i + 3] == [p[i], p[i + 1], p[i + 2]];
      LowerBrace(path[i + 1]);
      LowerBrace(path[i + 2]);
    }
  }

  lemma {:induction false} LowerBrace(c: char)
    ensures (Lower(c) in "{}" <==> c == '{' || c == '}') && (Lower(c) == '%' <==> c == '%')
    ensures (Lower(c) == '7' <==> c == '7') && (Lower(c) == 'b' <==> c in {'b', 'B'})
        && (Lower(c) == 'd' <==> c in {'d', 'D'})
  {
  }

  /** The URL can be read, and neither form of its path holds a placeholder. */
  ghost predicate Complete(parsed: Option<Parsed>) {
    parsed.Some? && NoBraces(parsed.value.url.path) && NoBraces(parsed.value.escapedPath)
  }

  lemma {:induction false} CompleteExactly(parsed: Option<Parsed>)
    ensures Complete(parsed) <==> !Unresolved(parsed)
  {
    hide Placeholder, NoBraces;
    if parsed.Some? {
      PlaceholderExactly(parsed.value.url.path);
      PlaceholderExactly(parsed.value.escapedPath);
    }
  }

  /** Eligibility with the scope in place of the looked-up answers. */
  lemma {:induction false} EligibleInScope(p: Pass, ep: Endpoint, scope: AppScope, parse: Parser, ip: IpTable)
    requires LooksAt(p.look, scope, parse, ip)
    ensures Refusal(p, ep).None? <==>
      && ep.state in {"", "in_scope"} && (p.scoped ==> InScope(scope, ep.verb, UrlOf(parse, ep.url), ip))
      && Complete(parse(ep.url)) && Harmless(p, ep) && ep.kind != "static"
      && (ep.verb != "GET" ==> p.scanner !in {"nuclei", "wapiti", "dalfox"})
      && Suits(p.scanner, p.expanded, ep,
               parse(ep.url).value.url.path == "/" && parse(ep.url).value.query == "")
  {
    hide Suits, Harmless, InScope, Unresolved, Refusal, LooksAt;
    EligibleExactly(p, ep);
    LookedUp(p.look, ep, scope, parse, ip);
    CompleteExactly(parse(ep.url));
  }

  /** Where a URL leads that was handed out for an endpoint. */
  ghost predicate LeadsInto(scope: AppScope, ep: Endpoint, parsed: Option<Parsed>, ip: IpTable) {
    && parsed.Some? && ParseDestination(Some(parsed.value.url), ip).Some?
    && var u, port := parsed.value.url, ParseDestination(Some(parsed.value.url), ip).value.port;
       && (exists o :: o in scope.origins && Names(u, o, ip) && Segments(o.pathPrefix) <= Segments(u.path))
       && (forall e :: e in scope.exclusions ==> !Bars(scope, e, UpperAll(Trim(ep.verb)), u, port, ip))
  }

  /** Every URL that a pass with a scope hands out was handed out for an endpoint of
      the inventory that is new or in scope and has a harmless method; it holds no
      placeholder, lies below a stored origin, segment by segment, and under no
      exclusion for that method. */
  lemma {:induction false} UrlsInScope(p: Pass, eps: seq<Endpoint>, asked: seq<string>, u: string,
                                       os: seq<ApprovedOrigin>, es: seq<Exclusion>, parse: Parser, ip: IpTable)
    requires p.scoped && LooksAt(p.look, NewAppScope(os, es, ip), parse, ip) && u in Scan(p, eps, asked).targets
    ensures exists ep ::
      && ep in eps && ep.url == u && ep.state in {"", "in_scope"} && Harmless(p, ep) && Complete(parse(u))
      && LeadsInto(NewAppScope(os, es, ip), ep, parse(u), ip)
  {
    hide Scan, LooksAt, LeadsInto, NewAppScope, Refusal, Reserved, Unique, Dispatchable, Harmless, Complete, Suits,
      InScope, Barred, Considered;
    var scope := NewAppScope(os, es, ip);
    TargetsExactly(p, eps, asked);
    SentIsAllowed(p, eps, asked);
    var sent := Scan(p, eps, asked).sent;
    var k :| 0 <= k < |sent| && sent[k].url == u;
    assert sent[k] in sent;
    DispatchableExactly(p, sent[k]);
    BarredRefuses(p, sent[k]);
    EligibleInScope(p, sent[k], scope, parse, ip);
    AllowedLeadsInto(sent[k], os, es, parse, ip);
  }

  lemma {:induction false} AllowedLeadsInto(ep: Endpoint, os: seq<ApprovedOrigin>, es: seq<Exclusion>, parse: Parser,
          ip: IpTable)
    requires InScope(NewAppScope(os, es, ip), ep.verb, UrlOf(parse, ep.url), ip)
    ensures LeadsInto(NewAppScope(os, es, ip), ep, parse(ep.url), ip)
  {
    hide NewAppScope, ParseDestination, Segments, AllowsTo, ExcludedTo, Bars, Names;
    var scope, u := NewAppScope(os, es, ip), parse(ep.url).value.url;
    AllowedExactly(os, es, u, ip);
    ExcludedExactly(os, es, UpperAll(Trim(ep.verb)), u, ip);
    NothingExcluded(scope, UpperAll(Trim(ep.verb)), ParseDestination(Some(u), ip).value);
  }
}
