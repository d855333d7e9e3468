/** The request boundary of one application, internal/assessment/scope.go: what a
    scope is built from, which requests it allows and which it excludes. */
module AppScopes {
  import opened Wrappers
  import opened Text
  import opened Paths
  import opened Globs
  import opened Hosts
  import opened Origins
  import opened NormalForms
  import opened RowOrders
  import opened ScopeOrder

  datatype AppScope = AppScope(origins: seq<ApprovedOrigin>, exclusions: seq<Exclusion>)

  // ----- building a scope --------------------------------------------------

  function NormalBinding(origin: string, ip: IpTable): string {
    var t := Trim(origin);
    if t == "" then t
    else match ParseApprovedOrigin("", t, ip)
      case None => t
      case Some(o) => if o.pathPrefix == "/" then Serialize(o.scheme, o.host, o.port) else t
  }

  function NormalVerb(verb: string): string {
    var t := UpperAll(Trim(verb));
    if t == "*" then "" else t
  }

  function NormalPattern(p: string): string {
    var t := Trim(p);
    if "/" <= t && !HasAny(t, "?#") then CleanPath(t) else t
  }

  function NormalizeExclusion(e: Exclusion, ip: IpTable): Exclusion {
    Exclusion(Trim(e.targetID), NormalBinding(e.origin, ip), NormalVerb(e.verb), NormalPattern(e.pathPattern),
      Trim(e.reason))
  }

  function AdmitAll(origins: seq<ApprovedOrigin>, ip: IpTable): seq<ApprovedOrigin> {
    if origins == [] then []
    else
      var rest := AdmitAll(origins[..|origins| - 1], ip);
      match Admit(origins[|origins| - 1], ip)
      case None => rest
      case Some(o) => rest + [o]
  }

  function NormalizeAll(exclusions: seq<Exclusion>, ip: IpTable): (r: seq<Exclusion>)
    ensures |r| == |exclusions|
    ensures forall i :: 0 <= i < |r| ==> r[i] == NormalizeExclusion(exclusions[i], ip)
  {
    seq(|exclusions|, i requires 0 <= i < |exclusions| => NormalizeExclusion(exclusions[i], ip))
  }

  function NewAppScope(origins: seq<ApprovedOrigin>, exclusions: seq<Exclusion>, ip: IpTable): AppScope {
    AppScope(NormalForm(AdmitAll(origins, ip), OriginLe, OriginSame),
             NormalForm(NormalizeAll(exclusions, ip), ExclusionLe, ExclusionSame))
  }

  /** The constructor as it runs: a filter loop, then two sorts. */
  method BuildAppScope(origins: seq<ApprovedOrigin>, exclusions: seq<Exclusion>, ip: IpTable) returns (s: AppScope)
    ensures s == NewAppScope(origins, exclusions, ip)
    ensures forall o :: o in s.origins <==> exists raw :: raw in origins && Admit(raw, ip) == Some(o)
  {
    var kept := [];
    for i := 0 to |origins|
      invariant kept == AdmitAll(origins[..i], ip)
    {
      assert origins[..i + 1][..i] == origins[..i];
      match Admit(origins[i], ip)
      case None =>
      case Some(o) => kept := kept + [o];
    }
    assert origins[..|origins|] == origins;
    OriginOrder();
    ExclusionOrder();
    var sortedOrigins := SortDedupe(kept, OriginLe, OriginSame);
    var sortedExclusions := SortDedupe(NormalizeAll(exclusions, ip), ExclusionLe, ExclusionSame);
    s := AppScope(sortedOrigins, sortedExclusions);
    OriginsOfScope(origins, exclusions, ip);
  }

  lemma {:induction false} AdmitAllMember(origins: seq<ApprovedOrigin>, o: ApprovedOrigin, ip: IpTable)
    ensures o in AdmitAll(origins, ip) ==> exists i :: 0 <= i < |origins| && Admit(origins[i], ip) == Some(o)
    ensures (exists i :: 0 <= i < |origins| && Admit(origins[i], ip) == Some(o)) ==> o in AdmitAll(origins, ip)
  {
    hide Admit;
    if origins != [] {
      var n := |origins| - 1;
      AdmitAllMember(origins[..n], o, ip);
      if i :| 0 <= i < |origins| && Admit(origins[i], ip) == Some(o) {
        assert i < n ==> origins[..n][i] == origins[i];
      }
    }
  }

  lemma {:induction false} AdmitAllMembers(origins: seq<ApprovedOrigin>, ip: IpTable)
    ensures forall o :: o in AdmitAll(origins, ip) <==> exists raw :: raw in origins && Admit(raw, ip) == Some(o)
  {
    hide Admit, AdmitAll;
    forall o
      ensures o in AdmitAll(origins, ip) <==> exists raw :: raw in origins && Admit(raw, ip) == Some(o)
    {
      AdmitAllMember(origins, o, ip);
    }
  }

  /** The stored origins are the admitted ones, no more and no fewer. */
  lemma {:induction false} OriginsOfScope(origins: seq<ApprovedOrigin>, exclusions: seq<Exclusion>, ip: IpTable)
    ensures forall o :: o in NewAppScope(origins, exclusions, ip).origins
                        <==> exists raw :: raw in origins && Admit(raw, ip) == Some(o)
  {
    OriginOrder();
    AdmitAllMembers(origins, ip);
    var kept := AdmitAll(origins, ip);
    NormalFormCorrect(kept, OriginLe, OriginSame);
    var out := NormalForm(kept, OriginLe, OriginSame);
    forall o | o in kept
      ensures o in out
    {
      assert Represented(o, out, OriginSame);
    }
  }

  /** Of the exclusions that differ in the reason only, the least reason stays. */
  lemma {:induction false} LeastReasonKept(origins: seq<ApprovedOrigin>, exclusions: seq<Exclusion>, ip: IpTable,
          e: Exclusion)
    requires e in exclusions
    ensures exists kept ::
              kept in NewAppScope(origins, exclusions, ip).exclusions && Key(kept) == Key(NormalizeExclusion(e, ip))
    ensures forall kept ::
              kept in NewAppScope(origins, exclusions, ip).exclusions && Key(kept) == Key(NormalizeExclusion(e, ip))
              ==> RowLe([kept.reason], [Trim(e.reason)])
  {
    ExclusionOrder();
    var all := NormalizeAll(exclusions, ip);
    var out := NormalForm(all, ExclusionLe, ExclusionSame);
    NormalFormCorrect(all, ExclusionLe, ExclusionSame);
    var i :| 0 <= i < |exclusions| && exclusions[i] == e;
    var n := NormalizeExclusion(e, ip);
    assert all[i] == n;
    assert Represented(n, out, ExclusionSame);
    forall kept | kept in out && Key(kept) == Key(n)
      ensures RowLe([kept.reason], [n.reason])
    {
      assert Least(kept, all, ExclusionLe, ExclusionSame);
      assert ExclusionLe(kept, n);
    }
  }

  /** A scope depends on the sets it is built from, not on order or repetition. */
  lemma {:induction false} NewAppScopeCanonical(os: seq<ApprovedOrigin>, os': seq<ApprovedOrigin>, es: seq<Exclusion>,
          es': seq<Exclusion>, ip: IpTable)
    requires SameElements(os, os') && SameElements(es, es')
    ensures NewAppScope(os, es, ip) == NewAppScope(os', es', ip)
  {
    OriginOrder();
    ExclusionOrder();
    AdmitAllMembers(os, ip);
    AdmitAllMembers(os', ip);
    NormalFormCanonical(AdmitAll(os, ip), AdmitAll(os', ip), OriginLe, OriginSame);
    NormalizeAllMembers(es, es', ip);
    NormalizeAllMembers(es', es, ip);
    NormalFormCanonical(NormalizeAll(es, ip), NormalizeAll(es', ip), ExclusionLe, ExclusionSame);
  }

  lemma {:induction false} NormalizeAllMembers(es: seq<Exclusion>, es': seq<Exclusion>, ip: IpTable)
    requires SameElements(es, es')
    ensures forall x :: x in NormalizeAll(es, ip) ==> x in NormalizeAll(es', ip)
  {
    forall x | x in NormalizeAll(es, ip)
      ensures x in NormalizeAll(es', ip)
    {
      var i :| 0 <= i < |es| && NormalizeAll(es, ip)[i] == x;
      assert es[i] in es';
      var j :| 0 <= j < |es'| && es'[j] == es[i];
      assert NormalizeAll(es', ip)[j] == x;
    }
  }

  // ----- requests ----------------------------------------------------------

  datatype Destination = Destination(scheme: string, host: string, port: nat, path: string)

  /** The destination of a URL as net/url reads it; None is a refusal. */
  function ParseDestination(url: Option<Url>, ip: IpTable): Option<Destination> {
    match url
    case None => None
    case Some(u) =>
      var scheme := LowerAll(u.scheme);
      if u.hostname == "" || u.user || DefaultPort(scheme) == 0 then None
      else if u.port != "" && (!AllDigits(u.port) || !(1 <= Atoi(u.port) <= 65535)) then None
      else Some(Destination(scheme, CanonicalHost(u.hostname, ip),
                            if u.port == "" then DefaultPort(scheme) else Atoi(u.port), CleanPath(u.path)))
  }

  predicate SameOrigin(o: ApprovedOrigin, d: Destination) {
    o.scheme == d.scheme && o.host == d.host && o.port == d.port
  }

  predicate Contains(o: ApprovedOrigin, d: Destination) {
    SameOrigin(o, d) && PathWithin(d.path, o.pathPrefix)
  }

  datatype Verdict = Refused | NoOrigins | Within(inside: ApprovedOrigin) | OutsidePath | UnknownOrigin

  ghost predicate AllowsTo(s: AppScope, d: Destination) {
    exists o :: o in s.origins && Contains(o, d)
  }

  /** The decision for a URL: refused when it is not a plain http(s) URL. */
  method Allows(s: AppScope, url: Option<Url>, ip: IpTable) returns (ok: bool, why: Verdict)
    ensures ParseDestination(url, ip).None? ==> !ok && why == Refused
    ensures ParseDestination(url, ip).Some? ==> (ok <==> AllowsTo(s, ParseDestination(url, ip).value))
  {
    match ParseDestination(url, ip)
    case None => ok, why := false, Refused;
    case Some(d) => ok, why := AllowsDestination(s, d);
  }

  /** The scan over the origins, with its reason. */
  method AllowsDestination(s: AppScope, d: Destination) returns (ok: bool, why: Verdict)
    ensures ok <==> AllowsTo(s, d)
    ensures match why
      case Within(o) => ok && o in s.origins && Contains(o, d)
      case NoOrigins => !ok && s.origins == []
      case OutsidePath => !ok && exists o :: o in s.origins && SameOrigin(o, d)
      case UnknownOrigin => !ok && s.origins != [] && forall o :: o in s.origins ==> !SameOrigin(o, d)
      case Refused => false
  {
    if |s.origins| == 0 {
      return false, NoOrigins;
    }
    var sameOrigin := false;
    for i := 0 to |s.origins|
      invariant forall k :: 0 <= k < i ==> !Contains(s.origins[k], d)
      invariant sameOrigin <==> exists k :: 0 <= k < i && SameOrigin(s.origins[k], d)
    {
      var o := s.origins[i];
      if SameOrigin(o, d) {
        sameOrigin := true;
        if PathWithin(d.path, o.pathPrefix) {
          assert Contains(o, d);
          return true, Within(o);
        }
      }
    }
    return false, if sameOrigin then OutsidePath else UnknownOrigin;
  }

  predicate TargetOwns(s: AppScope, targetID: string, d: Destination) {
    exists i :: 0 <= i < |s.origins| && s.origins[i].targetID == targetID && Contains(s.origins[i], d)
  }

  /** The tests of one exclusion, given the text of the origin asked for and the
      result of its regular expression. */
  predicate Applies(s: AppScope, e: Exclusion, verb: string, origin: string, d: Destination, pathMatched: bool) {
    && (e.verb == "" || e.verb == verb)
    && (e.origin == "" || e.origin == origin)
    && (e.targetID == "" || TargetOwns(s, e.targetID, d))
    && pathMatched
  }

  /** Whether one exclusion of the scope covers the request. */
  ghost predicate Covers(s: AppScope, e: Exclusion, verb: string, d: Destination) {
    Applies(s, e, verb, Serialize(d.scheme, d.host, d.port), d, Matches(PathRegex(e.pathPattern), d.path))
  }

  ghost predicate ExcludedTo(s: AppScope, verb: string, d: Destination) {
    exists i :: 0 <= i < |s.exclusions| && Covers(s, s.exclusions[i], verb, d)
  }

  /** A request that the application scope lets through. */
  ghost predicate InScope(scope: AppScope, verb: string, url: Option<Url>, ip: IpTable) {
    && url.Some? && ParseDestination(url, ip).Some?
    && AllowsTo(scope, ParseDestination(url, ip).value)
    && (scope.exclusions != [] ==> !ExcludedTo(scope, UpperAll(Trim(verb)), ParseDestination(url, ip).value))
  }

  function Why(e: Exclusion): string {
    if e.reason == "" then "matches exclusion " + e.pathPattern else e.reason
  }

  /** `matched` holds what each regular expression of the scope says of `path`. */
  ghost predicate MatchesOf(s: AppScope, path: string, matched: seq<bool>) {
    && |matched| == |s.exclusions|
    && forall i :: 0 <= i < |matched| ==> (matched[i] <==> Matches(PathRegex(s.exclusions[i].pathPattern), path))
  }

  /** The decision for a URL: one that cannot be read is excluded, if there are
      exclusions at all. */
  method Excluded(s: AppScope, rawVerb: string, url: Option<Url>, ip: IpTable, matched: seq<bool>)
    returns (excluded: bool, why: string)
    requires ParseDestination(url, ip).Some? ==> MatchesOf(s, ParseDestination(url, ip).value.path, matched)
    ensures s.exclusions == [] ==> !excluded
    ensures s.exclusions != [] && ParseDestination(url, ip).None? ==> excluded
    ensures ParseDestination(url, ip).Some? ==>
              (excluded <==> ExcludedTo(s, UpperAll(Trim(rawVerb)), ParseDestination(url, ip).value))
    ensures excluded <==> why != ""
  {
    if |s.exclusions| == 0 {
      return false, "";
    }
    match ParseDestination(url, ip)
    case None => excluded, why := true, "cannot check exclusions";
    case Some(d) => excluded, why := ExcludedDestination(s, UpperAll(Trim(rawVerb)), d, matched);
  }

  /** The first exclusion that covers the request, if any. */
  ghost predicate FirstCover(s: AppScope, verb: string, d: Destination, i: int) {
    && 0 <= i < |s.exclusions| && Covers(s, s.exclusions[i], verb, d)
    && forall k :: 0 <= k < i ==> !Covers(s, s.exclusions[k], verb, d)
  }

  method ExcludedDestination(s: AppScope, verb: string, d: Destination, matched: seq<bool>)
    returns (excluded: bool, why: string)
    requires MatchesOf(s, d.path, matched)
    ensures excluded <==> ExcludedTo(s, verb, d)
    ensures !excluded ==> why == ""
    ensures excluded ==> why != "" && exists i :: FirstCover(s, verb, d, i) && why == Why(s.exclusions[i])
  {
    var at := FirstApplicable(s, verb, Serialize(d.scheme, d.host, d.port), d, matched);
    if at < |s.exclusions| {
      assert FirstCover(s, verb, d, at);
      return true, Why(s.exclusions[at]);
    }
    return false, "";
  }

  /** The scan over the exclusions: the index of the first that applies. */
  method FirstApplicable(s: AppScope, verb: string, origin: string, d: Destination, matched: seq<bool>)
    returns (at: nat)
    requires |matched| == |s.exclusions|
    ensures at <= |s.exclusions|
    ensures at < |s.exclusions| ==> Applies(s, s.exclusions[at], verb, origin, d, matched[at])
    ensures forall k :: 0 <= k < at ==> !Applies(s, s.exclusions[k], verb, origin, d, matched[k])
  {
    for i := 0 to |s.exclusions|
      invariant forall k :: 0 <= k < i ==> !Applies(s, s.exclusions[k], verb, origin, d, matched[k])
    {
      var e := s.exclusions[i];
      if e.verb != "" && e.verb != verb {
        continue;
      }
      if e.origin != "" && e.origin != origin {
        continue;
      }
      if e.targetID != "" && !TargetOwns(s, e.targetID, d) {
        continue;
      }
      if !matched[i] {
        continue;
      }
      return i;
    }
    return |s.exclusions|;
  }

  // ----- what the boundary means -------------------------------------------

  /** Every stored prefix is a cleaned path. */
  lemma {:induction false} StoredOrigin(o: ApprovedOrigin, raw: ApprovedOrigin, ip: IpTable)
    requires Admit(raw, ip) == Some(o)
    ensures ValidOrigin(o, ip)
    ensures o.pathPrefix == CleanPath(Trim(raw.pathPrefix)) && CleanPath(o.pathPrefix) == o.pathPrefix
    ensures Canonical(Segments(o.pathPrefix)) && Rooted(Segments(o.pathPrefix)) == o.pathPrefix
  {
    hide Trim, CanonicalHost, LowerAll, ValidHost, Rooted, Segments, Canonical;
    assert Admit(raw, ip) == NormalizeOrigin(raw, ip) == Some(o);
    assert o.pathPrefix == NormalPrefix(raw.pathPrefix);
    var p := Trim(raw.pathPrefix);
    assert p == "" || !HasAny(p, "?#");
    CleanPathIdempotent(p);
    CleanPathCanonical(o.pathPrefix);
  }

  /** A URL is allowed exactly when some stored origin has its scheme, host and
      port, and the segments of that origin's prefix begin the segments of the
      decoded path once dot segments are resolved. */
  lemma {:induction false} AllowsIsSegmentPrefix(os: seq<ApprovedOrigin>, es: seq<Exclusion>, u: Url, ip: IpTable)
    requires ParseDestination(Some(u), ip).Some?
    ensures var s, d := NewAppScope(os, es, ip), ParseDestination(Some(u), ip).value;
            AllowsTo(s, d) <==>
            exists o :: o in s.origins && SameOrigin(o, d) && Segments(o.pathPrefix) <= Segments(u.path)
  {
    var s, d := NewAppScope(os, es, ip), ParseDestination(Some(u), ip).value;
    OriginsOfScope(os, es, ip);
    forall o | o in s.origins
      ensures PathWithin(d.path, o.pathPrefix) <==> Segments(o.pathPrefix) <= Segments(u.path)
    {
      var raw :| raw in os && Admit(raw, ip) == Some(o);
      StoredOrigin(o, raw, ip);
      PathWithinIsSegmentPrefix(u.path, o.pathPrefix);
    }
  }

  // ----- the decisions, on the URL itself ----------------------------------

  /** The URL names the origin: no credentials, its scheme and canonical host, and
      its port, which may be left out when it is that of the scheme. */
  predicate Names(u: Url, o: ApprovedOrigin, ip: IpTable) {
    && u.hostname != "" && !u.user && LowerAll(u.scheme) == o.scheme && CanonicalHost(u.hostname, ip) == o.host
    && (if u.port == "" then (o.scheme == "http" && o.port == 80) || (o.scheme == "https" && o.port == 443)
        else AllDigits(u.port) && Atoi(u.port) == o.port)
  }

  /** An origin read from a URL is named by that URL, exactly if the port of the URL is
      not written as zero: that is read as the port of the scheme, but requested as 0. */
  lemma {:induction false} ReadOriginNamed(id: string, u: Url, o: ApprovedOrigin, ip: IpTable)
    requires AdmitUrl(id, Some(u), ip) == Some(o) && Trim(u.scheme) == u.scheme
    ensures u.hostname != "" && !u.user
    ensures Names(u, o, ip) <==> u.port == "" || Atoi(u.port) != 0
  {
    hide Trim, LowerAll, CanonicalHost, NormalPrefix, AllDigits, Atoi, HasAny, ValidHost, Admit;
    var port := if u.port == "" then 0 else Atoi(u.port);
    AdmitsExactly(ApprovedOrigin(id, u.scheme, u.hostname, port, u.path), ip);
  }

  /** What is refused before the scope is asked. */
  lemma {:induction false} RefusedExactly(u: Url, ip: IpTable)
    ensures ParseDestination(Some(u), ip).None? <==>
      || u.hostname == "" || u.user || LowerAll(u.scheme) !in {"http", "https"}
      || (u.port != "" && !(AllDigits(u.port) && 1 <= Atoi(u.port) <= 65535))
  {
    hide CanonicalHost, CleanPath, LowerAll, Atoi, AllDigits;
  }

  /** A stored origin is the origin of the destination exactly when the URL names it. */
  lemma {:induction false} NamedExactly(u: Url, o: ApprovedOrigin, ip: IpTable)
    requires DefaultPort(o.scheme) != 0 && 1 <= o.port <= 65535
    ensures ParseDestination(Some(u), ip).Some? && SameOrigin(o, ParseDestination(Some(u), ip).value)
        <==> Names(u, o, ip)
    ensures ParseDestination(Some(u), ip).Some? ==> ParseDestination(Some(u), ip).value.path == CleanPath(u.path)
  {
    hide CanonicalHost, CleanPath, LowerAll, Atoi, AllDigits;
  }

  /** A printed origin with any path is read as the destination it names. */
  lemma {:induction false} PrintedDestination(o: ApprovedOrigin, path: string, ip: IpTable)
    requires ValidOrigin(o, ip) && CanonicalHost(o.host, ip) == o.host
    ensures ParseDestination(Some(Url(o.scheme, o.host, PortOf(PortText(o.scheme, o.port)), false, path)), ip)
        == Some(Destination(o.scheme, o.host, o.port, CleanPath(path)))
  {
    hide CanonicalHost, CleanPath, LowerAll, Atoi, PortText, PortOf, AllDigits, HasAny, DefaultPort;
    PrintedPort(o.scheme, o.port);
    SchemeText(o.scheme);
  }

  lemma {:induction false} PrintedPort(scheme: string, port: nat)
    requires port > 0
    ensures var t := PortOf(PortText(scheme, port));
            && AllDigits(t) && (t == "" <==> port == DefaultPort(scheme)) && (t != "" ==> Atoi(t) == port)
  {
    hide PortText, Itoa, Atoi, DefaultPort;
    PortTextSuffix(scheme, port);
    AtoiItoa(port);
  }

  /** Allows, on the URL: it names a stored origin, and the segments of that origin's
      prefix begin the segments of its decoded path once dot segments are resolved. */
  lemma {:induction false} AllowedExactly(os: seq<ApprovedOrigin>, es: seq<Exclusion>, u: Url, ip: IpTable)
    ensures var s, d := NewAppScope(os, es, ip), ParseDestination(Some(u), ip);
            d.Some? && AllowsTo(s, d.value) <==>
            exists o :: o in s.origins && Names(u, o, ip) && Segments(o.pathPrefix) <= Segments(u.path)
  {
    hide ParseDestination, SameOrigin, Names, NewAppScope, Segments, Admit, Contains;
    var s, d := NewAppScope(os, es, ip), ParseDestination(Some(u), ip);
    OriginsOfScope(os, es, ip);
    forall o | o in s.origins
      ensures d.Some? && Contains(o, d.value) <==> Names(u, o, ip) && Segments(o.pathPrefix) <= Segments(u.path)
    {
      var raw :| raw in os && Admit(raw, ip) == Some(o);
      StoredContains(raw, o, u, ip);
    }
  }

  lemma {:induction false} StoredContains(raw: ApprovedOrigin, o: ApprovedOrigin, u: Url, ip: IpTable)
    requires Admit(raw, ip) == Some(o)
    ensures var d := ParseDestination(Some(u), ip);
            d.Some? && Contains(o, d.value) <==> Names(u, o, ip) && Segments(o.pathPrefix) <= Segments(u.path)
  {
    hide ParseDestination, SameOrigin, Names, Segments, Admit, ValidHost, HasAny, CleanPath;
    StoredOrigin(o, raw, ip);
    NamedExactly(u, o, ip);
    PathWithinIsSegmentPrefix(u.path, o.pathPrefix);
  }

  /** Excluded, on a URL that can be read: some exclusion has its method, or none, has
      its origin as text, or none, is bound to a target that owns it, or to none, and
      has a pattern that globs its cleaned path up to a boundary, with no newline
      after that. */
  lemma {:induction false} ExcludedExactly(os: seq<ApprovedOrigin>, es: seq<Exclusion>, verb: string, u: Url,
          ip: IpTable)
    requires ParseDestination(Some(u), ip).Some?
    ensures var s, d := NewAppScope(os, es, ip), ParseDestination(Some(u), ip).value;
            ExcludedTo(s, verb, d) <==> exists e :: e in s.exclusions && Bars(s, e, verb, u, d.port, ip)
  {
    hide ParseDestination, NewAppScope, Covers, Bars;
    var s, d := NewAppScope(os, es, ip), ParseDestination(Some(u), ip).value;
    forall e | e in s.exclusions
      ensures Covers(s, e, verb, d) <==> Bars(s, e, verb, u, d.port, ip)
    {
      CoversExactly(os, es, e, verb, u, ip);
    }
    if e :| e in s.exclusions && Bars(s, e, verb, u, d.port, ip) {
      var i :| 0 <= i < |s.exclusions| && s.exclusions[i] == e;
    }
  }

  lemma {:induction false} NothingExcluded(s: AppScope, verb: string, d: Destination)
    ensures s.exclusions == [] ==> !ExcludedTo(s, verb, d)
  {
  }

  ghost predicate Bars(s: AppScope, e: Exclusion, verb: string, u: Url, port: int, ip: IpTable) {
    && (e.verb == "" || e.verb == verb)
    && (e.origin == "" || e.origin == Serialize(LowerAll(u.scheme), CanonicalHost(u.hostname, ip), port))
    && (e.targetID == "" || exists o :: o in s.origins && o.targetID == e.targetID && Names(u, o, ip)
                              && Segments(o.pathPrefix) <= Segments(u.path))
    && PatternReaches(e.pathPattern, CleanPath(u.path))
  }

  ghost predicate PatternReaches(pattern: string, path: string) {
    exists k :: Boundary(path, k) && Glob(Cleaned(pattern), path[..k], true) && '\n' !in path[k..]
  }

  lemma {:induction false} CoversExactly(os: seq<ApprovedOrigin>, es: seq<Exclusion>, e: Exclusion, verb: string,
          u: Url, ip: IpTable)
    requires ParseDestination(Some(u), ip).Some?
    ensures var s, d := NewAppScope(os, es, ip), ParseDestination(Some(u), ip).value;
            Covers(s, e, verb, d) <==> Bars(s, e, verb, u, d.port, ip)
  {
    hide NewAppScope, Matches, PathRegex, Glob, Cleaned, Boundary, Segments, Names, Contains, Serialize, CleanPath,
      CanonicalHost, LowerAll, Atoi, AllDigits, Admit;
    var s, d := NewAppScope(os, es, ip), ParseDestination(Some(u), ip).value;
    PathRegexExact(e.pathPattern, d.path);
    OriginsOfScope(os, es, ip);
    forall o | o in s.origins
      ensures Contains(o, d) <==> Names(u, o, ip) && Segments(o.pathPrefix) <= Segments(u.path)
    {
      var raw :| raw in os && Admit(raw, ip) == Some(o);
      StoredContains(raw, o, u, ip);
    }
    OwnsExactly(s, e.targetID, d);
  }

  lemma {:induction false} OwnsExactly(s: AppScope, targetID: string, d: Destination)
    ensures TargetOwns(s, targetID, d) <==> exists o :: o in s.origins && o.targetID == targetID && Contains(o, d)
  {
    hide Contains;
    if o :| o in s.origins && o.targetID == targetID && Contains(o, d) {
      var i :| 0 <= i < |s.origins| && s.origins[i] == o;
    }
  }

  /** The same on the exclusions as they were given: the method in any case, blank or
      a star for every method, the origin read as an origin where it is one, and the
      target by its approved origins. */
  lemma {:induction false} ExcludedByGiven(os: seq<ApprovedOrigin>, es: seq<Exclusion>, verb: string, u: Url,
          ip: IpTable)
    requires ParseDestination(Some(u), ip).Some?
    ensures var s, d := NewAppScope(os, es, ip), ParseDestination(Some(u), ip).value;
            ExcludedTo(s, verb, d) <==> exists e :: e in es && GivenBars(os, e, verb, u, d.port, ip)
  {
    hide ParseDestination, NewAppScope, ExcludedTo, Bars, GivenBars, NormalizeExclusion;
    var s, port := NewAppScope(os, es, ip), ParseDestination(Some(u), ip).value.port;
    ExcludedExactly(os, es, verb, u, ip);
    forall e | e in es
      ensures Bars(s, NormalizeExclusion(e, ip), verb, u, port, ip) <==> GivenBars(os, e, verb, u, port, ip)
    {
      GivenIsStored(os, es, e, verb, u, ip);
    }
    if e :| e in s.exclusions && Bars(s, e, verb, u, port, ip) {
      StoredFrom(os, es, e, ip);
    }
    if e :| e in es && GivenBars(os, e, verb, u, port, ip) {
      LeastReasonKept(os, es, ip, e);
      var kept :| kept in s.exclusions && Key(kept) == Key(NormalizeExclusion(e, ip));
      BarsByKey(s, kept, NormalizeExclusion(e, ip), verb, u, port, ip);
    }
  }

  ghost predicate GivenBars(os: seq<ApprovedOrigin>, e: Exclusion, verb: string, u: Url, port: int, ip: IpTable) {
    && UpperAll(Trim(e.verb)) in {"", "*", verb}
    && GivenBinds(Trim(e.origin), u, port, ip)
    && (Trim(e.targetID) == "" || exists raw :: raw in os && Trim(raw.targetID) == Trim(e.targetID)
                                    && Admit(raw, ip).Some? && Names(u, Admit(raw, ip).value, ip)
                                    && Segments(Admit(raw, ip).value.pathPrefix) <= Segments(u.path))
    && PatternReaches(NormalPattern(e.pathPattern), CleanPath(u.path))
  }

  predicate GivenBinds(origin: string, u: Url, port: int, ip: IpTable) {
    || origin == ""
    || (match ParseApprovedOrigin("", origin, ip)
        case Some(o) => if o.pathPrefix == "/" then Names(u, o, ip) else origin == UrlText(u, port, ip)
        case None => origin == UrlText(u, port, ip))
  }

  function UrlText(u: Url, port: int, ip: IpTable): string {
    Serialize(LowerAll(u.scheme), CanonicalHost(u.hostname, ip), port)
  }

  lemma {:induction false} StoredFrom(os: seq<ApprovedOrigin>, es: seq<Exclusion>, e: Exclusion, ip: IpTable)
    requires e in NewAppScope(os, es, ip).exclusions
    ensures exists raw :: raw in es && NormalizeExclusion(raw, ip) == e
  {
    hide NormalForm, ExclusionLe, ExclusionSame, NormalizeAll, TotalOrder, Classes, NormalizeExclusion;
    ExclusionOrder();
    var all := NormalizeAll(es, ip);
    NormalFormCorrect(all, ExclusionLe, ExclusionSame);
    var i :| 0 <= i < |all| && all[i] == e;
    assert es[i] in es;
  }

  lemma {:induction false} BarsByKey(s: AppScope, a: Exclusion, b: Exclusion, verb: string, u: Url, port: int,
          ip: IpTable)
    requires Key(a) == Key(b)
    ensures Bars(s, a, verb, u, port, ip) <==> Bars(s, b, verb, u, port, ip)
  {
    hide Names, Segments, PatternReaches, Serialize, LowerAll, CanonicalHost, CleanPath;
    assert Key(a)[0] == Key(b)[0] && Key(a)[1] == Key(b)[1] && Key(a)[2] == Key(b)[2] && Key(a)[3] == Key(b)[3];
  }

  lemma {:induction false} GivenIsStored(os: seq<ApprovedOrigin>, es: seq<Exclusion>, e: Exclusion, verb: string,
          u: Url, ip: IpTable)
    requires ParseDestination(Some(u), ip).Some?
    ensures var s, port := NewAppScope(os, es, ip), ParseDestination(Some(u), ip).value.port;
            Bars(s, NormalizeExclusion(e, ip), verb, u, port, ip) <==> GivenBars(os, e, verb, u, port, ip)
  {
    hide ParseDestination, NewAppScope, Names, Segments, PatternReaches, Serialize, LowerAll, CanonicalHost, CleanPath,
      NormalPattern, NormalBinding, Admit, Trim, UpperAll, GivenBinds;
    var s, port := NewAppScope(os, es, ip), ParseDestination(Some(u), ip).value.port;
    OriginsOfScope(os, es, ip);
    GivenOwners(os, s, Trim(e.targetID), u, ip);
    BindsExactly(e.origin, u, ip);
  }

  lemma {:induction false} GivenOwners(os: seq<ApprovedOrigin>, s: AppScope, id: string, u: Url, ip: IpTable)
    requires forall o :: o in s.origins <==> exists raw :: raw in os && Admit(raw, ip) == Some(o)
    ensures (exists o :: o in s.origins && o.targetID == id && Names(u, o, ip)
                && Segments(o.pathPrefix) <= Segments(u.path)) <==>
            exists raw :: raw in os && Trim(raw.targetID) == id && Admit(raw, ip).Some?
                && Names(u, Admit(raw, ip).value, ip)
                && Segments(Admit(raw, ip).value.pathPrefix) <= Segments(u.path)
  {
    hide Names, Segments, Admit, Trim;
    forall raw | Admit(raw, ip).Some?
      ensures Admit(raw, ip).value.targetID == Trim(raw.targetID)
    {
      AdmittedTargetID(raw, ip);
    }
    if o :| o in s.origins && o.targetID == id && Names(u, o, ip) && Segments(o.pathPrefix) <= Segments(u.path) {
      var raw :| raw in os && Admit(raw, ip) == Some(o);
      assert Trim(raw.targetID) == id;
    }
    if raw :|
      && raw in os && Trim(raw.targetID) == id && Admit(raw, ip).Some? && Names(u, Admit(raw, ip).value, ip)
      && Segments(Admit(raw, ip).value.pathPrefix) <= Segments(u.path) {
      assert Admit(raw, ip).value in s.origins;
    }
  }

  lemma {:induction false} AdmittedTargetID(raw: ApprovedOrigin, ip: IpTable)
    requires Admit(raw, ip).Some?
    ensures Admit(raw, ip).value.targetID == Trim(raw.targetID)
  {
    hide Trim, CanonicalHost, NormalPrefix, LowerAll;
  }

  lemma {:induction false} BindsExactly(origin: string, u: Url, ip: IpTable)
    requires ParseDestination(Some(u), ip).Some?
    ensures var port := ParseDestination(Some(u), ip).value.port;
            NormalBinding(origin, ip) in {"", UrlText(u, port, ip)} <==> GivenBinds(Trim(origin), u, port, ip)
    ensures NormalBinding(origin, ip) == "" <==> Trim(origin) == ""
  {
    hide Trim, ParseApprovedOrigin, Serialize, LowerAll, CanonicalHost, CleanPath, AllDigits, Atoi, Names, SameOrigin;
    var d := ParseDestination(Some(u), ip).value;
    var parsed := ParseApprovedOrigin("", Trim(origin), ip);
    if Trim(origin) != "" && parsed.Some? && parsed.value.pathPrefix == "/" {
      var o := parsed.value;
      BindingIsSameOrigin(origin, o, d, ip);
      ParsedIsValid(Trim(origin), o, ip);
      NamedExactly(u, o, ip);
      SerializeText(o.scheme, o.host, o.port);
    }
  }

  lemma {:induction false} ParsedIsValid(raw: string, o: ApprovedOrigin, ip: IpTable)
    requires ParseApprovedOrigin("", raw, ip) == Some(o)
    ensures DefaultPort(o.scheme) != 0 && 1 <= o.port <= 65535
  {
    hide AdmitUrl, ParseUrl, Trim;
    AdmittedValid(ParseUrl(Trim(raw)), o, ip);
  }

  lemma {:induction false} SerializeText(scheme: string, host: string, port: int)
    requires port >= 0
    ensures Serialize(scheme, host, port) != ""
  {
    hide HostText, PortText;
  }

  /** The destinations at or below `d`. */
  ghost predicate Below(d: Destination, d': Destination) {
    && d.scheme == d'.scheme && d.host == d'.host && d.port == d'.port
    && CleanPath(d.path) == d.path && CleanPath(d'.path) == d'.path
    && Segments(d.path) <= Segments(d'.path)
  }

  /** Exclusions reach down: what is excluded takes along everything below it that
      adds no newline, target-bound exclusions included. */
  lemma {:induction false} ExcludedBelow(os: seq<ApprovedOrigin>, es: seq<Exclusion>, verb: string, d: Destination,
          d': Destination, ip: IpTable)
    requires Below(d, d') && d.path <= d'.path && '\n' !in d'.path[|d.path|..]
    requires ExcludedTo(NewAppScope(os, es, ip), verb, d)
    ensures ExcludedTo(NewAppScope(os, es, ip), verb, d')
  {
    hide NewAppScope, Segments, Rooted, Canonical, Matches, PathRegex, TargetOwns;
    var s := NewAppScope(os, es, ip);
    var i :| 0 <= i < |s.exclusions| && Covers(s, s.exclusions[i], verb, d);
    var e := s.exclusions[i];
    CleanPathCanonical(d.path);
    CleanPathCanonical(d'.path);
    MatchedBelow(e.pathPattern, Segments(d.path), Segments(d'.path));
    if e.targetID != "" {
      OwnedBelow(os, es, e.targetID, d, d', ip);
    }
    assert Covers(s, e, verb, d');
  }

  /** No pattern of the scope holds a newline. */
  ghost predicate OneLine(s: AppScope) {
    forall e :: e in s.exclusions ==> '\n' !in Cleaned(e.pathPattern)
  }

  /** What such a scope excludes has no newline: a newline in the decoded path
      escapes all of its exclusions. */
  lemma {:induction false} ExcludedHasNoLine(s: AppScope, verb: string, d: Destination)
    requires OneLine(s) && ExcludedTo(s, verb, d)
    ensures '\n' !in d.path
  {
    hide Matches, PathRegex, Cleaned, TargetOwns;
    var i :| 0 <= i < |s.exclusions| && Covers(s, s.exclusions[i], verb, d);
    PathRegexWithoutLines(s.exclusions[i].pathPattern, d.path);
  }

  /** Below what such a scope excludes, exactly the paths without a newline are
      excluded too. */
  lemma {:induction false} ExcludedBelowExactly(os: seq<ApprovedOrigin>, es: seq<Exclusion>, verb: string,
          d: Destination, d': Destination, ip: IpTable)
    requires OneLine(NewAppScope(os, es, ip)) && Below(d, d') && ExcludedTo(NewAppScope(os, es, ip), verb, d)
    ensures ExcludedTo(NewAppScope(os, es, ip), verb, d') <==> '\n' !in d'.path
  {
    hide OneLine, ExcludedTo, NewAppScope;
    PathBelow(d, d');
    if ExcludedTo(NewAppScope(os, es, ip), verb, d') {
      ExcludedHasNoLine(NewAppScope(os, es, ip), verb, d');
    }
    if '\n' !in d'.path {
      ExcludedBelow(os, es, verb, d, d', ip);
    }
  }

  lemma {:induction false} PathBelow(d: Destination, d': Destination)
    requires Below(d, d')
    ensures d.path <= d'.path
  {
    hide Segments, Rooted, Canonical;
    CleanPathCanonical(d.path);
    CleanPathCanonical(d'.path);
    RootedBelow(Segments(d.path), Segments(d'.path));
  }

  lemma {:induction false} OwnedBelow(os: seq<ApprovedOrigin>, es: seq<Exclusion>, targetID: string, d: Destination,
          d': Destination, ip: IpTable)
    requires Below(d, d') && TargetOwns(NewAppScope(os, es, ip), targetID, d)
    ensures TargetOwns(NewAppScope(os, es, ip), targetID, d')
  {
    hide Admit, Below, Contains;
    var s := NewAppScope(os, es, ip);
    OriginsOfScope(os, es, ip);
    hide NewAppScope;
    var k :| 0 <= k < |s.origins| && s.origins[k].targetID == targetID && Contains(s.origins[k], d);
    assert s.origins[k] in s.origins;
    var raw :| raw in os && Admit(raw, ip) == Some(s.origins[k]);
    StoredOrigin(s.origins[k], raw, ip);
    ContainsBelow(s.origins[k], d, d');
  }

  lemma {:induction false} ContainsBelow(o: ApprovedOrigin, d: Destination, d': Destination)
    requires CleanPath(o.pathPrefix) == o.pathPrefix && Below(d, d') && Contains(o, d)
    ensures Contains(o, d')
  {
    PathWithinIsSegmentPrefix(d.path, o.pathPrefix);
    PathWithinIsSegmentPrefix(d'.path, o.pathPrefix);
  }

  /** A newline does escape: under the unbound pattern "/" a request is excluded
      exactly when its decoded path has no newline. */
  lemma {:induction false} RootExclusion(os: seq<ApprovedOrigin>, reason: string, verb: string, d: Destination,
          ip: IpTable)
    requires CleanPath(d.path) == d.path
    ensures ExcludedTo(NewAppScope(os, [Exclusion("", "", "", "/", reason)], ip), verb, d) <==> '\n' !in d.path
  {
    var e, n := Exclusion("", "", "", "/", reason), Exclusion("", "", "", "/", Trim(reason));
    RootExclusionNormal(e, ip);
    OneExclusionStored(os, e, n, ip);
    CleanPathCanonical(d.path);
    RootPattern(Segments(d.path));
    hide NewAppScope, Trim, PathRegex, NormalizeExclusion, Matches;
    UnboundExclusion(NewAppScope(os, [e], ip), n, verb, d);
  }

  /** An exclusion bound to nothing excludes what its pattern matches. */
  lemma {:induction false} UnboundExclusion(s: AppScope, e: Exclusion, verb: string, d: Destination)
    requires s.exclusions == [e] && e.targetID == "" && e.origin == "" && e.verb == ""
    ensures ExcludedTo(s, verb, d) <==> Matches(PathRegex(e.pathPattern), d.path)
  {
    hide PathRegex, Matches;
    assert Covers(s, s.exclusions[0], verb, d) <==> Matches(PathRegex(e.pathPattern), d.path);
  }

  lemma {:induction false} OneExclusionStored(os: seq<ApprovedOrigin>, e: Exclusion, n: Exclusion, ip: IpTable)
    requires NormalizeExclusion(e, ip) == n
    ensures NewAppScope(os, [e], ip).exclusions == [n]
  {
    hide NormalizeExclusion, AdmitAll, NormalForm, NormalizeAll, ExclusionLe, ExclusionSame;
    assert NormalizeAll([e], ip) == [n];
    OneIsNormal(n, ExclusionLe, ExclusionSame);
  }

  lemma {:induction false} RootExclusionNormal(e: Exclusion, ip: IpTable)
    requires e == Exclusion("", "", "", "/", e.reason)
    ensures NormalizeExclusion(e, ip) == Exclusion("", "", "", "/", Trim(e.reason))
  {
    RootPatternNormal();
    assert Trim("") == "" && UpperAll("") == "";
    hide Trim, UpperAll, ParseApprovedOrigin, NormalPattern;
  }

  lemma {:induction false} RootPatternNormal()
    ensures NormalPattern("/") == "/"
  {
    RootPrefix();
    CleanRoot();
    assert Trim("/") == "/";
    hide Trim, HasAny, CleanPath;
  }

  lemma {:induction false} OneIsNormal<T>(x: T, le: (T, T) -> bool, same: (T, T) -> bool)
    ensures NormalForm([x], le, same) == [x]
  {
    assert Sort([x][1..], le) == [];
    assert Sort([x], le) == [x];
  }

  /** The text comparison that binds an exclusion to an origin agrees with the
      field comparison of Allows and TargetOwns. */
  lemma {:induction false} BindingIsSameOrigin(origin: string, o: ApprovedOrigin, d: Destination, ip: IpTable)
    requires ParseApprovedOrigin("", Trim(origin), ip) == Some(o) && o.pathPrefix == "/" && Trim(origin) != ""
    requires DefaultPort(d.scheme) != 0 && d.port > 0
    ensures NormalBinding(origin, ip) == Serialize(d.scheme, d.host, d.port) <==> SameOrigin(o, d)
  {
    AdmittedValid(ParseUrl(Trim(Trim(origin))), o, ip);
    SerializeInjective(o.scheme, o.host, o.port, d.scheme, d.host, d.port);
  }

  lemma {:induction false} AdmittedValid(u: Option<Url>, o: ApprovedOrigin, ip: IpTable)
    requires AdmitUrl("", u, ip) == Some(o)
    ensures ValidOrigin(o, ip)
  {
  }
}
