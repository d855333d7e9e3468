/** Serializing a scope and rebuilding it through the constructor,
    internal/assessment/scope.go: when the scope comes back unchanged. */
module ScopeRebuild {
  import opened Wrappers
  import opened Text
  import opened Paths
  import opened Hosts
  import opened Origins
  import opened NormalForms
  import opened ScopeOrder
  import opened AppScopes

  /** UnmarshalJSON after MarshalJSON. */
  function Rebuild(s: AppScope, ip: IpTable): AppScope {
    NewAppScope(s.origins, s.exclusions, ip)
  }

  /** Every stored field is a fixed point of its normalization. */
  ghost predicate Fixed(s: AppScope, ip: IpTable) {
    && (forall o :: o in s.origins ==>
       CanonicalHost(o.host, ip) == o.host && NormalPrefix(o.pathPrefix) == o.pathPrefix)
    && (forall e :: e in s.exclusions ==>
       NormalBinding(e.origin, ip) == e.origin && NormalPattern(e.pathPattern) == e.pathPattern)
  }

  // ----- a normalization cannot permute what it stored ---------------------

  /** Applying `f` once more to one of its values changes nothing, shortens it, or
      reaches a fixed point. */
  ghost predicate Shrinks(f: string -> string, v: string) {
    f(v) == v || |f(v)| < |v| || f(f(v)) == f(v)
  }

  /** A value that is the image of `w` is fixed unless `w` is longer and unfixed:
      so if every stored value is the image of a stored value, following the
      images up ends, and all are fixed. */
  lemma {:induction false} FixedOrLonger(f: string -> string, v: string, w: string)
    requires f(w) == v && Shrinks(f, w)
    ensures f(w) == w || f(v) == v || |v| < |w|
  {
  }

  function Longest<T>(xs: seq<T>, text: T -> string): (r: nat)
    ensures forall x :: x in xs ==> |text(x)| <= r
  {
    if xs == [] then 0
    else
      var rest := Longest(xs[1..], text);
      if |text(xs[0])| > rest then |text(xs[0])| else rest
  }

  // ----- paths -------------------------------------------------------------

  function Weight(segs: seq<string>): nat {
    if segs == [] then 0 else 1 + |segs[0]| + Weight(segs[1..])
  }

  lemma {:induction false} WeightAppend(a: seq<string>, b: seq<string>)
    ensures Weight(a + b) == Weight(a) + Weight(b)
  {
    if a == [] {
      assert a + b == b;
    } else {
      assert (a + b)[1..] == a[1..] + b;
      WeightAppend(a[1..], b);
    }
  }

  lemma {:induction false} ResolveLighter(stack: seq<string>, segs: seq<string>)
    ensures Weight(Resolve(stack, segs)) <= Weight(stack) + Weight(segs)
    decreases segs
  {
    if segs != [] {
      var s := segs[0];
      if s != "" && s != "." {
        if s == ".." {
          if stack != [] {
            WeightAppend(stack[..|stack| - 1], [stack[|stack| - 1]]);
            assert stack == stack[..|stack| - 1] + [stack[|stack| - 1]];
          }
        } else {
          WeightAppend(stack, [s]);
          assert [s][1..] == [];
          assert Weight([s]) == 1 + |s|;
        }
      }
      ResolveLighter(Step(stack, s), segs[1..]);
    }
  }

  lemma {:induction false} WeightJoin(parts: seq<string>)
    requires parts != []
    ensures Weight(parts) == |Join(parts, '/')| + 1
  {
    if |parts| > 1 {
      WeightJoin(parts[1..]);
    } else {
      assert parts[1..] == [];
    }
  }

  /** Cleaning an absolute path never makes it longer. */
  lemma {:induction false} CleanPathShorter(p: string)
    requires "/" <= p
    ensures |CleanPath(p)| <= |p|
  {
    var q := Absolute(p);
    assert |q| == |p| by {
      assert Slashes(p)[0] == '/';
      assert "/" <= Slashes(p);
    }
    var parts := Split(q, '/');
    JoinSplit(q, '/');
    WeightJoin(parts);
    assert parts[0] == "" && Weight(parts) == 1 + Weight(parts[1..]);
    assert Resolve([], parts) == Resolve([], parts[1..]);
    ResolveLighter([], parts[1..]);
    if Segments(p) != [] {
      WeightJoin(Segments(p));
    }
  }

  /** Trimming and cleaning a cleaned path leaves it or shortens it. */
  lemma {:induction false} CleanedAgain(v: string)
    requires CleanPath(v) == v && "/" <= v
    ensures CleanPath(Trim(v)) == v || |CleanPath(Trim(v))| < |v|
    ensures "/" <= Trim(v)
  {
    assert !Blank(v[0]);
    assert TrimLeft(v) == v && Trim(v) == TrimRight(v);
    assert Trim(v) == v[..|Trim(v)|];
    TrimKeepsFirst(v);
    CleanPathShorter(Trim(v));
  }

  lemma {:induction false} PrefixShrinks(raw: string)
    requires "/" <= NormalPrefix(raw) && !HasAny(NormalPrefix(raw), "?#")
    ensures Shrinks(NormalPrefix, NormalPrefix(raw))
  {
    var v := NormalPrefix(raw);
    CleanPathIdempotent(Trim(raw));
    CleanedAgain(v);
    TrimHasNone(v);
  }

  lemma {:induction false} TrimHasNone(v: string)
    requires !HasAny(v, "?#")
    ensures !HasAny(Trim(v), "?#")
  {
  }

  lemma {:induction false} CleanPatternShrinks(v: string)
    requires CleanPath(v) == v && "/" <= v
    ensures Shrinks(NormalPattern, v)
  {
    CleanedAgain(v);
    assert Trim(v) <= v;
  }

  lemma {:induction false} PatternShrinks(raw: string)
    ensures Shrinks(NormalPattern, NormalPattern(raw))
  {
    var t := Trim(raw);
    assert Trim(t) == t;
    hide Trim, HasAny;
    if "/" <= t && !HasAny(t, "?#") {
      CleanPathIdempotent(t);
      CleanPathCanonical(t);
      hide CleanPath;
      CleanPatternShrinks(CleanPath(t));
    } else {
      hide CleanPath;
      assert NormalPattern(t) == t;
    }
  }

  // ----- hosts and bindings ------------------------------------------------

  function HostFn(ip: IpTable): string -> string {
    x => CanonicalHost(x, ip)
  }

  function BindingFn(ip: IpTable): string -> string {
    x => NormalBinding(x, ip)
  }

  lemma {:induction false} HostShrinks(h: string, ip: IpTable)
    requires IpSound(ip) && '%' !in CanonicalHost(h, ip)
    ensures var v := CanonicalHost(h, ip); Shrinks(HostFn(ip), v)
  {
    CanonicalAgain(h, ip);
  }

  lemma {:induction false} SplitHostChars(a: string)
    requires HostChars(a) && SplitAuthority(a).Some?
    ensures HostChars(SplitAuthority(a).value.0)
  {
  }

  lemma {:induction false} ParsedHostChars(raw: string)
    requires ParseUrl(raw).Some?
    ensures HostChars(ParseUrl(raw).value.hostname)
  {
    var text := raw[..IndexOf(raw, '#')];
    var i := IndexOf(text, ':');
    var rest := text[i + 3..];
    assert ParseUrl(raw) == ParseHier(LowerAll(text[..i]), rest);
    var hier := rest[..IndexOf(rest, '?')];
    var authority := hier[..IndexOf(hier, '/')];
    SplitHostChars(authority[AfterLast(authority, '@')..]);
  }

  lemma {:induction false} LowerHostChars(h: string)
    requires HostChars(h)
    ensures HostChars(LowerAll(h))
  {
    assert forall c :: HostChar(c) ==> HostChar(Lower(c));
  }

  lemma {:induction false} StrippedHostChars(h: string)
    requires HostChars(h)
    ensures HostChars(Stripped(h))
  {
    var t := Trim(h);
    forall i | 0 <= i < |t|
      ensures HostChar(t[i])
    {
      assert t[i] in h;
    }
    LowerHostChars(t);
    UnwrappedPart(LowerAll(t));
    hide HostChar, Trim, LowerAll, Unwrapped;
    forall i | 0 <= i < |Stripped(h)|
      ensures HostChar(Stripped(h)[i])
    {
      assert Stripped(h)[i] in LowerAll(t);
    }
  }

  lemma {:induction false} HostCharsTrimmed(h: string)
    requires HostChars(h)
    ensures Trimmed(h) && '%' !in h
  {
  }

  /** A canonical host never ends in white space. */
  lemma {:induction false} CanonicalTrimmed(h: string, ip: IpTable)
    requires IpSound(ip) && HostChars(h)
    ensures Trimmed(CanonicalHost(h, ip))
  {
    StrippedHostChars(h);
    HostCharsTrimmed(Stripped(h));
    CanonicalTwiceExactly(h, ip);
  }

  lemma {:induction false} PrintedTrimmed(o: ApprovedOrigin, ip: IpTable)
    requires ValidOrigin(o, ip) && Trimmed(o.host)
    ensures Trimmed(Serialize(o.scheme, o.host, o.port))
  {
    if !Trimmed(Serialize(o.scheme, o.host, o.port)) {
      PrintedEnd(o, ip);
    }
  }

  /** NormalBinding of a trimmed text, by what the text parses to. */
  lemma {:induction false} BindingParsed(v: string, ip: IpTable)
    requires Trim(v) == v
    ensures var p := AdmitUrl("", ParseUrl(v), ip);
            NormalBinding(v, ip) ==
            if v != "" && p.Some? && p.value.pathPrefix == "/"
            then Serialize(p.value.scheme, p.value.host, p.value.port) else v
  {
    hide *;
    assert ParseApprovedOrigin("", v, ip) == AdmitUrl("", ParseUrl(v), ip) by {
      ParseTrimmed("", v, ip);
    }
    BindingIs(v, ip);
  }

  lemma {:induction false} ParseTrimmed(targetID: string, v: string, ip: IpTable)
    requires Trim(v) == v
    ensures ParseApprovedOrigin(targetID, v, ip) == AdmitUrl(targetID, ParseUrl(v), ip)
  {
    hide Trim, ParseUrl, AdmitUrl;
  }

  lemma {:induction false} BindingIs(v: string, ip: IpTable)
    requires Trim(v) == v
    ensures var p := ParseApprovedOrigin("", v, ip);
            NormalBinding(v, ip) ==
            if v != "" && p.Some? && p.value.pathPrefix == "/"
            then Serialize(p.value.scheme, p.value.host, p.value.port) else v
  {
    hide Trim, ParseApprovedOrigin, Serialize;
  }

  /** Normalizing a printed origin normalizes its host. */
  lemma {:induction false} PrintedBinding(o: ApprovedOrigin, ip: IpTable)
    requires ValidOrigin(o, ip) && Trimmed(o.host)
    ensures NormalBinding(Serialize(o.scheme, o.host, o.port), ip) ==
            Serialize(o.scheme, if HostChars(o.host)
              && ValidHost(CanonicalHost(o.host, ip), ip) then CanonicalHost(o.host, ip) else o.host, o.port)
  {
    hide *;
    PrintedTrimmed(o, ip);
    NotEmpty(o.scheme, o.host, o.port);
    NoUrl(ip);
    var v := Serialize(o.scheme, o.host, o.port);
    TrimsToItself(v);
    BindingParsed(v, ip);
    ParsePrinted(o, ip);
    PrintedAdmitted(o, ip);
  }

  lemma {:induction false} NotEmpty(scheme: string, host: string, port: int)
    ensures Serialize(scheme, host, port) != ""
  {
    assert |scheme + "://"| > 0;
  }

  lemma {:induction false} TrimsToItself(v: string)
    requires Trimmed(v)
    ensures Trim(v) == v
  {
  }

  lemma {:induction false} SerializeShorter(scheme: string, h: string, h': string, port: int)
    requires |h'| < |h| && (':' in h' ==> ':' in h)
    ensures |Serialize(scheme, h', port)| < |Serialize(scheme, h, port)|
  {
  }

  lemma {:induction false} PrintedShrinks(o: ApprovedOrigin, hostname: string, ip: IpTable)
    requires ValidOrigin(o, ip) && IpSound(ip) && HostChars(hostname) && o.host == CanonicalHost(hostname, ip)
    ensures Shrinks(BindingFn(ip), Serialize(o.scheme, o.host, o.port))
  {
    hide CanonicalHost, HostChars, ValidHost, Trimmed, Serialize, NormalBinding, IpSound;
    var h := CanonicalHost(o.host, ip);
    CanonicalTrimmed(hostname, ip);
    ValidHostChars(o.host, ip);
    PrintedBinding(o, ip);
    if HostChars(o.host) && ValidHost(h, ip) && h != o.host {
      CanonicalAgain(hostname, ip);
      if CanonicalHost(h, ip) == h && Trimmed(h) {
        var o' := ApprovedOrigin("", o.scheme, h, o.port, "/");
        RootIsValid(o, o', ip);
        PrintedBinding(o', ip);
      } else {
        SerializeShorter(o.scheme, o.host, h, o.port);
      }
    }
  }

  lemma {:induction false} RootIsValid(o: ApprovedOrigin, o': ApprovedOrigin, ip: IpTable)
    requires ValidOrigin(o, ip) && o'.scheme == o.scheme && o'.port == o.port && o'.pathPrefix == "/"
        && ValidHost(o'.host, ip)
    ensures ValidOrigin(o', ip)
  {
    assert !HasAny("/", "?#");
  }

  /** Canonicalizing a canonical host once more gives it back, a settled host, or
      a shorter one. */
  lemma {:induction false} CanonicalAgain(hostname: string, ip: IpTable)
    requires IpSound(ip) && '%' !in CanonicalHost(hostname, ip)
    ensures var h := CanonicalHost(hostname, ip);
            var h' := CanonicalHost(h, ip);
            h' == h || (CanonicalHost(h', ip) == h' && Trimmed(h')) || (|h'| < |h| && (':' in h' ==> ':' in h))
  {
    var h := CanonicalHost(hostname, ip);
    var s := Stripped(hostname);
    StrippedLower(hostname);
    CanonicalTwiceExactly(hostname, ip);
    if ip(s).Some? {
      AddressEnds(s, ip);
    } else {
      StrippedShrinks(h);
      CanonicalTwiceExactly(h, ip);
    }
  }

  lemma {:induction false} BindingShrinks(raw: string, ip: IpTable)
    requires IpSound(ip)
    ensures Shrinks(BindingFn(ip), NormalBinding(raw, ip))
  {
    var t := Trim(raw);
    assert Trim(t) == t;
    if NormalBinding(raw, ip) == t {
      TrimmedBinding(t, raw, ip);
    } else {
      var o := ParseApprovedOrigin("", t, ip).value;
      PrintedParsed(t, o, ip);
    }
  }

  lemma {:induction false} TrimmedBinding(t: string, raw: string, ip: IpTable)
    requires t == Trim(raw) && NormalBinding(raw, ip) == t
    ensures NormalBinding(t, ip) == t
  {
    assert Trim(t) == t;
  }

  lemma {:induction false} PrintedParsed(t: string, o: ApprovedOrigin, ip: IpTable)
    requires IpSound(ip) && Trim(t) == t && ParseApprovedOrigin("", t, ip) == Some(o)
    ensures Shrinks(BindingFn(ip), Serialize(o.scheme, o.host, o.port))
  {
    var u := ParseUrl(t).value;
    ParsedHostChars(t);
    AdmittedValid(Some(u), o, ip);
    AdmittedHost(u, o, ip);
    PrintedShrinks(o, u.hostname, ip);
  }

  lemma {:induction false} AdmittedHost(u: Url, o: ApprovedOrigin, ip: IpTable)
    requires AdmitUrl("", Some(u), ip) == Some(o)
    ensures o.host == CanonicalHost(u.hostname, ip)
  {
  }

  // ----- the round trip ----------------------------------------------------

  /** A stored exclusion is a normalized one. */
  lemma {:induction false} StoredExclusion(os: seq<ApprovedOrigin>, es: seq<Exclusion>, e: Exclusion, ip: IpTable)
    returns (raw: Exclusion)
    requires e in NewAppScope(os, es, ip).exclusions
    ensures raw in es && e == NormalizeExclusion(raw, ip)
  {
    ExclusionOrder();
    var all := NormalizeAll(es, ip);
    NormalFormCorrect(all, ExclusionLe, ExclusionSame);
    assert e in all;
    var i :| 0 <= i < |all| && all[i] == e;
    raw := es[i];
  }

  /** A scope that comes back from its serialization. */
  ghost predicate Returns(s: AppScope, ip: IpTable) {
    Rebuild(s, ip) == s
  }

  lemma {:induction false} AdmittedImage(s: AppScope, o: ApprovedOrigin, ip: IpTable) returns (raw: ApprovedOrigin)
    requires Returns(s, ip) && o in s.origins
    ensures raw in s.origins && Admit(raw, ip) == Some(o)
  {
    OriginsOfScope(s.origins, s.exclusions, ip);
    raw :| raw in s.origins && Admit(raw, ip) == Some(o);
  }

  lemma {:induction false} OriginImage(s: AppScope, o: ApprovedOrigin, ip: IpTable) returns (raw: ApprovedOrigin)
    requires Returns(s, ip) && o in s.origins
    ensures raw in s.origins && HostFn(ip)(raw.host) == o.host && NormalPrefix(raw.pathPrefix) == o.pathPrefix
    ensures "/" <= o.pathPrefix && !HasAny(o.pathPrefix, "?#") && '%' !in o.host
  {
    raw := AdmittedImage(s, o, ip);
    AdmittedFields(raw, o, ip);
    ValidHostChars(o.host, ip);
  }

  lemma {:induction false} ExclusionImage(s: AppScope, e: Exclusion, ip: IpTable) returns (raw: Exclusion)
    requires Returns(s, ip) && e in s.exclusions
    ensures raw in s.exclusions && BindingFn(ip)(raw.origin) == e.origin
        && NormalPattern(raw.pathPattern) == e.pathPattern
  {
    raw := StoredExclusion(s.origins, s.exclusions, e, ip);
  }

  lemma {:induction false} HostFixed(s: AppScope, o: ApprovedOrigin, ip: IpTable, bound: nat)
    requires IpSound(ip) && Returns(s, ip) && o in s.origins
    requires forall x :: x in s.origins ==> |x.host| <= bound
    ensures CanonicalHost(o.host, ip) == o.host
    decreases bound - |o.host|
  {
    var raw := OriginImage(s, o, ip);
    var raw' := OriginImage(s, raw, ip);
    HostShrinks(raw'.host, ip);
    FixedOrLonger(HostFn(ip), o.host, raw.host);
    if |o.host| < |raw.host| {
      HostFixed(s, raw, ip, bound);
    }
  }

  lemma {:induction false} PrefixFixed(s: AppScope, o: ApprovedOrigin, ip: IpTable, bound: nat)
    requires Returns(s, ip) && o in s.origins
    requires forall x :: x in s.origins ==> |x.pathPrefix| <= bound
    ensures NormalPrefix(o.pathPrefix) == o.pathPrefix
    decreases bound - |o.pathPrefix|
  {
    var raw := OriginImage(s, o, ip);
    var raw' := OriginImage(s, raw, ip);
    PrefixShrinks(raw'.pathPrefix);
    FixedOrLonger(NormalPrefix, o.pathPrefix, raw.pathPrefix);
    if |o.pathPrefix| < |raw.pathPrefix| {
      PrefixFixed(s, raw, ip, bound);
    }
  }

  lemma {:induction false} BindingFixed(s: AppScope, e: Exclusion, ip: IpTable, bound: nat)
    requires IpSound(ip) && Returns(s, ip) && e in s.exclusions
    requires forall x :: x in s.exclusions ==> |x.origin| <= bound
    ensures BindingFn(ip)(e.origin) == e.origin
    decreases bound - |e.origin|
  {
    var raw := ExclusionImage(s, e, ip);
    var raw' := ExclusionImage(s, raw, ip);
    BindingShrinks(raw'.origin, ip);
    FixedOrLonger(BindingFn(ip), e.origin, raw.origin);
    if |e.origin| < |raw.origin| {
      BindingFixed(s, raw, ip, bound);
    }
  }

  lemma {:induction false} PatternFixed(s: AppScope, e: Exclusion, ip: IpTable, bound: nat)
    requires Returns(s, ip) && e in s.exclusions
    requires forall x :: x in s.exclusions ==> |x.pathPattern| <= bound
    ensures NormalPattern(e.pathPattern) == e.pathPattern
    decreases bound - |e.pathPattern|
  {
    var raw := ExclusionImage(s, e, ip);
    var raw' := ExclusionImage(s, raw, ip);
    PatternShrinks(raw'.pathPattern);
    FixedOrLonger(NormalPattern, e.pathPattern, raw.pathPattern);
    if |e.pathPattern| < |raw.pathPattern| {
      PatternFixed(s, raw, ip, bound);
    }
  }

  lemma {:induction false} OriginFixed(s: AppScope, o: ApprovedOrigin, ip: IpTable)
    requires IpSound(ip) && Returns(s, ip) && o in s.origins
    ensures CanonicalHost(o.host, ip) == o.host && NormalPrefix(o.pathPrefix) == o.pathPrefix
  {
    var host := (x: ApprovedOrigin) => x.host;
    var prefix := (x: ApprovedOrigin) => x.pathPrefix;
    assert forall x :: x in s.origins ==> |host(x)| == |x.host| && |prefix(x)| == |x.pathPrefix|;
    HostFixed(s, o, ip, Longest(s.origins, host));
    PrefixFixed(s, o, ip, Longest(s.origins, prefix));
  }

  lemma {:induction false} ExclusionFixed(s: AppScope, e: Exclusion, ip: IpTable)
    requires IpSound(ip) && Returns(s, ip) && e in s.exclusions
    ensures BindingFn(ip)(e.origin) == e.origin && NormalPattern(e.pathPattern) == e.pathPattern
  {
    var binding := (x: Exclusion) => x.origin;
    var pattern := (x: Exclusion) => x.pathPattern;
    assert forall x :: x in s.exclusions ==> |binding(x)| == |x.origin| && |pattern(x)| == |x.pathPattern|;
    BindingFixed(s, e, ip, Longest(s.exclusions, binding));
    PatternFixed(s, e, ip, Longest(s.exclusions, pattern));
  }

  /** The other half of the round trip: what comes back was fixed. */
  lemma {:induction false} ReturningIsFixed(s: AppScope, ip: IpTable)
    requires IpSound(ip) && Returns(s, ip)
    ensures Fixed(s, ip)
  {
    forall o | o in s.origins
      ensures CanonicalHost(o.host, ip) == o.host && NormalPrefix(o.pathPrefix) == o.pathPrefix
    {
      OriginFixed(s, o, ip);
    }
    forall e | e in s.exclusions
      ensures NormalBinding(e.origin, ip) == e.origin && NormalPattern(e.pathPattern) == e.pathPattern
    {
      ExclusionFixed(s, e, ip);
    }
  }

  lemma {:induction false} UpperTrimmed(t: string)
    requires Trimmed(t)
    ensures Trimmed(UpperAll(t)) && UpperAll(UpperAll(t)) == UpperAll(t)
  {
  }

  lemma {:induction false} UpperTrimTwice(verb: string)
    ensures NormalVerb(NormalVerb(verb)) == NormalVerb(verb)
  {
    var t := NormalVerb(verb);
    UpperTrimmed(Trim(verb));
    assert t == "" || (Trim(t) == t && UpperAll(t) == t);
    if t == "" {
      assert UpperAll(t) == t;
    }
  }

  /** A fixed origin is admitted as it is. */
  lemma {:induction false} FixedOriginAdmitted(o: ApprovedOrigin, raw: ApprovedOrigin, ip: IpTable)
    requires Admit(raw, ip) == Some(o)
    requires CanonicalHost(o.host, ip) == o.host && NormalPrefix(o.pathPrefix) == o.pathPrefix
    ensures Admit(o, ip) == Some(o)
  {
    AdmittedFields(raw, o, ip);
    SchemeText(o.scheme);
    assert Trim(o.targetID) == o.targetID;
    assert NormalizeOrigin(o, ip) == Some(o);
  }

  lemma {:induction false} AdmittedFields(raw: ApprovedOrigin, o: ApprovedOrigin, ip: IpTable)
    requires Admit(raw, ip) == Some(o)
    ensures ValidOrigin(o, ip) && Trimmed(o.targetID) && o.port != 0 && DefaultPort(o.scheme) != 0
    ensures o.host == CanonicalHost(raw.host, ip) && o.pathPrefix == NormalPrefix(raw.pathPrefix)
  {
  }

  lemma {:induction false} FixedExclusion(e: Exclusion, raw: Exclusion, ip: IpTable)
    requires e == NormalizeExclusion(raw, ip)
    requires NormalBinding(e.origin, ip) == e.origin && NormalPattern(e.pathPattern) == e.pathPattern
    ensures NormalizeExclusion(e, ip) == e
  {
    UpperTrimTwice(raw.verb);
    assert Trim(e.targetID) == e.targetID && Trim(e.reason) == e.reason;
  }

  lemma {:induction false} AdmitAllFixed(origins: seq<ApprovedOrigin>, ip: IpTable)
    requires forall o :: o in origins ==> Admit(o, ip) == Some(o)
    ensures AdmitAll(origins, ip) == origins
  {
    if origins != [] {
      var n := |origins| - 1;
      assert origins == origins[..n] + [origins[n]];
      AdmitAllFixed(origins[..n], ip);
    }
  }

  /** A scope of fixed points comes back from its own serialization. */
  lemma {:induction false} FixedRebuilds(os: seq<ApprovedOrigin>, es: seq<Exclusion>, ip: IpTable)
    requires Fixed(NewAppScope(os, es, ip), ip)
    ensures Rebuild(NewAppScope(os, es, ip), ip) == NewAppScope(os, es, ip)
  {
    var s := NewAppScope(os, es, ip);
    OriginsOfScope(os, es, ip);
    forall o | o in s.origins
      ensures Admit(o, ip) == Some(o)
    {
      var raw :| raw in os && Admit(raw, ip) == Some(o);
      FixedOriginAdmitted(o, raw, ip);
    }
    AdmitAllFixed(s.origins, ip);
    forall e | e in s.exclusions
      ensures NormalizeExclusion(e, ip) == e
    {
      var raw := StoredExclusion(os, es, e, ip);
      FixedExclusion(e, raw, ip);
    }
    assert NormalizeAll(s.exclusions, ip) == s.exclusions;
    OriginOrder();
    ExclusionOrder();
    NormalFormIdempotent(AdmitAll(os, ip), OriginLe, OriginSame);
    NormalFormIdempotent(NormalizeAll(es, ip), ExclusionLe, ExclusionSame);
  }

  // ----- which stored values are fixed -------------------------------------

  /** A binding that is the text of an origin has a plain host. */
  predicate BindingText(v: string, ip: IpTable) {
    match ParseApprovedOrigin("", v, ip)
    case None => true
    case Some(o) => o.pathPrefix == "/" ==> Plain(ParseUrl(Trim(v)).value.hostname)
  }

  /** Nothing is left to strip or trim in what is stored. */
  ghost predicate Settled(s: AppScope, ip: IpTable) {
    && (forall o :: o in s.origins ==> Plain(o.host) && Trimmed(o.pathPrefix))
    && (forall e :: e in s.exclusions ==> BindingText(e.origin, ip) && Trimmed(e.pathPattern))
  }

  /** A cleaned path loses white space at its end, and only that. */
  lemma {:induction false} PrefixFixedExactly(v: string)
    requires CleanPath(v) == v && "/" <= v && !HasAny(v, "?#")
    ensures NormalPrefix(v) == v <==> Trimmed(v)
  {
    TrimHasNone(v);
    if !Trimmed(v) {
      CleanedShorter(v);
    }
  }

  lemma {:induction false} CleanedShorter(v: string)
    requires "/" <= v && !Trimmed(v)
    ensures |Trim(v)| < |v| && "/" <= Trim(v) && |CleanPath(Trim(v))| < |v|
  {
    assert !Blank(v[0]) && v[0] == '/';
    TrimKeepsFirst(v);
    CleanPathShorter(Trim(v));
  }

  lemma {:induction false} PatternFixedExactly(raw: string)
    ensures var v := NormalPattern(raw); NormalPattern(v) == v <==> Trimmed(v)
  {
    var t := Trim(raw);
    var v := NormalPattern(raw);
    if "/" <= t && !HasAny(t, "?#") {
      CleanPathIdempotent(t);
      CleanPathCanonical(t);
      CleanedPattern(v);
    }
  }

  lemma {:induction false} CleanedPattern(v: string)
    requires CleanPath(v) == v && "/" <= v
    ensures NormalPattern(v) == v <==> Trimmed(v)
  {
    if !Trimmed(v) {
      CleanedShorter(v);
    }
  }

  lemma {:induction false} BindingFixedExactly(raw: string, ip: IpTable)
    requires IpSound(ip)
    ensures var v := NormalBinding(raw, ip); NormalBinding(v, ip) == v <==> BindingText(v, ip)
  {
    var t := Trim(raw);
    assert Trim(t) == t;
    assert NormalBinding(raw, ip) == NormalBinding(t, ip) by {
      BindingOfTrimmed(raw, ip);
    }
    var p := ParseApprovedOrigin("", t, ip);
    hide ParseApprovedOrigin, Trim, Serialize, NormalBinding;
    BindingIs(t, ip);
    if t != "" && p.Some? && p.value.pathPrefix == "/" {
      PrintedFixed(t, p.value, ip);
    } else if t == "" {
      NoOrigin(ip);
    }
  }

  lemma {:induction false} BindingOfTrimmed(raw: string, ip: IpTable)
    ensures NormalBinding(raw, ip) == NormalBinding(Trim(raw), ip)
  {
    assert Trim(Trim(raw)) == Trim(raw);
    hide Trim, ParseApprovedOrigin, Serialize;
  }

  lemma {:induction false} NoOrigin(ip: IpTable)
    ensures ParseApprovedOrigin("", "", ip) == None
  {
    assert Trim("") == "";
    hide Trim;
    assert ParseUrl("") == None;
  }

  lemma {:induction false} PrintedFixed(t: string, o: ApprovedOrigin, ip: IpTable)
    requires IpSound(ip) && Trim(t) == t && ParseApprovedOrigin("", t, ip) == Some(o)
    ensures var v := Serialize(o.scheme, o.host, o.port); NormalBinding(v, ip) == v <==> BindingText(v, ip)
  {
    var hostname := HostnameOf(t, o, ip);
    hide *;
    CanonicalTrimmed(hostname, ip);
    CanonicalTwiceExactly(hostname, ip);
    PrintedFixedExactly(o, ip);
  }

  lemma {:induction false} HostnameOf(t: string, o: ApprovedOrigin, ip: IpTable) returns (hostname: string)
    requires Trim(t) == t && ParseApprovedOrigin("", t, ip) == Some(o)
    ensures ValidOrigin(o, ip) && HostChars(hostname) && o.host == CanonicalHost(hostname, ip)
  {
    ParseTrimmed("", t, ip);
    var u := ParseUrl(t).value;
    hostname := u.hostname;
    ParsedHostChars(t);
    AdmittedValid(Some(u), o, ip);
    AdmittedHost(u, o, ip);
  }

  lemma {:induction false} PrintedFixedExactly(o: ApprovedOrigin, ip: IpTable)
    requires ValidOrigin(o, ip) && Trimmed(o.host)
    requires CanonicalHost(o.host, ip) == o.host <==> Plain(o.host)
    ensures var v := Serialize(o.scheme, o.host, o.port); NormalBinding(v, ip) == v <==> BindingText(v, ip)
  {
    hide *;
    PrintedTrimmed(o, ip);
    SchemeAndPort(o, ip);
    var v, h := Serialize(o.scheme, o.host, o.port), CanonicalHost(o.host, ip);
    TrimsToItself(v);
    PrintedBinding(o, ip);
    ParsePrinted(o, ip);
    BindingTextIs(v, ip);
    if HostChars(o.host) {
      PrintedAdmitted(o, ip);
      SerializeInjective(o.scheme, h, o.port, o.scheme, o.host, o.port);
    }
  }

  lemma {:induction false} SchemeAndPort(o: ApprovedOrigin, ip: IpTable)
    requires ValidOrigin(o, ip)
    ensures DefaultPort(o.scheme) != 0 && o.port > 0
  {
    hide DefaultPort, ValidHost, HasAny;
  }

  lemma {:induction false} BindingTextIs(v: string, ip: IpTable)
    requires Trim(v) == v
    ensures ParseUrl(v).None? ==> BindingText(v, ip)
    ensures ParseUrl(v).Some? ==>
        var p := AdmitUrl("", ParseUrl(v), ip);
        BindingText(v, ip) <==> (p.Some? && p.value.pathPrefix == "/" ==> Plain(ParseUrl(v).value.hostname))
  {
    hide ParseUrl, AdmitUrl, Plain, Trim, ParseApprovedOrigin;
    ParseTrimmed("", v, ip);
    NoUrl(ip);
  }

  lemma {:induction false} OriginFixedExactly(raw: ApprovedOrigin, o: ApprovedOrigin, ip: IpTable)
    requires IpSound(ip) && Admit(raw, ip) == Some(o)
    ensures CanonicalHost(o.host, ip) == o.host && NormalPrefix(o.pathPrefix) == o.pathPrefix
        <==> Plain(o.host) && Trimmed(o.pathPrefix)
  {
    AdmittedFields(raw, o, ip);
    StoredOrigin(o, raw, ip);
    CanonicalTwiceExactly(raw.host, ip);
    PrefixFixedExactly(o.pathPrefix);
  }

  lemma {:induction false} ExclusionFixedExactly(os: seq<ApprovedOrigin>, es: seq<Exclusion>, e: Exclusion, ip: IpTable)
    requires IpSound(ip) && e in NewAppScope(os, es, ip).exclusions
    ensures NormalBinding(e.origin, ip) == e.origin <==> BindingText(e.origin, ip)
    ensures NormalPattern(e.pathPattern) == e.pathPattern <==> Trimmed(e.pathPattern)
  {
    hide NormalPattern, NormalBinding, BindingText, Trimmed, IpSound, NewAppScope;
    var raw := StoredExclusion(os, es, e, ip);
    BindingFixedExactly(raw.origin, ip);
    PatternFixedExactly(raw.pathPattern);
  }

  /** Of a stored scope the text tells whether its values are fixed. */
  lemma {:induction false} SettledIsFixed(os: seq<ApprovedOrigin>, es: seq<Exclusion>, ip: IpTable)
    requires IpSound(ip)
    ensures Settled(NewAppScope(os, es, ip), ip) <==> Fixed(NewAppScope(os, es, ip), ip)
  {
    hide CanonicalHost, NormalPrefix, NormalBinding, NormalPattern, BindingText, Plain, Trimmed, Admit, IpSound,
      NormalizeExclusion, NewAppScope;
    var s := NewAppScope(os, es, ip);
    OriginsOfScope(os, es, ip);
    forall o | o in s.origins
      ensures CanonicalHost(o.host, ip) == o.host && NormalPrefix(o.pathPrefix) == o.pathPrefix
          <==> Plain(o.host) && Trimmed(o.pathPrefix)
    {
      var raw :| raw in os && Admit(raw, ip) == Some(o);
      OriginFixedExactly(raw, o, ip);
    }
    forall e | e in s.exclusions
      ensures NormalBinding(e.origin, ip) == e.origin <==> BindingText(e.origin, ip)
      ensures NormalPattern(e.pathPattern) == e.pathPattern <==> Trimmed(e.pathPattern)
    {
      ExclusionFixedExactly(os, es, e, ip);
    }
  }

  /** A scope comes back unchanged exactly when its hosts and the hosts of its
      bindings are plain and no prefix or pattern ends in white space. */
  lemma {:induction false} RebuildsExactlyWhenSettled(os: seq<ApprovedOrigin>, es: seq<Exclusion>, ip: IpTable)
    requires IpSound(ip)
    ensures Rebuild(NewAppScope(os, es, ip), ip) == NewAppScope(os, es, ip) <==> Settled(NewAppScope(os, es, ip), ip)
  {
    var s := NewAppScope(os, es, ip);
    SettledIsFixed(os, es, ip);
    if Settled(s, ip) {
      FixedRebuilds(os, es, ip);
    }
    if Returns(s, ip) {
      ReturningIsFixed(s, ip);
    }
  }

  /** Not every scope is settled: a host stored with one trailing dot, which a
      host given with two leaves behind, loses it on the way through. */
  lemma {:induction false} DottedHostChanges(h: string, ip: IpTable)
    requires PlainHost(h) && ip(h + ".") == None && ip(h) == None
    ensures CanonicalHost(h + "..", ip) == h + "." && ValidHost(h + ".", ip) && CanonicalHost(h + ".", ip) == h
  {
    StrippedDot(h);
    StrippedDot(h + ".");
    PlainDotted(h, ip);
    assert h + "." + "." == h + "..";
    hide Stripped, ValidHost, PlainHost;
    CanonicalIsStripped(h + ".", ip);
    CanonicalIsStripped(h + "..", ip);
  }

  lemma {:induction false} CanonicalIsStripped(h: string, ip: IpTable)
    ensures CanonicalHost(h, ip) == match ip(Stripped(h)) case None => Stripped(h) case Some(a) => a
  {
  }

  lemma {:induction false} PlainDotted(h: string, ip: IpTable)
    requires PlainHost(h)
    ensures ValidHost(h + ".", ip) && LowerText(h + ".") && (h + ".")[0] == h[0]
  {
    var t := h + ".";
    forall i | 0 <= i < |t|
      ensures t[i] !in "/?#@ \t[]%" && !Upperish(t[i])
    {
      assert i < |h| ==> t[i] == h[i] && h[i] !in "/?#@ \t[]%";
    }
  }

  /** A lower-case host name: no white space, no bracket, no colon. */
  predicate PlainHost(h: string) {
    h != "" && LowerText(h) && ':' !in h && !HasAny(h, "/?#@ \t[]%") && !Blank(h[0])
  }

  lemma {:induction false} StrippedDot(h: string)
    requires h != "" && LowerText(h) && !Blank(h[0]) && h[0] != '['
    ensures Stripped(h + ".") == h
  {
    var t := h + ".";
    assert t[0] == h[0] && t[|h|] == '.' && t[..|h|] == h;
    assert Trimmed(t) && Trim(t) == t;
    TrimPart(t);
  }
}
