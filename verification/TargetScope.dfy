/** The scope of one target, internal/assessment/scope.go: its approved origins, or
    the boundary derived from its value, and the exclusions that concern it. */
module TargetScopes {
  import opened Wrappers
  import opened Text
  import opened Paths
  import opened Hosts
  import opened Origins
  import opened NormalForms
  import opened ScopeOrder
  import opened AppScopes

  datatype Target = Target(id: string, kind: string, value: string)

  datatype Config = Config(targets: seq<Target>, approved: seq<ApprovedOrigin>, exclusions: seq<Exclusion>)

  /** What net.SplitHostPort and strconv.Atoi make of a host value. */
  datatype HostPort = NoPort | BadPort | HostPort(host: string, port: int)

  // ----- derived origins ---------------------------------------------------

  /** derivedOrigins: a URL target is its own origin and path; a host is that host
      under both schemes. `parts` is what the value splits into. */
  function DerivedOrigins(t: Target, parts: HostPort, ip: IpTable): seq<ApprovedOrigin> {
    var value, kind := Trim(t.value), UpperAll(Trim(t.kind));
    if kind == "URL" then
      match ParseApprovedOrigin(t.id, value, ip)
      case Some(o) => [o]
      case None => []
    else if kind == "DOMAIN" || kind == "IP" || kind == "HOST" then
      var host := if parts.HostPort? then parts.host else value;
      var port := if parts.HostPort? then parts.port else 0;
      if parts.BadPort? || host == "" || HasAny(host, "/?#@ ") then []
      else [ApprovedOrigin(t.id, "http", host, port, "/"), ApprovedOrigin(t.id, "https", host, port, "/")]
    else []
  }

  // ----- the selection -----------------------------------------------------

  predicate Owned(o: ApprovedOrigin, id: string) {
    Trim(o.targetID) == id
  }

  predicate Concerns(e: Exclusion, id: string) {
    Trim(e.targetID) == "" || Trim(e.targetID) == id
  }

  function OwnedOrigins(origins: seq<ApprovedOrigin>, id: string): seq<ApprovedOrigin> {
    if origins == [] then []
    else
      OwnedOrigins(origins[..|origins| - 1], id) +
      if Owned(origins[|origins| - 1], id) then [origins[|origins| - 1]] else []
  }

  function Concerning(exclusions: seq<Exclusion>, id: string): seq<Exclusion> {
    if exclusions == [] then []
    else
      Concerning(exclusions[..|exclusions| - 1], id) +
      if Concerns(exclusions[|exclusions| - 1], id) then [exclusions[|exclusions| - 1]] else []
  }

  predicate FirstTarget(cfg: Config, id: string, i: nat) {
    && i <= |cfg.targets| && (i < |cfg.targets| ==> Trim(cfg.targets[i].id) == id)
    && forall k :: 0 <= k < i ==> Trim(cfg.targets[k].id) != id
  }

  /** The origins the scope is built from. */
  function ScopeOrigins(cfg: Config, t: Target, id: string, parts: HostPort, ip: IpTable): seq<ApprovedOrigin> {
    var owned := OwnedOrigins(cfg.approved, id);
    if owned == [] then DerivedOrigins(t, parts, ip) else owned
  }

  /** AppScopeForTarget; `parts` splits the value of the target that is found. */
  method AppScopeForTarget(cfg: Config, targetID: string, parts: HostPort, ip: IpTable)
    returns (s: AppScope, ghost at: nat)
    ensures FirstTarget(cfg, Trim(targetID), at)
    ensures at == |cfg.targets| ==> s == AppScope([], [])
    ensures at < |cfg.targets| ==>
      s == NewAppScope(ScopeOrigins(cfg, cfg.targets[at], Trim(targetID), parts, ip),
        Concerning(cfg.exclusions, Trim(targetID)), ip)
  {
    hide Trim, NewAppScope, DerivedOrigins;
    var id := Trim(targetID);
    var i := 0;
    while i < |cfg.targets| && Trim(cfg.targets[i].id) != id
      invariant i <= |cfg.targets| && forall k :: 0 <= k < i ==> Trim(cfg.targets[k].id) != id
    {
      i := i + 1;
    }
    at := i;
    if i == |cfg.targets| {
      return AppScope([], []), at;
    }
    var origins := [];
    for k := 0 to |cfg.approved|
      invariant origins == OwnedOrigins(cfg.approved[..k], id)
    {
      assert cfg.approved[..k + 1][..k] == cfg.approved[..k];
      if Trim(cfg.approved[k].targetID) == id {
        origins := origins + [cfg.approved[k]];
      }
    }
    assert cfg.approved[..|cfg.approved|] == cfg.approved;
    if |origins| == 0 {
      origins := DerivedOrigins(cfg.targets[i], parts, ip);
    }
    var exclusions := [];
    for k := 0 to |cfg.exclusions|
      invariant exclusions == Concerning(cfg.exclusions[..k], id)
    {
      assert cfg.exclusions[..k + 1][..k] == cfg.exclusions[..k];
      if Trim(cfg.exclusions[k].targetID) == "" || Trim(cfg.exclusions[k].targetID) == id {
        exclusions := exclusions + [cfg.exclusions[k]];
      }
    }
    assert cfg.exclusions[..|cfg.exclusions|] == cfg.exclusions;
    s := BuildAppScope(origins, exclusions, ip);
  }

  // ----- what the scope of a target promises -------------------------------

  lemma {:induction false} OwnedOriginsAreOwned(origins: seq<ApprovedOrigin>, id: string)
    ensures forall o :: o in OwnedOrigins(origins, id) <==> o in origins && Owned(o, id)
  {
    if origins != [] {
      var n := |origins| - 1;
      OwnedOriginsAreOwned(origins[..n], id);
      hide Owned;
      assert origins == origins[..n] + [origins[n]];
    }
  }

  lemma {:induction false} ConcerningConcern(exclusions: seq<Exclusion>, id: string)
    ensures forall e :: e in Concerning(exclusions, id) <==> e in exclusions && Concerns(e, id)
  {
    if exclusions != [] {
      var n := |exclusions| - 1;
      ConcerningConcern(exclusions[..n], id);
      hide Concerns;
      assert exclusions == exclusions[..n] + [exclusions[n]];
    }
  }

  lemma {:induction false} DerivedAreOwned(t: Target, parts: HostPort, ip: IpTable, o: ApprovedOrigin)
    requires o in DerivedOrigins(t, parts, ip)
    ensures Trim(o.targetID) == Trim(t.id)
  {
    hide ParseApprovedOrigin, Trim, UpperAll, HasAny;
    var parsed := ParseApprovedOrigin(t.id, Trim(t.value), ip);
    if parsed.Some? {
      ParsedTarget(t.id, Trim(t.value), parsed.value, ip);
    }
  }

  lemma {:induction false} ParsedTarget(id: string, raw: string, o: ApprovedOrigin, ip: IpTable)
    requires ParseApprovedOrigin(id, raw, ip) == Some(o)
    ensures Trim(o.targetID) == Trim(id)
  {
    hide AdmitUrl, ParseUrl, Trim;
    AdmittedTarget(id, ParseUrl(Trim(raw)), o, ip);
  }

  lemma {:induction false} AdmittedTarget(id: string, url: Option<Url>, o: ApprovedOrigin, ip: IpTable)
    requires AdmitUrl(id, url, ip) == Some(o)
    ensures Trim(o.targetID) == Trim(id)
  {
    assert Trim(Trim(id)) == Trim(id);
    hide Trim, CanonicalHost, NormalPrefix, LowerAll;
  }

  lemma {:induction false} AdmittedKeepsTarget(raw: ApprovedOrigin, o: ApprovedOrigin, ip: IpTable)
    requires Admit(raw, ip) == Some(o)
    ensures o.targetID == Trim(raw.targetID)
  {
    hide Trim, CanonicalHost, NormalPrefix, LowerAll;
  }

  /** Every origin in the scope of a target is that target's own. */
  lemma {:induction false} OriginsAreOwn(cfg: Config, t: Target, id: string, parts: HostPort, ip: IpTable,
          o: ApprovedOrigin)
    requires Trim(t.id) == id
    requires o in NewAppScope(ScopeOrigins(cfg, t, id, parts, ip), Concerning(cfg.exclusions, id), ip).origins
    ensures o.targetID == id
  {
    var origins := ScopeOrigins(cfg, t, id, parts, ip);
    OriginsOfScope(origins, Concerning(cfg.exclusions, id), ip);
    hide NewAppScope, Admit, Trim;
    var raw :| raw in origins && Admit(raw, ip) == Some(o);
    AdmittedKeepsTarget(raw, o, ip);
    if OwnedOrigins(cfg.approved, id) == [] {
      DerivedAreOwned(t, parts, ip, raw);
    } else {
      OwnedOriginsAreOwned(cfg.approved, id);
    }
  }

  /** Approving origins for one target approves nothing for another: a request the
      scope allows lies in an approved origin of the target, if it has any. */
  lemma {:induction false} AllowsOnlyOwn(cfg: Config, t: Target, id: string, parts: HostPort, ip: IpTable,
          d: Destination)
    requires OwnedOrigins(cfg.approved, id) != []
    ensures AllowsTo(NewAppScope(ScopeOrigins(cfg, t, id, parts, ip), Concerning(cfg.exclusions, id), ip), d) <==>
            exists raw :: raw in cfg.approved && Trim(raw.targetID) == id && Admit(raw, ip).Some?
              && Contains(Admit(raw, ip).value, d)
  {
    var origins := OwnedOrigins(cfg.approved, id);
    OwnedOriginsAreOwned(cfg.approved, id);
    OriginsOfScope(origins, Concerning(cfg.exclusions, id), ip);
    hide Admit, Contains, OwnedOrigins, Concerning, Trim;
    var s := NewAppScope(origins, Concerning(cfg.exclusions, id), ip);
    hide NewAppScope;
    assert forall o :: o in s.origins <==> exists raw :: raw in origins && Admit(raw, ip) == Some(o);
    if AllowsTo(s, d) {
      var o :| o in s.origins && Contains(o, d);
      var raw :| raw in origins && Admit(raw, ip) == Some(o);
      assert raw in cfg.approved && Owned(raw, id);
    }
    if raw :|
      && raw in cfg.approved && Trim(raw.targetID) == id
      && Admit(raw, ip).Some? && Contains(Admit(raw, ip).value, d) {
      assert Owned(raw, id) && raw in origins;
      assert Admit(raw, ip).value in s.origins;
    }
  }

  /** In the scope of its own target a bound exclusion binds as an unbound one:
      whatever the scope allows, the target owns. */
  lemma {:induction false} BoundIsUnbound(cfg: Config, t: Target, id: string, parts: HostPort, ip: IpTable,
          d: Destination, e: Exclusion)
    requires Trim(t.id) == id
    requires var s := NewAppScope(ScopeOrigins(cfg, t, id, parts, ip), Concerning(cfg.exclusions, id), ip);
             AllowsTo(s, d) && e in s.exclusions
    ensures e.targetID == "" ||
            (e.targetID == id && TargetOwns(NewAppScope(ScopeOrigins(cfg, t, id, parts, ip),
              Concerning(cfg.exclusions, id), ip), e.targetID, d))
  {
    hide NewAppScope, Contains, ScopeOrigins, Concerning, Trim;
    var s := NewAppScope(ScopeOrigins(cfg, t, id, parts, ip), Concerning(cfg.exclusions, id), ip);
    var o :| o in s.origins && Contains(o, d);
    OriginsAreOwn(cfg, t, id, parts, ip, o);
    StoredConcerns(ScopeOrigins(cfg, t, id, parts, ip), cfg.exclusions, id, e, ip);
    var i :| 0 <= i < |s.origins| && s.origins[i] == o;
  }

  lemma {:induction false} StoredConcerns(origins: seq<ApprovedOrigin>, exclusions: seq<Exclusion>, id: string,
          e: Exclusion, ip: IpTable)
    requires e in NewAppScope(origins, Concerning(exclusions, id), ip).exclusions
    ensures e.targetID == "" || e.targetID == id
  {
    hide NewAppScope, Concerning, NormalBinding, NormalVerb, NormalPattern, Trim;
    StoredFrom(origins, Concerning(exclusions, id), e, ip);
    ConcerningConcern(exclusions, id);
  }

  /** The origin of a URL target as the scope stores it. */
  function UrlOrigin(t: Target, ip: IpTable): Option<ApprovedOrigin> {
    match ParseApprovedOrigin(t.id, Trim(t.value), ip)
    case None => None
    case Some(o) => Admit(o, ip)
  }

  /** A URL target allows exactly what names its own origin and lies below its own
      path. */
  lemma {:induction false} DerivedUrl(t: Target, parts: HostPort, es: seq<Exclusion>, u: Url, ip: IpTable)
    requires UpperAll(Trim(t.kind)) == "URL"
    ensures var s, d := NewAppScope(DerivedOrigins(t, parts, ip), es, ip), ParseDestination(Some(u), ip);
            d.Some? && AllowsTo(s, d.value) <==>
            UrlOrigin(t, ip).Some? && Names(u, UrlOrigin(t, ip).value, ip)
              && Segments(UrlOrigin(t, ip).value.pathPrefix) <= Segments(u.path)
  {
    hide NewAppScope, ParseDestination, AllowsTo, Names, Segments, Admit, ParseApprovedOrigin, Trim, UpperAll, HasAny;
    AllowedExactly(DerivedOrigins(t, parts, ip), es, u, ip);
    OriginsOfScope(DerivedOrigins(t, parts, ip), es, ip);
  }

  /** A domain, an IP address or a host is reached under both schemes, on the port of
      the value or the default ports of the two, on any path, and nowhere else. It is
      not reached at all if the port is no number or the host is no host. */
  lemma {:induction false} DerivedHost(t: Target, parts: HostPort, es: seq<Exclusion>, ip: IpTable, d: Destination)
    requires UpperAll(Trim(t.kind)) in {"DOMAIN", "IP", "HOST"}
    ensures var host, port := if parts.HostPort? then parts.host else Trim(t.value),
                if parts.HostPort? then parts.port else 0;
            AllowsTo(NewAppScope(DerivedOrigins(t, parts, ip), es, ip), d) <==>
            && parts != BadPort && host != "" && !HasAny(host, "/?#@ ") && ValidHost(CanonicalHost(host, ip), ip)
            && d.host == CanonicalHost(host, ip) && d.scheme in {"http", "https"} && 1 <= d.port <= 65535
            && d.port == if port != 0 then port else if d.scheme == "http" then 80 else 443
  {
    hide DerivedOrigins, Admit, CanonicalHost, Trim, NewAppScope, ValidHost, HasAny, UpperAll, AllowsTo;
    var host, port := if parts.HostPort? then parts.host else Trim(t.value), if parts.HostPort? then parts.port else 0;
    var raws := DerivedOrigins(t, parts, ip);
    DerivedPair(t, parts, ip);
    OriginsOfScope(raws, es, ip);
    DerivedAdmitted(t.id, "http", host, port, ip);
    DerivedAdmitted(t.id, "https", host, port, ip);
    if raws == [] {
      NoOrigins(NewAppScope(raws, es, ip), d);
    } else {
      TwoOrigins(NewAppScope(raws, es, ip), raws, ip, d);
    }
  }

  lemma {:induction false} DerivedPair(t: Target, parts: HostPort, ip: IpTable)
    requires UpperAll(Trim(t.kind)) in {"DOMAIN", "IP", "HOST"}
    ensures var host, port := if parts.HostPort? then parts.host else Trim(t.value),
                if parts.HostPort? then parts.port else 0;
            DerivedOrigins(t, parts, ip) ==
            if parts == BadPort || host == "" || HasAny(host, "/?#@ ") then []
            else [ApprovedOrigin(t.id, "http", host, port, "/"), ApprovedOrigin(t.id, "https", host, port, "/")]
  {
    hide Trim, UpperAll, HasAny, ParseApprovedOrigin;
    assert |"URL"| == 3 && |"IP"| == 2 && |"HOST"| == 4 && |"DOMAIN"| == 6;
  }

  /** A target of any other kind, or a URL that is no origin, is reached nowhere. */
  lemma {:induction false} DerivedNothing(t: Target, parts: HostPort, es: seq<Exclusion>, ip: IpTable, d: Destination)
    requires UpperAll(Trim(t.kind)) !in {"URL", "DOMAIN", "IP", "HOST"}
    ensures !AllowsTo(NewAppScope(DerivedOrigins(t, parts, ip), es, ip), d)
  {
    hide NewAppScope, Admit, Trim, UpperAll, HasAny, ParseApprovedOrigin, Contains;
    OriginsOfScope([], es, ip);
  }

  lemma {:induction false} NoOrigins(s: AppScope, d: Destination)
    requires forall o :: o !in s.origins
    ensures !AllowsTo(s, d)
  {
  }

  /** A scope of two root origins allows what has the origin of one of them. */
  lemma {:induction false} TwoOrigins(s: AppScope, raws: seq<ApprovedOrigin>, ip: IpTable, d: Destination)
    requires |raws| == 2
    requires forall o :: o in s.origins <==> exists raw :: raw in raws && Admit(raw, ip) == Some(o)
    requires forall i :: 0 <= i < 2 && Admit(raws[i], ip).Some? ==> Admit(raws[i], ip).value.pathPrefix == "/"
    ensures AllowsTo(s, d) <==> exists i ::
              0 <= i < 2 && Admit(raws[i], ip).Some? && SameOrigin(Admit(raws[i], ip).value, d)
  {
    hide Admit;
    assert raws[0] in raws && raws[1] in raws;
    assert forall i :: 0 <= i < 2 && Admit(raws[i], ip).Some? ==>
      (Contains(Admit(raws[i], ip).value, d) <==> SameOrigin(Admit(raws[i], ip).value, d));
    hide Contains, SameOrigin;
    if AllowsTo(s, d) {
      var o :| o in s.origins && Contains(o, d);
      var raw :| raw in raws && Admit(raw, ip) == Some(o);
      var i :| 0 <= i < 2 && raws[i] == raw;
    }
    if i :| 0 <= i < 2 && Admit(raws[i], ip).Some? && SameOrigin(Admit(raws[i], ip).value, d) {
      assert Admit(raws[i], ip).value in s.origins;
    }
  }

  lemma {:induction false} DerivedAdmitted(id: string, scheme: string, host: string, port: int, ip: IpTable)
    requires scheme in {"http", "https"}
    ensures Admit(ApprovedOrigin(id, scheme, host, port, "/"), ip) ==
            var p := if port != 0 then port else if scheme == "http" then 80 else 443;
            if ValidHost(CanonicalHost(host, ip), ip) && 1 <= p <= 65535 then
              Some(ApprovedOrigin(Trim(id), scheme, CanonicalHost(host, ip), p, "/"))
            else None
  {
    hide Trim, CanonicalHost, LowerAll, NormalPrefix, HasAny, ValidHost, SchemeChars;
    RootPrefix();
    SchemeText(scheme);
  }
}
