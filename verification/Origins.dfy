/** Approved origins of internal/assessment/scope.go: the printer, the parser and
    the normal form. */
module Origins {
  import opened Wrappers
  import opened Text
  import opened Paths
  import opened Hosts

  datatype ApprovedOrigin = ApprovedOrigin(
      targetID: string, scheme: string, host: string, port: int, pathPrefix: string)

  function DefaultPort(scheme: string): nat {
    if scheme == "http" then 80 else if scheme == "https" then 443 else 0
  }

  // ----- the printer -------------------------------------------------------

  function HostText(host: string): string {
    if ':' in host then "[" + host + "]" else host
  }

  function PortText(scheme: string, port: int): string {
    if port != 0 && port != DefaultPort(scheme) then ":" + (if port < 0 then "-" + Itoa(-port) else Itoa(port)) else ""
  }

  /** `Origin()`: the RFC 6454 serialization "scheme://host[:port]". */
  function Serialize(scheme: string, host: string, port: int): string {
    scheme + "://" + HostText(host) + PortText(scheme, port)
  }

  // ----- the parser --------------------------------------------------------

  /** What net/url makes of an absolute URL; `path` is the decoded path. */
  datatype Url = Url(scheme: string, hostname: string, port: string, user: bool, path: string)

  /** Index after the last `c` in `s`, or 0. */
  function AfterLast(s: string, c: char): (k: nat)
    ensures k <= |s| && c !in s[k..]
    ensures k > 0 ==> s[k - 1] == c
    ensures k == 0 <==> c !in s
  {
    if s == "" then 0
    else if s[|s| - 1] == c then |s|
    else
      assert s == s[..|s| - 1] + [s[|s| - 1]];
      AfterLast(s[..|s| - 1], c)
  }

  /** The characters net/url accepts unescaped in a host. */
  predicate HostChar(c: char) {
    'a' <= c <= 'z' || 'A' <= c <= 'Z' || '0' <= c <= '9' || c as int >= 0x80 ||
    c in {'-', '_', '.', '~', '!', '$', '&', '\'', '(', ')', '*', '+', ',', ';', '=', ':', '[', ']', '<', '>', '\"'}
  }

  predicate HostChars(s: string) {
    forall i :: 0 <= i < |s| ==> HostChar(s[i])
  }

  predicate SchemeChars(s: string) {
    s != "" && forall i :: 0 <= i < |s| ==>
      'a' <= s[i] <= 'z' || 'A' <= s[i] <= 'Z' || (i > 0 && ('0' <= s[i] <= '9' || s[i] in {'+', '-', '.'}))
  }

  predicate Printable(s: string) {
    forall i :: 0 <= i < |s| ==> s[i] as int >= 0x20 && s[i] as int != 0x7f
  }

  /** Host and port text of "host", "host:port", "[v6]" or "[v6]:port". */
  function SplitAuthority(a: string): Option<(string, string)> {
    if "[" <= a then
      var i := AfterLast(a, ']');
      if i == 0 then None
      else
        var rest := a[i..];
        if rest == "" then Some((a[1..i - 1], ""))
        else if rest[0] == ':' && AllDigits(rest[1..]) then Some((a[1..i - 1], rest[1..]))
        else None
    else
      var j := AfterLast(a, ':');
      if j == 0 then Some((a, ""))
      else if AllDigits(a[j..]) then Some((a[..j - 1], a[j..]))
      else None
  }

  /** What follows "scheme://": authority, path and query. */
  function ParseHier(scheme: string, rest: string): Option<Url> {
    var hier := rest[..IndexOf(rest, '?')];
    var slash := IndexOf(hier, '/');
    var authority := hier[..slash];
    var at := AfterLast(authority, '@');
    if !HostChars(authority[at..]) then None
    else match SplitAuthority(authority[at..])
      case None => None
      case Some((host, port)) => Some(Url(scheme, host, port, at > 0, hier[slash..]))
  }

  /** net/url on "scheme://authority[/path]"; a query or fragment is cut off. */
  function ParseUrl(raw: string): Option<Url> {
    var text := raw[..IndexOf(raw, '#')];
    var i := IndexOf(text, ':');
    if !Printable(text) || i == |text| || !SchemeChars(text[..i]) || !("//" <= text[i + 1..]) then None
    else
      ParseHier(LowerAll(text[..i]), text[i + 3..])
  }

  /** A URL that is read names credentials exactly if an at sign stands before the first
      slash and question mark, and has only digits for a port. */
  lemma {:induction false} ParsedUser(scheme: string, rest: string)
    requires ParseHier(scheme, rest).Some?
    ensures var u := ParseHier(scheme, rest).value;
            && u.scheme == scheme && (forall i :: 0 <= i < |u.port| ==> '0' <= u.port[i] <= '9')
            && (u.user <==> exists i :: 0 <= i < |rest| && rest[i] == '@'
                              && forall k :: 0 <= k < i ==> rest[k] != '/' && rest[k] != '?')
  {
    hide HostChars, SplitAuthority, IndexOf, AfterLast;
    var hier := rest[..IndexOf(rest, '?')];
    var authority := hier[..IndexOf(hier, '/')];
    SplitDigits(authority[AfterLast(authority, '@')..]);
    if '@' in authority {
      var i :| 0 <= i < |authority| && authority[i] == '@';
      assert rest[i] == '@' && forall k :: 0 <= k < i ==> rest[k] == hier[k] && rest[k] != '/' && rest[k] != '?';
    }
    if i :| 0 <= i < |rest| && rest[i] == '@' && forall k :: 0 <= k < i ==> rest[k] != '/' && rest[k] != '?' {
      assert i < |hier| && hier[i] == '@';
      assert i < |authority| && authority[i] == '@';
    }
  }

  lemma {:induction false} SplitDigits(a: string)
    requires SplitAuthority(a).Some?
    ensures AllDigits(SplitAuthority(a).value.1)
  {
    hide AfterLast;
  }

  // ----- the normal form ---------------------------------------------------

  predicate HasAny(s: string, chars: string) {
    exists i :: 0 <= i < |s| && s[i] in chars
  }

  function NormalPrefix(p: string): string {
    var prefix := Trim(p);
    if prefix == "" || !HasAny(prefix, "?#") then CleanPath(prefix) else prefix
  }

  /** None when the scheme is not http or https. */
  function NormalizeOrigin(o: ApprovedOrigin, ip: IpTable): Option<ApprovedOrigin> {
    var scheme := LowerAll(Trim(o.scheme));
    if DefaultPort(scheme) == 0 then None
    else Some(ApprovedOrigin(Trim(o.targetID), scheme, CanonicalHost(o.host, ip),
                             if o.port == 0 then DefaultPort(scheme) else o.port, NormalPrefix(o.pathPrefix)))
  }

  predicate ValidHost(host: string, ip: IpTable) {
    host != "" && !HasAny(host, "/?#@ \t[]%") && (':' in host ==> ip(host).Some?)
  }

  predicate ValidOrigin(o: ApprovedOrigin, ip: IpTable) {
    && DefaultPort(o.scheme) != 0
    && ValidHost(o.host, ip)
    && 1 <= o.port <= 65535
    && "/" <= o.pathPrefix && !HasAny(o.pathPrefix, "?#")
  }

  /** NormalizeOrigin, then ValidOrigin: what NewAppScope and ParseApprovedOrigin keep. */
  function Admit(o: ApprovedOrigin, ip: IpTable): Option<ApprovedOrigin> {
    match NormalizeOrigin(o, ip)
    case None => None
    case Some(n) => if ValidOrigin(n, ip) then Some(n) else None
  }

  /** Which origins are admitted, and as what: an http or https scheme in any case; a
      host without the characters of a URL around it, with a colon only in an address;
      a port in range, 0 for that of the scheme; a rooted prefix without a query or
      fragment. */
  lemma {:induction false} AdmitsExactly(raw: ApprovedOrigin, ip: IpTable)
    ensures var scheme, host := LowerAll(Trim(raw.scheme)), CanonicalHost(raw.host, ip);
            && (Admit(raw, ip).Some? <==>
               && scheme in {"http", "https"} && 0 <= raw.port <= 65535
               && host != "" && (forall c :: c in host ==> c !in "/?#@ \t[]%") && (':' in host ==> ip(host).Some?)
               && "/" <= NormalPrefix(raw.pathPrefix) && '?' !in NormalPrefix(raw.pathPrefix)
               && '#' !in NormalPrefix(raw.pathPrefix))
            && (Admit(raw, ip).Some? ==>
               && Admit(raw, ip).value.scheme == scheme && Admit(raw, ip).value.host == host
               && Admit(raw, ip).value.port ==
                  (if raw.port != 0 then raw.port else if scheme == "http" then 80 else 443))
  {
    hide LowerAll, Trim, CanonicalHost, NormalPrefix, HasAny;
    var host, prefix := CanonicalHost(raw.host, ip), NormalPrefix(raw.pathPrefix);
    HasAnyOf(host, "/?#@ \t[]%");
    HasAnyOf(prefix, "?#");
    assert HasAny(prefix, "?#") <==> '?' in prefix || '#' in prefix;
  }

  lemma {:induction false} HasAnyOf(s: string, chars: string)
    ensures HasAny(s, chars) <==> exists c :: c in s && c in chars
  {
    if i :| 0 <= i < |s| && s[i] in chars {
      assert s[i] in s;
    }
    if c :| c in s && c in chars {
      var i :| 0 <= i < |s| && s[i] == c;
    }
  }

  /** What ParseApprovedOrigin makes of a parsed URL. */
  function AdmitUrl(targetID: string, url: Option<Url>, ip: IpTable): Option<ApprovedOrigin> {
    match url
    case None => None
    case Some(u) =>
      if u.hostname == "" || u.user || !AllDigits(u.port) then None
      else Admit(ApprovedOrigin(targetID, u.scheme, u.hostname, if u.port == "" then 0 else Atoi(u.port), u.path), ip)
  }

  function ParseApprovedOrigin(targetID: string, raw: string, ip: IpTable): Option<ApprovedOrigin> {
    AdmitUrl(targetID, ParseUrl(Trim(raw)), ip)
  }

  // ----- printer and parser are inverse ------------------------------------

  /** A host the printer can bracket without ambiguity. */
  predicate Bare(host: string) {
    '[' !in host && ']' !in host
  }

  predicate PortSuffix(text: string) {
    text == "" || (text[0] == ':' && AllDigits(text[1..]))
  }

  function PortOf(text: string): string {
    if text == "" then "" else text[1..]
  }

  lemma {:induction false} AfterLastIs(s: string, c: char, k: nat)
    requires k <= |s| && c !in s[k..] && (k > 0 ==> s[k - 1] == c)
    ensures AfterLast(s, c) == k
  {
  }

  lemma {:induction false} SplitBracketed(host: string, text: string)
    requires PortSuffix(text)
    ensures SplitAuthority("[" + host + "]" + text) == Some((host, PortOf(text)))
  {
    var a := "[" + host + "]" + text;
    var i := |host| + 2;
    assert a[i..] == text && a[1..i - 1] == host;
    assert ']' !in text by {
      assert forall k :: 0 < k < |text| ==> text[k] == text[1..][k - 1];
    }
    AfterLastIs(a, ']', i);
  }

  lemma {:induction false} SplitPlain(host: string, text: string)
    requires Bare(host) && ':' !in host && PortSuffix(text)
    ensures SplitAuthority(host + text) == Some((host, PortOf(text)))
  {
    var a := host + text;
    assert a[..|host|] == host && a[|host|..] == text;
    assert !("[" <= a) by {
      assert host != "" ==> a[0] == host[0];
      assert host == "" && text != "" ==> a[0] == text[0];
    }
    if text == "" {
      assert a == host;
      AfterLastIs(a, ':', 0);
    } else {
      assert a[|host| + 1..] == text[1..];
      AfterLastIs(a, ':', |host| + 1);
    }
  }

  lemma {:induction false} PortTextSuffix(scheme: string, port: nat)
    ensures PortSuffix(PortText(scheme, port))
    ensures PortText(scheme, port) == "" <==> port == 0 || port == DefaultPort(scheme)
    ensures PortText(scheme, port) != "" ==> PortOf(PortText(scheme, port)) == Itoa(port)
  {
    var text := PortText(scheme, port);
    if text != "" {
      assert text == ":" + Itoa(port);
      assert text[1..] == Itoa(port);
    }
  }

  lemma {:induction false} SplitPrinted(scheme: string, host: string, port: nat)
    requires Bare(host)
    ensures SplitAuthority(HostText(host) + PortText(scheme, port)) == Some((host, PortOf(PortText(scheme, port))))
  {
    PortTextSuffix(scheme, port);
    if ':' in host {
      SplitBracketed(host, PortText(scheme, port));
    } else {
      SplitPlain(host, PortText(scheme, port));
    }
  }

  lemma {:induction false} SchemeDecoded(s1: string, rest1: string, s2: string, rest2: string)
    requires DefaultPort(s1) != 0 && DefaultPort(s2) != 0
    requires s1 + "://" + rest1 == s2 + "://" + rest2
    ensures s1 == s2 && rest1 == rest2
  {
    var t1, t2 := s1 + "://" + rest1, s2 + "://" + rest2;
    assert t1[..|s1|] == s1 && t2[..|s2|] == s2;
    assert t1[|s1|] == ':' && t2[|s2|] == ':';
    assert t1[|s1| + 3..] == rest1 && t2[|s2| + 3..] == rest2;
    assert s1 == s2 by {
      assert |t1| > 4 && |t2| > 4;
      assert t1[4] == if |s1| == 4 then ':' else 's';
      assert t2[4] == if |s2| == 4 then ':' else 's';
    }
  }

  lemma {:induction false} AfterLastBefore(s: string, c: char, n: nat)
    requires n <= |s| && c !in s[n..]
    ensures AfterLast(s, c) <= n
  {
    assert forall i :: n <= i < |s| ==> s[i] == s[n..][i - n];
  }

  /** How long the host of a printed authority is, read off the text: a colon that
      comes before a bracket says that it is bracketed. */
  lemma {:induction false} HostLength(host: string, text: string)
    requires PortSuffix(text)
    ensures var a := HostText(host) + text;
            if ':' in host then IndexOf(a, ':') < AfterLast(a, ']') == |host| + 2
            else IndexOf(a, ':') == |host| && AfterLast(a, ']') <= |host|
  {
    var a := HostText(host) + text;
    assert forall k :: 0 < k < |text| ==> text[k] == text[1..][k - 1];
    assert ']' !in text;
    if ':' in host {
      var i :| 0 <= i < |host| && host[i] == ':';
      assert a[1 + i] == ':' && a[|host| + 1] == ']' && a[|host| + 2..] == text;
      AfterLastIs(a, ']', |host| + 2);
    } else {
      assert a[..|host|] == host && a[|host|..] == text;
      IndexIs(a, ':', |host|);
      AfterLastBefore(a, ']', |host|);
    }
  }

  lemma {:induction false} SameHost(h1: string, t1: string, h2: string, t2: string)
    requires PortSuffix(t1) && PortSuffix(t2) && HostText(h1) + t1 == HostText(h2) + t2
    ensures h1 == h2 && t1 == t2
  {
    HostLength(h1, t1);
    HostLength(h2, t2);
    hide PortSuffix, IndexOf, AfterLast;
    CutHost(h1, t1);
    CutHost(h2, t2);
  }

  lemma {:induction false} CutHost(host: string, text: string)
    ensures var a := HostText(host) + text;
            if ':' in host then |a| >= |host| + 2 && host == a[1..1 + |host|] && text == a[|host| + 2..]
            else |a| >= |host| && host == a[..|host|] && text == a[|host|..]
  {
  }

  /** Section 6.2 of RFC 6454: the text tells the scheme, host and port apart. */
  lemma {:induction false} SerializeInjective(s1: string, h1: string, p1: nat, s2: string, h2: string, p2: nat)
    requires DefaultPort(s1) != 0 && DefaultPort(s2) != 0 && p1 > 0 && p2 > 0
    ensures Serialize(s1, h1, p1) == Serialize(s2, h2, p2) <==> s1 == s2 && h1 == h2 && p1 == p2
  {
    hide HostText, PortText, PortSuffix, DefaultPort;
    var a1, a2 := HostText(h1) + PortText(s1, p1), HostText(h2) + PortText(s2, p2);
    assert Serialize(s1, h1, p1) == s1 + "://" + a1;
    assert Serialize(s2, h2, p2) == s2 + "://" + a2;
    if Serialize(s1, h1, p1) == Serialize(s2, h2, p2) {
      SchemeDecoded(s1, a1, s2, a2);
      PortTextSuffix(s1, p1);
      PortTextSuffix(s2, p2);
      SameHost(h1, PortText(s1, p1), h2, PortText(s2, p2));
      SamePort(s1, p1, p2);
    }
  }

  lemma {:induction false} SamePort(scheme: string, p1: nat, p2: nat)
    requires p1 > 0 && p2 > 0 && PortText(scheme, p1) == PortText(scheme, p2)
    ensures p1 == p2
  {
    hide PortText, PortSuffix;
    PortTextSuffix(scheme, p1);
    PortTextSuffix(scheme, p2);
    AtoiItoa(p1);
    AtoiItoa(p2);
  }

  lemma {:induction false} ParseHierAuthority(scheme: string, authority: string)
    requires '?' !in authority && '/' !in authority && '@' !in authority
    ensures ParseHier(scheme, authority) ==
            if !HostChars(authority) then None
            else match SplitAuthority(authority)
              case None => None
              case Some((host, port)) => Some(Url(scheme, host, port, false, ""))
  {
    assert authority[..|authority|] == authority && authority[0..] == authority && authority[|authority|..] == "";
    IndexIs(authority, '?', |authority|);
    IndexIs(authority, '/', |authority|);
    AfterLastIs(authority, '@', 0);
  }

  /** A text free of '#', '?', '/' and '@' after "scheme://" is all authority. */
  lemma {:induction false} ParseAuthorityOnly(scheme: string, authority: string)
    requires DefaultPort(scheme) != 0
    requires '#' !in authority && '?' !in authority && '/' !in authority && '@' !in authority
    ensures ParseUrl(scheme + "://" + authority) ==
            if !HostChars(authority) then None
            else match SplitAuthority(authority)
              case None => None
              case Some((host, port)) => Some(Url(scheme, host, port, false, ""))
  {
    hide Trim, Trimmed, LowerAll, SchemeChars, SplitAuthority, ParseHier, IndexOf, HostChars, DefaultPort;
    var raw := scheme + "://" + authority;
    var n := |scheme|;
    SchemeText(scheme);
    PrintedParts(scheme, authority);
    IndexIs(raw, '#', |raw|);
    assert raw[..|raw|] == raw;
    IndexIs(raw, ':', n);
    ParseHierAuthority(scheme, authority);
    if HostChars(authority) {
      assert Printable(raw) by {
        PrintableText(scheme, authority);
      }
    }
  }

  /** The two schemes, letter by letter. */
  lemma {:induction false} SchemeLetters(scheme: string)
    requires DefaultPort(scheme) != 0
    ensures 4 <= |scheme| <= 5 && forall i :: 0 <= i < |scheme| ==> 'a' <= scheme[i] <= 'z'
    ensures scheme[0] == 'h' && !Blank(scheme[|scheme| - 1])
  {
    if |scheme| == 4 {
      assert scheme == "http";
    } else {
      assert scheme == "https";
    }
  }

  lemma {:induction false} SchemeText(scheme: string)
    requires DefaultPort(scheme) != 0
    ensures SchemeChars(scheme) && LowerAll(scheme) == scheme && Trim(scheme) == scheme
    ensures '#' !in scheme && ':' !in scheme && '?' !in scheme
  {
    SchemeLetters(scheme);
    assert Trimmed(scheme);
  }

  lemma {:induction false} PrintedParts(scheme: string, authority: string)
    ensures var raw := scheme + "://" + authority;
            && raw[..|scheme|] == scheme && raw[|scheme|] == ':'
            && "//" <= raw[|scheme| + 1..] && raw[|scheme| + 3..] == authority
    ensures '#' !in scheme && '#' !in authority ==> '#' !in scheme + "://" + authority
  {
    var raw := scheme + "://" + authority;
    assert raw[|scheme| + 1] == '/' && raw[|scheme| + 2] == '/';
  }

  lemma {:induction false} PrintableText(scheme: string, authority: string)
    requires SchemeChars(scheme) && HostChars(authority)
    ensures Printable(scheme + "://" + authority)
  {
    var raw := scheme + "://" + authority;
    forall i | 0 <= i < |raw|
      ensures raw[i] as int >= 0x20 && raw[i] as int != 0x7f
    {
      if i >= |scheme| + 3 {
        assert HostChar(authority[i - |scheme| - 3]);
      }
    }
  }

  lemma {:induction false} HostTextChars(host: string, text: string)
    requires PortSuffix(text)
    ensures HostChars(HostText(host) + text) <==> HostChars(host)
  {
    var a := HostText(host) + text;
    var n := if ':' in host then 1 else 0;
    assert forall i :: 0 <= i < |host| ==> a[i + n] == host[i];
    assert forall i :: 0 <= i < |text| ==> HostChar(text[i]) by {
      assert forall i :: 0 < i < |text| ==> text[i] == text[1..][i - 1];
    }
  }

  /** Parsing a printed origin reads its parts back, if net/url takes the host. */
  lemma {:induction false} ParsePrinted(o: ApprovedOrigin, ip: IpTable)
    requires ValidOrigin(o, ip)
    ensures ParseUrl(Serialize(o.scheme, o.host, o.port)) ==
            if HostChars(o.host) then Some(Url(o.scheme, o.host, PortOf(PortText(o.scheme, o.port)), false, ""))
              else None
  {
    var text := PortText(o.scheme, o.port);
    var authority := HostText(o.host) + text;
    PortTextSuffix(o.scheme, o.port);
    ValidHostChars(o.host, ip);
    assert '#' !in authority && '?' !in authority && '/' !in authority && '@' !in authority by {
      assert forall c :: c in text ==> c == ':' || '0' <= c <= '9' by {
        assert forall i :: 0 < i < |text| ==> text[i] == text[1..][i - 1];
      }
    }
    assert Serialize(o.scheme, o.host, o.port) == o.scheme + "://" + authority;
    ParseAuthorityOnly(o.scheme, authority);
    HostTextChars(o.host, text);
    SplitPrinted(o.scheme, o.host, o.port);
  }

  lemma {:induction false} ValidHostChars(host: string, ip: IpTable)
    requires ValidHost(host, ip)
    ensures Bare(host) && '%' !in host && '#' !in host && '?' !in host && '/' !in host && '@' !in host && ' ' !in host
        && '\t' !in host
  {
  }

  /** Printing and parsing back gives the origin with the root path exactly when
      net/url accepts its host and the host is in canonical form. */
  lemma {:induction false} OriginRoundTrip(o: ApprovedOrigin, ip: IpTable)
    requires ValidOrigin(o, ip) && IpSound(ip)
    ensures ParseApprovedOrigin("", Serialize(o.scheme, o.host, o.port), ip)
              == Some(ApprovedOrigin("", o.scheme, o.host, o.port, "/"))
            <==> HostChars(o.host) && CanonicalText(o.host, ip)
  {
    hide CanonicalHost, CanonicalText, IpSound, Admit, ParseUrl, HostChars, ValidHost, Trimmed, Serialize, PortText,
      PortOf;
    FixedHost(o.host, ip);
    if Trimmed(Serialize(o.scheme, o.host, o.port)) {
      ParsePrinted(o, ip);
      PrintedAdmitted(o, ip);
    } else {
      UntrimmedHost(o, ip);
    }
  }

  /** The parts of a printed origin are admitted with their host normalized. */
  lemma {:induction false} PrintedAdmitted(o: ApprovedOrigin, ip: IpTable)
    requires ValidOrigin(o, ip)
    ensures AdmitUrl("", Some(Url(o.scheme, o.host, PortOf(PortText(o.scheme, o.port)), false, "")), ip) ==
            if ValidHost(CanonicalHost(o.host, ip), ip)
            then Some(ApprovedOrigin("", o.scheme, CanonicalHost(o.host, ip), o.port, "/")) else None
  {
    PortTextSuffix(o.scheme, o.port);
    AtoiItoa(o.port);
    hide Admit, CanonicalHost, PortText, PortOf, Itoa, Atoi;
    AdmitParsed(o, if PortText(o.scheme, o.port) == "" then 0 else o.port, ip);
  }

  lemma {:induction false} AdmitParsed(o: ApprovedOrigin, port: int, ip: IpTable)
    requires ValidOrigin(o, ip)
    requires port == o.port || (port == 0 && o.port == DefaultPort(o.scheme))
    ensures Admit(ApprovedOrigin("", o.scheme, o.host, port, ""), ip) ==
            if ValidHost(CanonicalHost(o.host, ip), ip)
            then Some(ApprovedOrigin("", o.scheme, CanonicalHost(o.host, ip), o.port, "/")) else None
  {
    hide Trim, CanonicalHost, LowerAll, NormalPrefix, HasAny, ValidHost, SchemeChars;
    RootPrefix();
    SchemeText(o.scheme);
    assert NormalizeOrigin(ApprovedOrigin("", o.scheme, o.host, port, ""), ip)
        == Some(ApprovedOrigin("", o.scheme, CanonicalHost(o.host, ip), o.port, "/"));
  }

  lemma {:induction false} RootPrefix()
    ensures NormalPrefix("") == "/" && NormalPrefix("/") == "/" && Trim("") == "" && !HasAny("/", "?#")
  {
    assert Trim("/") == "/" && Trim("") == "";
    hide Trim;
    CleanRoot();
    assert !HasAny("/", "?#");
  }

  lemma {:induction false} CleanRoot()
    ensures CleanPath("") == "/" && CleanPath("/") == "/"
  {
    SegmentsOfRooted([]);
    assert Rooted([]) == "/";
    assert Absolute("") == "/" && Absolute("/") == "/";
  }

  lemma {:induction false} TrimRightAppend(a: string, b: string)
    requires a != "" && !Blank(a[|a| - 1])
    ensures TrimRight(a + b) == a + TrimRight(b)
    decreases |b|
  {
    if b == "" {
      assert a + b == a;
    } else {
      assert (a + b)[|a + b| - 1] == b[|b| - 1];
      assert (a + b)[..|a + b| - 1] == a + b[..|b| - 1];
      TrimRightAppend(a, b[..|b| - 1]);
    }
  }

  /** A host that ends in white space comes back shorter. */
  lemma {:induction false} UntrimmedHost(o: ApprovedOrigin, ip: IpTable)
    requires ValidOrigin(o, ip) && IpSound(ip) && !Trimmed(Serialize(o.scheme, o.host, o.port))
    ensures !HostChars(o.host)
    ensures ParseApprovedOrigin("", Serialize(o.scheme, o.host, o.port), ip)
              != Some(ApprovedOrigin("", o.scheme, o.host, o.port, "/"))
  {
    hide CanonicalHost, ParseUrl, AdmitUrl, ValidHost, Serialize, IpSound, Trim, Trimmed, HostChars, TrimRight,
      DefaultPort, HasAny;
    PrintedEnd(o, ip);
    ValidHostChars(o.host, ip);
    var host := TrimRight(o.host);
    ShortensBlankEnd(o.host);
    TrimPrinted(o.scheme, o.host);
    PlainHostParsed(o.scheme, host, o.host, ip);
    ShorterHost(host, o.host, ip);
    ShorterAdmitted(o, host, ip);
    NoUrl(ip);
  }

  lemma {:induction false} ShortensBlankEnd(host: string)
    requires host != "" && Blank(host[|host| - 1])
    ensures |TrimRight(host)| < |host| && TrimRight(host) <= host && !Trimmed(host) && !HostChars(host)
  {
    assert !HostChar(host[|host| - 1]);
  }

  lemma {:induction false} PlainHostParsed(scheme: string, host: string, whole: string, ip: IpTable)
    requires DefaultPort(scheme) != 0 && ValidHost(whole, ip) && host <= whole && ':' !in whole
    ensures ParseUrl(scheme + "://" + host) == if HostChars(host) then Some(Url(scheme, host, "", false, "")) else None
  {
    ValidHostChars(whole, ip);
    ParseAuthorityOnly(scheme, host);
    assert host + "" == host;
    SplitPlain(host, "");
  }

  lemma {:induction false} NoUrl(ip: IpTable)
    ensures AdmitUrl("", None, ip) == None
  {
  }

  lemma {:induction false} ShorterAdmitted(o: ApprovedOrigin, host: string, ip: IpTable)
    requires CanonicalHost(host, ip) != o.host
    ensures AdmitUrl("", Some(Url(o.scheme, host, "", false, "")),
        ip) != Some(ApprovedOrigin("", o.scheme, o.host, o.port, "/"))
  {
  }

  lemma {:induction false} ShorterHost(h: string, host: string, ip: IpTable)
    requires IpSound(ip) && |h| < |host| && !Trimmed(host) && '%' !in host
    ensures CanonicalHost(h, ip) != host
  {
    hide *;
    if CanonicalHost(h, ip) == host {
      StrippedShorter(h);
      CanonicalPlain(h, ip);
      PlainTrimmed(host);
    }
  }

  lemma {:induction false} TrimPrinted(scheme: string, host: string)
    requires DefaultPort(scheme) != 0
    ensures Trim(scheme + "://" + host) == scheme + "://" + TrimRight(host)
  {
    SchemeLetters(scheme);
    var front := scheme + "://";
    TrimRightAppend(front, host);
    assert (front + host)[0] == scheme[0];
    assert TrimLeft(front + host) == front + host;
  }

  /** Only a host ends a printed origin in white space. */
  lemma {:induction false} PrintedEnd(o: ApprovedOrigin, ip: IpTable)
    requires ValidOrigin(o, ip) && !Trimmed(Serialize(o.scheme, o.host, o.port))
    ensures Serialize(o.scheme, o.host, o.port) == o.scheme + "://" + o.host
    ensures o.host != "" && ':' !in o.host && Blank(o.host[|o.host| - 1])
  {
    var text := PortText(o.scheme, o.port);
    var front := o.scheme + "://";
    PortTextSuffix(o.scheme, o.port);
    SchemeLetters(o.scheme);
    assert Serialize(o.scheme, o.host, o.port) == front + HostText(o.host) + text;
    if text != "" {
      EndOf(front + HostText(o.host), text);
    } else {
      assert front + HostText(o.host) + text == front + HostText(o.host);
      EndOf(front, HostText(o.host));
    }
  }

  lemma {:induction false} EndOf(a: string, b: string)
    requires a != "" && !Blank(a[0]) && b != ""
    ensures Trimmed(a + b) <==> !Blank(b[|b| - 1])
  {
    assert (a + b)[0] == a[0] && (a + b)[|a + b| - 1] == b[|b| - 1];
  }
}
