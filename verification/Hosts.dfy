/** canonicalHost of internal/assessment/scope.go, and when a second pass over its
    result changes nothing. */
module Hosts {
  import opened Wrappers
  import opened Text

  /** Stands for net/netip: the canonical text of an IP literal, nothing for any
      other host. */
  type IpTable = string -> Option<string>

  /** Brackets and the root dot, each once. */
  function Unwrapped(h: string): string {
    TrimSuffix(TrimSuffix(TrimPrefix(h, "["), ']'), '.')
  }

  /** What canonicalHost does to a text before asking for an IP literal. */
  function Stripped(h: string): string {
    Unwrapped(LowerAll(Trim(h)))
  }

  function CanonicalHost(h: string, ip: IpTable): string {
    match ip(Stripped(h))
    case Some(addr) => addr
    case None => Stripped(h)
  }

  // ----- what is asked of net/netip ----------------------------------------

  /** The zone of an address text, with its percent sign. */
  function Zone(h: string): string {
    h[IndexOf(h, '%')..]
  }

  function WithoutZone(h: string): string {
    h[..IndexOf(h, '%')]
  }

  /** Hexadecimal digits, colons and dots, with no dot at the end. */
  predicate AddressText(t: string) {
    && t != "" && t[|t| - 1] != '.'
    && forall i :: 0 <= i < |t| ==> '0' <= t[i] <= '9' || 'a' <= t[i] <= 'f' || t[i] == ':' || t[i] == '.'
  }

  predicate PlainStart(h: string) {
    h != "" && !Blank(h[0]) && h[0] != '['
  }

  /** A literal is read as an address text with the zone of the literal, and that
      text is read as itself. */
  ghost predicate Reads(ip: IpTable, h: string) {
    ip(h).Some? ==>
      var a := ip(h).value;
      && PlainStart(h) && ip(a) == Some(a)
      && Zone(a) == Zone(h) && AddressText(WithoutZone(a))
  }

  ghost predicate IpSound(ip: IpTable) {
    forall h :: Reads(ip, h)
  }

  // ----- stripping ---------------------------------------------------------

  predicate LowerText(s: string) {
    forall i :: 0 <= i < |s| ==> !Upperish(s[i])
  }

  /** Nothing to strip: no blank at either end, no leading bracket, no trailing
      bracket or dot. */
  predicate Plain(h: string) {
    h == "" || (PlainStart(h) && !Blank(h[|h| - 1]) && h[|h| - 1] != ']' && h[|h| - 1] != '.')
  }

  predicate Wrapped(h: string) {
    h != "" && (h[0] == '[' || h[|h| - 1] == ']' || h[|h| - 1] == '.')
  }

  lemma {:induction false} UnwrappedPart(h: string)
    ensures if Wrapped(h) then |Unwrapped(h)| < |h| else Unwrapped(h) == h
    ensures PlainStart(h) ==> Unwrapped(h) <= h
    ensures forall c :: c in Unwrapped(h) ==> c in h
  {
    var a := TrimPrefix(h, "[");
    var b := TrimSuffix(a, ']');
    assert a == h || a == h[1..];
    assert b == a || b == a[..|a| - 1];
  }

  lemma {:induction false} TrimPart(h: string)
    requires LowerText(h)
    ensures LowerAll(Trim(h)) == Trim(h)
    ensures if Trimmed(h) then Trim(h) == h else |Trim(h)| < |h|
    ensures PlainStart(h) ==> Trim(h) <= h && PlainStart(Trim(h))
  {
    var t := Trim(h);
    forall i | 0 <= i < |t|
      ensures Lower(t[i]) == t[i]
    {
      assert t[i] in h;
    }
    assert TrimLeft(h) == h[|h| - |TrimLeft(h)|..];
    if PlainStart(h) {
      TrimKeepsFirst(h);
    }
  }

  lemma {:induction false} TrimKeepsFirst(v: string)
    requires v != "" && !Blank(v[0])
    ensures TrimRight(v) != "" && Trim(v) == TrimRight(v) == v[..|TrimRight(v)|]
  {
    if Blank(v[|v| - 1]) {
      TrimKeepsFirst(v[..|v| - 1]);
    }
  }

  lemma {:induction false} StrippedLower(h: string)
    ensures LowerText(Stripped(h))
  {
    hide LowerAll, Trim, Unwrapped;
    var l := LowerAll(Trim(h));
    assert LowerText(l);
    UnwrappedPart(l);
    assert forall i :: 0 <= i < |Stripped(h)| ==> Stripped(h)[i] in l;
  }

  /** Stripping leaves exactly the plain texts in lower case as they are, and
      shortens the others in lower case; after a plain start only at the end. */
  lemma {:induction false} StrippedShrinks(h: string)
    requires LowerText(h)
    ensures if Plain(h) then Stripped(h) == h else |Stripped(h)| < |h|
    ensures PlainStart(h) ==> Stripped(h) <= h
    ensures forall c :: c in Stripped(h) ==> c in h
  {
    TrimPart(h);
    var t := Trim(h);
    var u := Unwrapped(t);
    assert Stripped(h) == u;
    hide LowerAll, LowerText, Trim, Unwrapped, Stripped;
    UnwrappedPart(t);
    if PlainStart(h) {
      assert u <= t <= h;
    }
    if Trimmed(h) {
      assert Plain(h) <==> !Wrapped(h);
    }
  }

  lemma {:induction false} ZoneOfPrefix(x: string, h: string)
    requires x < h && '%' in h
    ensures Zone(x) != Zone(h)
  {
    var i := IndexOf(h, '%');
    if '%' in x {
      IndexIs(h, '%', IndexOf(x, '%'));
    }
  }

  // ----- a second pass -----------------------------------------------------

  /** The text of an address without a zone is plain and in lower case; with a zone
      its start is plain and its end is that of the literal. */
  lemma {:induction false} AddressEnds(h: string, ip: IpTable)
    requires IpSound(ip) && ip(h).Some? && LowerText(h)
    ensures var a := ip(h).value; LowerText(a) && PlainStart(a) && ('%' in a <==> '%' in h)
    ensures '%' !in h ==> Plain(ip(h).value)
    ensures '%' in h ==> (Plain(ip(h).value) <==> Plain(h))
  {
    var a := ip(h).value;
    assert Reads(ip, h);
    hide IpSound;
    assert h == WithoutZone(h) + Zone(h);
    AddressWithZone(a);
    ZoneHas(a);
    ZoneHas(h);
    if '%' in h {
      assert Zone(a)[|Zone(a)| - 1] == a[|a| - 1] == h[|h| - 1];
    }
    forall k | 0 <= k < |Zone(a)|
      ensures !Upperish(Zone(a)[k])
    {
      assert Zone(h)[k] in h;
    }
  }

  lemma {:induction false} ZoneHas(h: string)
    ensures '%' in h <==> Zone(h) != ""
  {
  }

  lemma {:induction false} AddressWithZone(a: string)
    requires AddressText(WithoutZone(a))
    ensures PlainStart(a)
    ensures LowerText(Zone(a)) ==> LowerText(a)
    ensures Zone(a) == "" ==> Plain(a) && LowerText(a)
    ensures Zone(a) != "" ==> a[|a| - 1] == Zone(a)[|Zone(a)| - 1]
  {
    var front, zone := WithoutZone(a), Zone(a);
    assert a == front + zone;
    hide WithoutZone, Zone, IndexOf;
  }

  /** Lower case, plain, and in canonical form if it is an IP literal. */
  predicate CanonicalText(v: string, ip: IpTable) {
    LowerText(v) && Plain(v) && (ip(v).Some? ==> ip(v).value == v)
  }

  /** The hosts that canonicalHost leaves as they are. */
  lemma {:induction false} FixedHost(v: string, ip: IpTable)
    requires IpSound(ip)
    ensures CanonicalHost(v, ip) == v <==> CanonicalText(v, ip)
  {
    hide Stripped, Plain, LowerText, IpSound;
    StrippedLower(v);
    if LowerText(v) {
      StrippedShrinks(v);
    }
    Unread(v, ip);
  }

  /** What stripping changes is not the text of an address. */
  lemma {:induction false} Unread(v: string, ip: IpTable)
    requires IpSound(ip)
    ensures ip(Stripped(v)) == Some(v) ==> Stripped(v) == v
  {
    var x := Stripped(v);
    if ip(x) == Some(v) {
      StrippedLower(v);
      AddressEnds(x, ip);
      StrippedShrinks(v);
      assert Reads(ip, x);
      hide Stripped, Plain, PlainStart, LowerText, AddressText, IpSound;
      if '%' in v && x != v {
        ZoneOfPrefix(x, v);
      }
    }
  }

  /** Canonicalizing twice is canonicalizing once exactly when what is stripped off
      the host leaves nothing more to strip, or an IP literal without a zone. */
  lemma {:induction false} CanonicalTwiceExactly(h: string, ip: IpTable)
    requires IpSound(ip)
    ensures var v := CanonicalHost(h, ip); CanonicalHost(v, ip) == v <==> Plain(v)
    ensures var s := Stripped(h); Plain(CanonicalHost(h, ip)) <==> Plain(s) || (ip(s).Some? && '%' !in s)
  {
    var s, v := Stripped(h), CanonicalHost(h, ip);
    StrippedLower(h);
    FixedHost(v, ip);
    assert Reads(ip, s);
    if ip(s).Some? {
      AddressEnds(s, ip);
    }
  }

  lemma {:induction false} StrippedShorter(h: string)
    ensures |Stripped(h)| <= |h|
  {
    UnwrappedPart(LowerAll(Trim(h)));
    hide Unwrapped;
  }

  /** A canonical host without a zone is stripped text or plain. */
  lemma {:induction false} CanonicalPlain(h: string, ip: IpTable)
    requires IpSound(ip) && '%' !in CanonicalHost(h, ip)
    ensures CanonicalHost(h, ip) == Stripped(h) || Plain(CanonicalHost(h, ip))
  {
    StrippedLower(h);
    var s := Stripped(h);
    if ip(s).Some? {
      AddressEnds(s, ip);
    }
  }

  lemma {:induction false} PlainTrimmed(h: string)
    ensures Plain(h) ==> Trimmed(h)
  {
  }
}
