/** The request path of an API operation, scopedAPIPath of
    internal/scanner/apichecks_writes.go, and when it stays below the application. */
module ApiPaths {
  import opened Wrappers
  import opened Text
  import opened Paths
  import opened Origins

  function TrimSlashes(p: string): (r: string)
    ensures r == "" || r[0] != '/'
  {
    if p != "" && p[0] == '/' then TrimSlashes(p[1..]) else p
  }

  predicate HasDotSegment(p: string) {
    exists i :: 0 <= i < |Split(p, '/')| && (Split(p, '/')[i] == "." || Split(p, '/')[i] == "..")
  }

  predicate IsHex(c: char) {
    '0' <= c <= '9' || 'a' <= c <= 'f' || 'A' <= c <= 'F'
  }

  function HexValue(c: char): (v: nat)
    requires IsHex(c)
    ensures v < 16
  {
    if '0' <= c <= '9' then (c - '0') as nat
    else if 'a' <= c <= 'f' then (c - 'a') as nat + 10
    else (c - 'A') as nat + 10
  }

  /** url.PathUnescape, byte by byte; None when an escape is malformed. */
  function Unescape(s: string): Option<string> {
    if s == "" then Some("")
    else if s[0] != '%' then
      match Unescape(s[1..])
      case None => None
      case Some(rest) => Some([s[0]] + rest)
    else if |s| < 3 || !IsHex(s[1]) || !IsHex(s[2]) then None
    else
      match Unescape(s[3..])
      case None => None
      case Some(rest) => Some([(16 * HexValue(s[1]) + HexValue(s[2])) as char] + rest)
  }

  /** The path below the application; `basePath` is the decoded path of its URL. */
  function ScopedPath(basePath: string, operation: string): Option<string> {
    if !("/" <= operation) || HasAny(operation, "?#\\{}") then None
    else match Unescape(operation)
      case None => None
      case Some(path) => if HasDotSegment(path) then None else Some(TrimSuffix(basePath, '/') + "/" + TrimSlashes(path))
  }

  /** scopedAPIPath on the parsed URL of the application. A URL without a host name
      is refused here, where the program may leave that to the scope. */
  function ScopedUrl(base: Option<Url>, operation: string): Option<Url> {
    match base
    case None => None
    case Some(u) =>
      if u.hostname == "" || u.user || (u.scheme != "http" && u.scheme != "https") then None
      else match ScopedPath(u.path, operation)
        case None => None
        case Some(path) => Some(u.(path := path))
  }

  // ----- the net effect of segments ----------------------------------------

  /** What a list of segments does to any stack: it drops `up` segments and then
      adds `down`. */
  datatype Net = Net(up: nat, down: seq<string>)

  function NetStep(n: Net, s: string): Net {
    if s == "" || s == "." then n
    else if s == ".." then (if n.down == [] then Net(n.up + 1, []) else Net(n.up, n.down[..|n.down| - 1]))
    else Net(n.up, n.down + [s])
  }

  function NetOf(n: Net, segs: seq<string>): Net
    decreases segs
  {
    if segs == [] then n else NetOf(NetStep(n, segs[0]), segs[1..])
  }

  /** What the decoded path of an operation does to the segments of the application.
      Backslashes separate segments here. */
  function NetOfOperation(operation: string): Net
    requires Unescape(operation).Some?
  {
    NetOf(Net(0, []), Split(Slashes(TrimSlashes(Unescape(operation).value)), '/'))
  }

  /** How many of the segments of `stack` are left. */
  function Left(stack: seq<string>, n: Net): (k: nat)
    ensures k <= |stack|
  {
    if n.up <= |stack| then |stack| - n.up else 0
  }

  function Moved(stack: seq<string>, n: Net): seq<string> {
    stack[..Left(stack, n)] + n.down
  }

  lemma {:induction false} ResolveNet(stack: seq<string>, n: Net, segs: seq<string>)
    ensures Resolve(Moved(stack, n), segs) == Moved(stack, NetOf(n, segs))
    decreases segs
  {
    if segs != [] {
      StepNet(stack, n, segs[0]);
      hide Step, NetStep;
      ResolveNet(stack, NetStep(n, segs[0]), segs[1..]);
    }
  }

  lemma {:induction false} StepNet(stack: seq<string>, n: Net, s: string)
    ensures Step(Moved(stack, n), s) == Moved(stack, NetStep(n, s))
  {
    var m := Moved(stack, n);
    if s == ".." {
      if n.down == [] {
        assert m == stack[..Left(stack, n)];
      } else {
        assert m[..|m| - 1] == stack[..Left(stack, n)] + n.down[..|n.down| - 1];
      }
    }
  }

  /** The stack is led back into exactly when what is dropped is added again. */
  lemma {:induction false} StaysAbove(stack: seq<string>, n: Net)
    ensures stack <= Moved(stack, n) <==> stack[Left(stack, n)..] <= n.down
  {
    var k := Left(stack, n);
    var m := Moved(stack, n);
    assert stack == stack[..k] + stack[k..];
    if stack <= m {
      assert m[..|stack|] == stack && m[k..] == n.down;
      assert n.down[..|stack| - k] == m[k..|stack|] == stack[k..];
    }
    if stack[k..] <= n.down {
      assert n.down == stack[k..] + n.down[|stack| - k..];
      assert m == stack + n.down[|stack| - k..];
    }
  }

  /** Segments without ".." drop nothing. */
  lemma {:induction false} NoUp(n: Net, segs: seq<string>)
    requires ".." !in segs && n.up == 0
    ensures NetOf(n, segs).up == 0
    decreases segs
  {
    if segs != [] {
      NoUp(NetStep(n, segs[0]), segs[1..]);
    }
  }

  // ----- segments of a joined path -----------------------------------------

  lemma {:induction false} ResolveAppend(stack: seq<string>, a: seq<string>, b: seq<string>)
    ensures Resolve(stack, a + b) == Resolve(Resolve(stack, a), b)
    decreases a
  {
    hide Step;
    if a == [] {
      assert a + b == b;
    } else {
      assert (a + b)[1..] == a[1..] + b;
      ResolveAppend(Step(stack, a[0]), a[1..], b);
    }
  }

  lemma {:induction false} AbsoluteJoin(front: string, raw: string)
    ensures Absolute(front + "/" + raw) == (if Slashes(front) == "" then "" else Absolute(front)) + "/" + Slashes(raw)
  {
    SlashesJoin(front, raw);
    hide Slashes;
    var q, rest := Slashes(front), Slashes(raw);
    assert q != "" ==> q[0] == (q + "/" + rest)[0];
    if q == "" {
      assert q + "/" + rest == "/" + rest;
    } else if q[0] != '/' {
      assert "/" + (q + "/" + rest) == ("/" + q) + "/" + rest;
    }
  }

  /** Joining on a slash: the segments of the front, then those of the rest. */
  lemma {:induction false} JoinedSegments(front: string, raw: string)
    ensures Segments(front + "/" + raw) == Resolve(Segments(front), Split(Slashes(raw), '/'))
  {
    AbsoluteJoin(front, raw);
    EmptySegments(front);
    hide Resolve, Slashes, Absolute;
    var a, rest := if Slashes(front) == "" then "" else Absolute(front), Slashes(raw);
    SplitAppend(a, '/', rest);
    ResolveAppend([], Split(a, '/'), Split(rest, '/'));
  }

  lemma {:induction false} EmptySegments(front: string)
    ensures Segments(front) == Resolve([], Split(if Slashes(front) == "" then "" else Absolute(front), '/'))
  {
    if Slashes(front) == "" {
      assert Absolute(front) == "/" && Split("", '/') == [""];
      assert Split("/", '/') == ["", ""] by {
        assert "/"[1..] == "";
      }
      EmptyAdds([], []);
      EmptyAdds([], [""]);
      assert [""] + [] == [""] && [""] + [""] == ["", ""];
    }
  }

  lemma {:induction false} EmptyAdds(stack: seq<string>, segs: seq<string>)
    ensures Resolve(stack, [""] + segs) == Resolve(stack, segs)
  {
    assert ([""] + segs)[1..] == segs;
  }

  lemma {:induction false} SlashesJoin(front: string, rest: string)
    ensures Slashes(front + "/" + rest) == Slashes(front) + "/" + Slashes(rest)
  {
    var s, t := Slashes(front + "/" + rest), Slashes(front) + "/" + Slashes(rest);
    assert forall i :: 0 <= i < |s| ==> s[i] == t[i];
    assert s == t;
  }

  /** A trailing slash makes no segment. */
  lemma {:induction false} TrailingSlash(basePath: string)
    ensures Segments(TrimSuffix(basePath, '/')) == Segments(basePath)
  {
    var front := TrimSuffix(basePath, '/');
    if front != basePath {
      assert basePath == front + "/" + "";
      JoinedSegments(front, "");
      hide Segments;
      assert Slashes("") == "" && Split("", '/') == [""];
      EmptyAdds(Segments(front), []);
      assert [""] + [] == [""];
    }
  }

  lemma {:induction false} SplitTrimmed(p: string, s: string)
    requires s in Split(TrimSlashes(p), '/')
    ensures s in Split(p, '/')
  {
    if p != "" && p[0] == '/' {
      SplitTrimmed(p[1..], s);
    }
  }

  lemma {:induction false} TrimSlashesWithout(p: string, c: char)
    requires c !in p
    ensures c !in TrimSlashes(p)
  {
    if p != "" && p[0] == '/' {
      TrimSlashesWithout(p[1..], c);
    }
  }

  // ----- below the application ---------------------------------------------

  /** Where a request goes: it leaves as many segments of the application as the
      decoded operation path goes up, and adds what that goes down again. It stays
      below the application exactly when the segments it leaves come again. */
  lemma {:induction false} StaysBelowExactly(basePath: string, operation: string)
    requires ScopedPath(basePath, operation).Some?
    ensures var base, path := Segments(basePath), Segments(ScopedPath(basePath, operation).value);
            var net := NetOfOperation(operation);
            path == Moved(base, net) && (base <= path <==> base[Left(base, net)..] <= net.down)
  {
    var base, rest := Segments(basePath), TrimSlashes(Unescape(operation).value);
    TrailingSlash(basePath);
    JoinedSegments(TrimSuffix(basePath, '/'), rest);
    hide Segments, Resolve, Split, TrimSlashes, NetOf, Slashes;
    assert Moved(base, Net(0, [])) == base;
    ResolveNet(base, Net(0, []), Split(Slashes(rest), '/'));
    StaysAbove(base, NetOf(Net(0, []), Split(Slashes(rest), '/')));
  }

  /** So an operation path that decodes to no backslash always does. */
  lemma {:induction false} StaysBelow(basePath: string, operation: string)
    requires ScopedPath(basePath, operation).Some? && '\\' !in Unescape(operation).value
    ensures Segments(basePath) <= Segments(ScopedPath(basePath, operation).value)
  {
    var decoded := Unescape(operation).value;
    var rest := TrimSlashes(decoded);
    var segs := Split(Slashes(rest), '/');
    StaysBelowExactly(basePath, operation);
    TrimSlashesWithout(decoded, '\\');
    SlashesFixed(rest);
    forall s | s in segs
      ensures s != ".."
    {
      SplitTrimmed(decoded, s);
    }
    hide Segments, Split, TrimSlashes, NetOf;
    NoUp(Net(0, []), segs);
  }

  predicate PlainName(name: string) {
    name != "" && name != "." && name != ".." && !HasAny(name, "%/\\?#{}")
  }

  /** An escaped backslash does not always: it is looked for before the escapes are
      undone and separates segments only later. The operation "/..%5Cname" leaves
      the last segment of any application path. */
  lemma {:induction false} BackslashClimbs(segs: seq<string>, name: string)
    requires Canonical(segs) && segs != [] && '\\' !in Rooted(segs) && PlainName(name)
    ensures var path := ScopedPath(Rooted(segs), "/..%5C" + name);
            path.Some? && Segments(path.value) == segs[..|segs| - 1] + [name]
  {
    hide Segments, Split, Unescape, NetOf, Slashes, TrimSlashes, HasAny, HasDotSegment, PlainName, Canonical, Rooted;
    PlainCharacters(name);
    ClimbUnescaped(name);
    ClimbHasNoDot(name);
    ClimbAdmitted(name);
    assert ScopedPath(Rooted(segs), "/..%5C" + name).Some?;
    hide ScopedPath;
    StaysBelowExactly(Rooted(segs), "/..%5C" + name);
    SegmentsOfRooted(segs);
    ClimbNet(name);
    assert Moved(segs, Net(1, [name])) == segs[..|segs| - 1] + [name];
  }

  lemma {:induction false} PlainCharacters(name: string)
    requires PlainName(name)
    ensures name != "" && name != "." && name != ".." && '%' !in name && '/' !in name && '\\' !in name
    ensures forall c :: c in name ==> c !in "?#\\{}"
  {
    forall i | 0 <= i < |name|
      ensures name[i] !in "%/\\?#{}"
    {
    }
    assert '%' in "%/\\?#{}" && '/' in "%/\\?#{}" && '\\' in "%/\\?#{}";
    assert forall c :: c in "?#\\{}" ==> c in "%/\\?#{}";
  }

  /** An escape is a percent sign and two hexadecimal digits of either case. */
  lemma {:induction false} EscapeExactly(a: char, b: char, rest: string)
    ensures Unescape(['%', a, b] + rest).Some? <==>
            a in "0123456789abcdefABCDEF" && b in "0123456789abcdefABCDEF" && Unescape(rest).Some?
  {
    assert (['%', a, b] + rest)[3..] == rest;
    HexDigits(a);
    HexDigits(b);
    hide HexValue, IsHex;
  }

  lemma {:induction false} HexDigits(c: char)
    ensures IsHex(c) <==> c in "0123456789abcdefABCDEF"
  {
  }

  /** It stands for the byte that its digits write. */
  lemma {:induction false} EscapedByte(a: char, b: char, i: int, j: int, rest: string)
    requires 0 <= i < 16 && 0 <= j < 16 && Unescape(rest).Some?
    requires a == "0123456789abcdef"[i] || a == "0123456789ABCDEF"[i]
    requires b == "0123456789abcdef"[j] || b == "0123456789ABCDEF"[j]
    ensures Unescape(['%', a, b] + rest) == Some([(16 * i + j) as char] + Unescape(rest).value)
  {
    hide *;
    DigitValue(a, i);
    DigitValue(b, j);
    UnescapeByte(a, b, rest);
  }

  lemma {:induction false} UnescapeByte(a: char, b: char, rest: string)
    requires IsHex(a) && IsHex(b) && Unescape(rest).Some?
    ensures Unescape(['%', a, b] + rest) == Some([(16 * HexValue(a) + HexValue(b)) as char] + Unescape(rest).value)
  {
    hide HexValue, IsHex;
    assert (['%', a, b] + rest)[3..] == rest;
  }

  lemma {:induction false} DigitValue(c: char, i: int)
    requires 0 <= i < 16 && (c == "0123456789abcdef"[i] || c == "0123456789ABCDEF"[i])
    ensures IsHex(c) && HexValue(c) == i
  {
  }

  /** A request is scoped exactly if the application has a host and no credentials and
      is reached over HTTP, and the operation is rooted, free of query, fragment,
      backslash and placeholder, well escaped, and without dot segments. */
  lemma {:induction false} ScopedExactly(u: Url, operation: string)
    ensures ScopedUrl(Some(u), operation).Some? <==>
      && u.hostname != "" && !u.user && u.scheme in {"http", "https"}
      && operation != "" && operation[0] == '/'
      && (forall c :: c in operation ==> c !in {'?', '#', '\\', '{', '}'})
      && Unescape(operation).Some? && "." !in Split(Unescape(operation).value, '/')
      && ".." !in Split(Unescape(operation).value, '/')
  {
    hide Unescape, Split, TrimSlashes, TrimSuffix;
    HasAnyOf(operation, "?#\\{}");
    assert forall c :: c in "?#\\{}" <==> c in {'?', '#', '\\', '{', '}'};
  }

  lemma {:induction false} UnescapeLetter(c: char, s: string)
    requires c != '%' && Unescape(s).Some?
    ensures Unescape([c] + s) == Some([c] + Unescape(s).value)
  {
    assert ([c] + s)[1..] == s;
  }

  lemma {:induction false} UnescapePlain(s: string)
    requires '%' !in s
    ensures Unescape(s) == Some(s)
  {
    if s != "" {
      UnescapePlain(s[1..]);
      assert s == [s[0]] + s[1..];
    }
  }

  lemma {:induction false} UnescapeBackslash(s: string)
    requires Unescape(s).Some?
    ensures Unescape("%5C" + s) == Some(['\\'] + Unescape(s).value)
  {
    var t := "%5C" + s;
    assert t[3..] == s && t[0] == '%' && t[1] == '5' && t[2] == 'C';
    assert HexValue('5') == 5 && HexValue('C') == 12;
  }

  lemma {:induction false} ClimbUnescaped(name: string)
    requires '%' !in name
    ensures Unescape("/..%5C" + name) == Some("/..\\" + name)
  {
    hide Unescape;
    UnescapePlain(name);
    UnescapeBackslash(name);
    UnescapeLetter('.', "%5C" + name);
    UnescapeLetter('.', ['.'] + ("%5C" + name));
    UnescapeLetter('/', ['.'] + (['.'] + ("%5C" + name)));
    assert ['/'] + (['.'] + (['.'] + ("%5C" + name))) == "/..%5C" + name;
    assert ['/'] + (['.'] + (['.'] + (['\\'] + name))) == "/..\\" + name;
  }

  lemma {:induction false} ClimbAdmitted(name: string)
    requires forall c :: c in name ==> c !in "?#\\{}"
    ensures "/" <= "/..%5C" + name && !HasAny("/..%5C" + name, "?#\\{}")
  {
    var s := "/..%5C" + name;
    forall i | 0 <= i < |s|
      ensures s[i] !in "?#\\{}"
    {
      if i >= 6 {
        assert s[i] == name[i - 6];
      }
    }
  }

  lemma {:induction false} ClimbHasNoDot(name: string)
    requires name != "" && '/' !in name
    ensures !HasDotSegment("/..\\" + name)
  {
    var rest := "..\\" + name;
    assert "/..\\" + name == "" + "/" + rest;
    SplitAppend("", '/', rest);
    assert '/' !in rest;
    SplitNone(rest, '/');
    assert Split("", '/') == [""];
    assert Split("/..\\" + name, '/') == ["", rest];
    assert |rest| > 2;
  }

  lemma {:induction false} ClimbNet(name: string)
    requires name != "" && name != "." && name != ".." && '/' !in name && '\\' !in name
    ensures NetOf(Net(0, []), Split(Slashes(TrimSlashes("/..\\" + name)), '/')) == Net(1, [name])
  {
    hide Split, TrimSlashes, Slashes;
    ClimbSlashes(name);
    SplitAppend("..", '/', name);
    SplitNone("..", '/');
    SplitNone(name, '/');
    assert [".."] + [name] == ["..", name] && ["..", name][1..] == [name] && [name][1..] == [];
    assert [] + [name] == [name];
    assert NetOf(Net(1, []), [name]) == Net(1, [name]);
  }

  lemma {:induction false} ClimbSlashes(name: string)
    requires '\\' !in name
    ensures Slashes(TrimSlashes("/..\\" + name)) == ".." + "/" + name
  {
    var rest := "..\\" + name;
    assert ("/..\\" + name)[1..] == rest && rest[0] == '.';
    assert TrimSlashes("/..\\" + name) == rest;
    hide TrimSlashes;
    var q := Slashes(rest);
    assert forall i :: 0 <= i < |q| ==> q[i] == (".." + "/" + name)[i];
  }
}
