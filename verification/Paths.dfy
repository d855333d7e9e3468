/** Path cleaning and the path-prefix test of internal/assessment/scope.go. */
module Paths {
  import opened Text

  // ----- the code ----------------------------------------------------------

  function Slashes(p: string): (r: string)
    ensures |r| == |p| && '\\' !in r
    ensures forall i :: 0 <= i < |p| ==> r[i] == if p[i] == '\\' then '/' else p[i]
  {
    if p == "" then "" else [if p[0] == '\\' then '/' else p[0]] + Slashes(p[1..])
  }

  function Absolute(p: string): (r: string)
    ensures r != "" && r[0] == '/' && '\\' !in r
  {
    var q := Slashes(p);
    if "/" <= q then q else "/" + q
  }

  /** One segment against the stack of segments kept so far: empty and "."
      segments vanish, ".." drops the last kept segment and stops at the root. */
  function Step(stack: seq<string>, s: string): seq<string> {
    if s == "" || s == "." then stack
    else if s == ".." then (if stack == [] then stack else stack[..|stack| - 1])
    else stack + [s]
  }

  function Resolve(stack: seq<string>, segs: seq<string>): seq<string>
    decreases segs
  {
    if segs == [] then stack else Resolve(Step(stack, segs[0]), segs[1..])
  }

  function Rooted(segs: seq<string>): string {
    if segs == [] then "/" else "/" + Join(segs, '/')
  }

  /** The segments that are left of `p` once dot segments are resolved. */
  function Segments(p: string): seq<string> {
    Resolve([], Split(Absolute(p), '/'))
  }

  function CleanPath(p: string): string {
    Rooted(Segments(p))
  }

  predicate PathWithin(p: string, prefix: string) {
    prefix == "" || prefix == "/" || p == prefix || prefix + "/" <= p
  }

  // ----- canonical segments ------------------------------------------------

  ghost predicate Canonical(segs: seq<string>) {
    forall i :: 0 <= i < |segs| ==> segs[i] != "" && segs[i] != "." && segs[i] != ".." && '/' !in segs[i]
  }

  lemma {:induction false} ResolveCanonical(stack: seq<string>, segs: seq<string>)
    requires Canonical(stack)
    requires forall i :: 0 <= i < |segs| ==> '/' !in segs[i]
    ensures Canonical(Resolve(stack, segs))
    decreases segs
  {
    if segs != [] {
      ResolveCanonical(Step(stack, segs[0]), segs[1..]);
    }
  }

  lemma {:induction false} ResolveKeepsCanonical(stack: seq<string>, segs: seq<string>)
    requires Canonical(segs)
    ensures Resolve(stack, segs) == stack + segs
    decreases segs
  {
    if segs != [] {
      ResolveKeepsCanonical(stack + [segs[0]], segs[1..]);
      assert stack + [segs[0]] + segs[1..] == stack + segs;
    } else {
      assert stack + segs == stack;
    }
  }

  lemma {:induction false} SplitRooted(segs: seq<string>)
    requires Canonical(segs)
    ensures Split(Rooted(segs), '/') == if segs == [] then ["", ""] else [""] + segs
  {
    SplitAppend("", '/', if segs == [] then "" else Join(segs, '/'));
    if segs != [] {
      SplitJoin(segs, '/');
      assert "" + ['/'] + Join(segs, '/') == Rooted(segs);
    } else {
      assert "" + ['/'] + "" == Rooted(segs);
    }
  }

  lemma {:induction false} NoSeparator(parts: seq<string>, sep: char, c: char)
    requires |parts| >= 1 && c != sep
    requires forall i :: 0 <= i < |parts| ==> c !in parts[i]
    ensures c !in Join(parts, sep)
  {
    if |parts| > 1 {
      NoSeparator(parts[1..], sep, c);
    }
  }

  lemma {:induction false} SplitWithout(s: string, sep: char, c: char)
    requires c !in s
    ensures forall i :: 0 <= i < |Split(s, sep)| ==> c !in Split(s, sep)[i]
  {
    if s != "" {
      SplitWithout(s[1..], sep, c);
    }
  }

  lemma {:induction false} ResolveWithout(stack: seq<string>, segs: seq<string>, c: char)
    requires forall i :: 0 <= i < |stack| ==> c !in stack[i]
    requires forall i :: 0 <= i < |segs| ==> c !in segs[i]
    ensures forall i :: 0 <= i < |Resolve(stack, segs)| ==> c !in Resolve(stack, segs)[i]
    decreases segs
  {
    if segs != [] {
      ResolveWithout(Step(stack, segs[0]), segs[1..], c);
    }
  }

  lemma {:induction false} SlashesFixed(p: string)
    requires '\\' !in p
    ensures Slashes(p) == p
  {
    if p != "" {
      SlashesFixed(p[1..]);
    }
  }

  /** What cleaning leaves: no empty, "." or ".." segment, no separator inside a
      segment and no backslash anywhere. */
  lemma {:induction false} CleanPathCanonical(p: string)
    ensures Canonical(Segments(p))
    ensures '\\' !in CleanPath(p) && CleanPath(p) != "" && CleanPath(p)[0] == '/'
    ensures Split(CleanPath(p), '/') == if Segments(p) == [] then ["", ""] else [""] + Segments(p)
    ensures CleanPath(p) != "/" ==> CleanPath(p)[|CleanPath(p)| - 1] != '/'
  {
    var parts := Split(Absolute(p), '/');
    ResolveCanonical([], parts);
    SplitWithout(Absolute(p), '/', '\\');
    ResolveWithout([], parts, '\\');
    SplitRooted(Segments(p));
    if Segments(p) != [] {
      NoSeparator(Segments(p), '/', '\\');
      LastCharacter(Segments(p));
    }
  }

  lemma {:induction false} LastCharacter(segs: seq<string>)
    requires segs != [] && Canonical(segs)
    ensures Join(segs, '/') != "" && Join(segs, '/')[|Join(segs, '/')| - 1] != '/'
  {
    if |segs| > 1 {
      LastCharacter(segs[1..]);
    }
  }

  /** The segments of a rooted canonical path are the ones it was built from. */
  lemma {:induction false} SegmentsOfRooted(segs: seq<string>)
    requires Canonical(segs)
    requires '\\' !in Rooted(segs)
    ensures Segments(Rooted(segs)) == segs
  {
    SlashesFixed(Rooted(segs));
    SplitRooted(segs);
    if segs == [] {
      assert Resolve([], ["", ""]) == [] by {
        assert ["", ""][1..] == [""];
        assert [""][1..] == [];
      }
    } else {
      assert ([""] + segs)[1..] == segs;
      ResolveKeepsCanonical([], segs);
      assert [] + segs == segs;
    }
  }

  /** Cleaning twice is cleaning once. */
  lemma {:induction false} CleanPathIdempotent(p: string)
    ensures Segments(CleanPath(p)) == Segments(p)
    ensures CleanPath(CleanPath(p)) == CleanPath(p)
  {
    CleanPathCanonical(p);
    SegmentsOfRooted(Segments(p));
  }

  lemma {:induction false} RootedInjective(a: seq<string>, b: seq<string>)
    requires Canonical(a) && Canonical(b) && Rooted(a) == Rooted(b)
    ensures a == b
  {
    SplitRooted(a);
    SplitRooted(b);
    if a == [] || b == [] {
      assert |[""] + a| == |a| + 1 && |[""] + b| == |b| + 1;
    } else {
      assert ([""] + a)[1..] == a;
      assert ([""] + b)[1..] == b;
    }
  }

  /** The string test is segment-prefix containment: on canonical segment lists
      `PathWithin` holds exactly when the boundary is a prefix of the path. */
  lemma {:induction false} PathWithinRooted(path: seq<string>, boundary: seq<string>)
    requires Canonical(path) && Canonical(boundary)
    ensures PathWithin(Rooted(path), Rooted(boundary)) <==> boundary <= path
  {
    var p, q := Rooted(path), Rooted(boundary);
    if boundary == [] {
    } else {
      assert |q| > 1;
      if boundary <= path {
        var rest := path[|boundary|..];
        assert path == boundary + rest;
        if rest == [] {
          assert path == boundary;
        } else {
          JoinAppend(boundary, rest, '/');
          assert p == q + "/" + Join(rest, '/');
        }
      }
      if p == q {
        RootedInjective(path, boundary);
      } else if q + "/" <= p {
        var rest := p[|q| + 1..];
        assert p == q + ['/'] + rest;
        SplitAppend(q, '/', rest);
        SplitRooted(path);
        SplitRooted(boundary);
        assert |p| > 1 && path != [];
        assert [""] + path == [""] + boundary + Split(rest, '/');
        assert path == ([""] + path)[1..];
        assert path == boundary + Split(rest, '/');
      }
    }
  }

  /** The same for the strings the matcher really compares. */
  lemma {:induction false} PathWithinIsSegmentPrefix(path: string, prefix: string)
    ensures PathWithin(CleanPath(path), CleanPath(prefix)) <==> Segments(prefix) <= Segments(path)
  {
    CleanPathCanonical(path);
    CleanPathCanonical(prefix);
    PathWithinRooted(Segments(path), Segments(prefix));
  }

  // ----- section 5.2.4 of RFC 3986 -----------------------------------------

  /** The output buffer without its last segment and the "/" before it. */
  function DropLast(out: string): (r: string)
    ensures |r| <= |out|
  {
    if out == "" then ""
    else if out[|out| - 1] == '/' then out[..|out| - 1]
    else DropLast(out[..|out| - 1])
  }

  /** Position of the first "/" at or after `from`, or the end of `s`. */
  function NextSlash(s: string, from: nat): (k: nat)
    requires from <= |s|
    ensures from <= k <= |s|
    ensures k < |s| ==> s[k] == '/'
    ensures '/' !in s[from..k]
    decreases |s| - from
  {
    if from == |s| || s[from] == '/' then from else NextSlash(s, from + 1)
  }

  /** One round of section 5.2.4 of RFC 3986 (rules 2A to 2E): the new input
      and output buffers. */
  function DotRule(input: string, out: string): (r: (string, string))
    requires input != ""
    ensures |r.0| < |input|
  {
    if "../" <= input then (input[3..], out)
    else if "./" <= input then (input[2..], out)
    else if "/./" <= input then (input[2..], out)
    else if input == "/." then ("/", out)
    else if "/../" <= input then (input[3..], DropLast(out))
    else if input == "/.." then ("/", DropLast(out))
    else if input == "." || input == ".." then ("", out)
    else
      var k := NextSlash(input, 1);
      (input[k..], out + input[..k])
  }

  function RemoveDotSegments(input: string, out: string): string
    decreases |input|
  {
    if input == "" then out
    else
      var (input', out') := DotRule(input, out);
      RemoveDotSegments(input', out')
  }

  /** "/" before every segment. */
  function Slashed(segs: seq<string>): string {
    if segs == [] then "" else "/" + segs[0] + Slashed(segs[1..])
  }

  lemma {:induction false} SlashedAppend(a: seq<string>, b: seq<string>)
    ensures Slashed(a + b) == Slashed(a) + Slashed(b)
  {
    if a == [] {
      assert a + b == b;
    } else {
      assert (a + b)[1..] == a[1..] + b;
      SlashedAppend(a[1..], b);
    }
  }

  lemma {:induction false} SlashedJoin(segs: seq<string>)
    requires segs != []
    ensures Slashed(segs) == "/" + Join(segs, '/')
  {
    if |segs| > 1 {
      SlashedJoin(segs[1..]);
    } else {
      assert Slashed(segs[1..]) == "";
    }
  }

  lemma {:induction false} DropLastSegment(x: string, s: string)
    requires '/' !in s
    ensures DropLast(x + "/" + s) == x
  {
    var o := x + "/" + s;
    if s == "" {
      assert o[..|o| - 1] == x;
    } else {
      assert o[|o| - 1] == s[|s| - 1];
      assert o[..|o| - 1] == x + "/" + s[..|s| - 1];
      DropLastSegment(x, s[..|s| - 1]);
    }
  }

  lemma {:induction false} DropLastSlashed(front: seq<string>, s: string)
    requires '/' !in s
    ensures DropLast(Slashed(front + [s])) == Slashed(front)
  {
    SlashedAppend(front, [s]);
    assert Slashed([s]) == "/" + s by {
      assert [s][1..] == [];
    }
    assert Slashed(front) + ("/" + s) == Slashed(front) + "/" + s;
    DropLastSegment(Slashed(front), s);
  }

  lemma {:induction false} RemoveDotSlash(out: string)
    ensures RemoveDotSegments("/", out) == out + "/"
  {
    assert NextSlash("/", 1) == 1;
    assert "/"[1..] == "" && "/"[..1] == "/";
    assert DotRule("/", out) == ("", out + "/");
    assert RemoveDotSegments("", out + "/") == out + "/";
  }

  /** Rules 2B, 2C and 2E on a leading segment `s` followed by `rest`. */
  lemma {:induction false} DotRuleOnSegment(s: string, rest: string, out: string)
    requires s != "" && '/' !in s
    requires rest == "" || rest[0] == '/'
    ensures DotRule("/" + s + rest, out) ==
            if s == "." then (if rest == "" then "/" else rest, out)
            else if s == ".." then (if rest == "" then "/" else rest, DropLast(out))
            else (rest, out + "/" + s)
  {
    var input := "/" + s + rest;
    assert input[0] == '/' && input[1..|s| + 1] == s && input[|s| + 1..] == rest;
    if s == "." {
      assert input[1] == s[0] == '.';
      assert rest == "" ==> input == "/.";
      assert rest != "" ==> input[2] == '/' && input[2..] == rest;
    } else if s == ".." {
      assert input[1] == s[0] == '.' && input[2] == s[1] == '.';
      assert rest == "" ==> input == "/..";
      assert rest != "" ==> input[3] == '/' && input[3..] == rest;
    } else {
      OrdinarySegment(s, rest);
      NextSlashIs(input, 1, |s| + 1);
      assert input[..|s| + 1] == "/" + s;
      assert out + ("/" + s) == out + "/" + s;
    }
  }

  /** No dot rule applies to an ordinary segment. */
  lemma {:induction false} OrdinarySegment(s: string, rest: string)
    requires s != "" && s != "." && s != ".." && '/' !in s
    requires rest == "" || rest[0] == '/'
    ensures var input := "/" + s + rest;
            !("/./" <= input) && input != "/." && !("/../" <= input) && input != "/.."
  {
    var input := "/" + s + rest;
    assert input[1] == s[0];
    if |s| == 1 {
      assert rest != "" ==> input[2] == '/';
    } else {
      assert input[2] == s[1];
      if |s| > 2 {
        assert input[3] == s[2];
      } else {
        assert s == [s[0], s[1]];
      }
    }
  }

  /** What the rules leave of the segments `segs` after the output `stack`: the
      resolved segments, perhaps with a trailing slash. */
  lemma {:induction false} RemoveDotSlashed(segs: seq<string>, stack: seq<string>)
    requires segs != []
    requires forall i :: 0 <= i < |stack| ==> '/' !in stack[i]
    requires forall i :: 0 <= i < |segs| ==> '/' !in segs[i]
    requires forall i :: 0 <= i < |segs| - 1 ==> segs[i] != ""
    ensures var r := RemoveDotSegments(Slashed(segs), Slashed(stack));
            var kept := Slashed(Resolve(stack, segs));
            r == kept || r == kept + "/"
    decreases |segs|
  {
    var s, rest := segs[0], segs[1..];
    var next := Step(stack, s);
    assert Resolve(stack, segs) == Resolve(next, rest);
    if s == "" {
      assert rest == [];
      RemoveDotSlash(Slashed(stack));
      assert Slashed(segs) == "/";
    } else {
      StepSlashed(stack, s);
      DotRuleOnSegment(s, Slashed(rest), Slashed(stack));
      assert RemoveDotSegments(Slashed(segs), Slashed(stack))
          == RemoveDotSegments(DotRule(Slashed(segs), Slashed(stack)).0, DotRule(Slashed(segs), Slashed(stack)).1);
      if rest == [] {
        RemoveDotSlash(Slashed(next));
      } else {
        RemoveDotSlashed(rest, next);
      }
    }
  }

  /** A stack step read off the output buffer. */
  lemma {:induction false} StepSlashed(stack: seq<string>, s: string)
    requires forall i :: 0 <= i < |stack| ==> '/' !in stack[i]
    requires '/' !in s && s != ""
    ensures Slashed(Step(stack, s)) ==
            if s == "." then Slashed(stack)
            else if s == ".." then DropLast(Slashed(stack))
            else Slashed(stack) + "/" + s
  {
    if s == "." {
    } else if s == ".." {
      if stack != [] {
        var n := |stack| - 1;
        assert stack == stack[..n] + [stack[n]];
        DropLastSlashed(stack[..n], stack[n]);
      }
    } else {
      SlashedAppend(stack, [s]);
      assert Slashed([s]) == "/" + s by {
        assert [s][1..] == [];
      }
      assert Slashed(stack) + ("/" + s) == Slashed(stack) + "/" + s;
    }
  }

  lemma {:induction false} NextSlashIs(s: string, from: nat, k: nat)
    requires from <= k <= |s| && (k == |s| || s[k] == '/')
    requires '/' !in s[from..k]
    ensures NextSlash(s, from) == k
    decreases k - from
  {
    if from < k {
      assert s[from] in s[from..k];
      assert s[from + 1..k] == s[from..k][1..];
      NextSlashIs(s, from + 1, k);
    }
  }

  function WithoutTrailingSlash(p: string): string {
    if |p| > 1 && p[|p| - 1] == '/' then p[..|p| - 1] else p
  }

  /** On an absolute path without empty segments (a final "/" is not one)
      cleaning is section 5.2.4 of RFC 3986 up to the trailing slash. */
  lemma {:induction false} CleanPathIsRemoveDotSegments(segs: seq<string>)
    requires segs != []
    requires forall i :: 0 <= i < |segs| ==> '/' !in segs[i] && '\\' !in segs[i]
    requires forall i :: 0 <= i < |segs| - 1 ==> segs[i] != ""
    ensures CleanPath(Slashed(segs)) == WithoutTrailingSlash(RemoveDotSegments(Slashed(segs), ""))
  {
    SlashedSegments(segs);
    RemoveDotSlashed(segs, []);
    CleanPathCanonical(Slashed(segs));
    var kept := Segments(Slashed(segs));
    if kept != [] {
      SlashedJoin(kept);
      assert (Slashed(kept) + "/")[..|Slashed(kept)|] == Slashed(kept);
    } else {
      RemoveDotRooted(Slashed(segs), "");
    }
  }

  lemma {:induction false} SlashedSegments(segs: seq<string>)
    requires segs != []
    requires forall i :: 0 <= i < |segs| ==> '/' !in segs[i] && '\\' !in segs[i]
    ensures Slashed(segs) != "" && Slashed(segs)[0] == '/'
    ensures Segments(Slashed(segs)) == Resolve([], segs)
  {
    var p := Slashed(segs);
    SlashedJoin(segs);
    NoSeparator(segs, '/', '\\');
    SlashesFixed(p);
    SplitJoin(segs, '/');
    SplitAppend("", '/', Join(segs, '/'));
    assert "" + ['/'] + Join(segs, '/') == p;
    assert Split(p, '/') == [""] + segs;
    assert ([""] + segs)[1..] == segs;
  }

  /** An absolute input never ends with an empty output buffer. */
  lemma {:induction false} RemoveDotRooted(input: string, out: string)
    requires input != "" && input[0] == '/'
    ensures RemoveDotSegments(input, out) != ""
    decreases |input|
  {
    var (input', out') := DotRule(input, out);
    assert RemoveDotSegments(input, out) == RemoveDotSegments(input', out');
    if input' == "" {
      assert out' != "";
    } else {
      RemoveDotRooted(input', out');
    }
  }

  /** An empty segment in the middle is where the two part: cleaning drops it
      before ".." is applied, the standard lets ".." consume it. So "/a//.."
      cleans to "/", and section 5.2.4 makes it "/a/". */
  lemma {:induction false} EmptySegmentsDiffer(a: string)
    requires Canonical([a]) && '\\' !in a
    ensures CleanPath(Slashed([a, "", ".."])) == "/"
    ensures RemoveDotSegments(Slashed([a, "", ".."]), "") == "/" + a + "/"
  {
    EmptySegmentCleaned(a);
    EmptySegmentRemoved(a);
  }

  lemma {:induction false} EmptySegmentCleaned(a: string)
    requires Canonical([a]) && '\\' !in a
    ensures CleanPath(Slashed([a, "", ".."])) == "/"
  {
    var segs := [a, "", ".."];
    assert a == [a][0];
    SlashedSegments(segs);
    assert segs[1..] == ["", ".."] && segs[1..][1..] == [".."] && segs[1..][1..][1..] == [];
    assert Step([], a) == [a] && Step([a], "") == [a] && Step([a], "..") == [];
    assert Resolve([], segs) == Resolve([a], segs[1..]);
    assert Resolve([a], segs[1..]) == Resolve([a], segs[1..][1..]);
    assert Resolve([a], segs[1..][1..]) == Resolve([], []);
  }

  lemma {:induction false} EmptySegmentRemoved(a: string)
    requires Canonical([a])
    ensures RemoveDotSegments(Slashed([a, "", ".."]), "") == "/" + a + "/"
  {
    assert a == [a][0];
    var out := "/" + a;
    assert "" + "/" + a == out;
    DotRuleOnSegment(a, "//..", "");
    assert Slashed([a, "", ".."]) == "/" + a + "//.." by {
      assert [a, "", ".."][1..] == ["", ".."];
      assert ["", ".."][1..] == [".."];
      assert [".."][1..] == [];
      assert Slashed([".."]) == "/..";
    }
    MiddleSlash("/..", out);
    assert "/" + "/.." == "//..";
    DotRuleOnSegment("..", "", out + "/");
    assert "/" + ".." + "" == "/..";
    DropLastSegment(out, "");
    assert out + "/" + "" == out + "/";
    RemoveDotSlash(out);
    assert RemoveDotSegments("/..", out + "/") == RemoveDotSegments("/", out);
  }

  /** Rule 2E on an empty segment. */
  lemma {:induction false} MiddleSlash(rest: string, out: string)
    requires rest != "" && rest[0] == '/'
    ensures DotRule("/" + rest, out) == (rest, out + "/")
  {
    var input := "/" + rest;
    assert input[0] == '/' && input[1] == '/';
    assert !("/./" <= input) && input != "/." && !("/../" <= input) && input != "/..";
    NextSlashIs(input, 1, 1);
    assert input[1..] == rest && input[..1] == "/";
  }
}
